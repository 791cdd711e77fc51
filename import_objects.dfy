/**
 * The folder import script: every sub-folder named `name-description-onType`
 * (or `name--onType`) holding image files named `name-color.ext` becomes one
 * catalog object. All folders are validated before any object is created.
 * Listing directories, reading files, the random upload prefix and the
 * upload itself are parameters; the `OnType` values the script checks
 * against are the parameter list `onTypes`.
 */
module ImportObjects {
  import opened Wrappers
  import opened Text
  import opened Models
  import opened Store
  import ThemeDefaultObjects

  const IMAGE_EXTENSIONS: seq<string> := [".png", ".jpg", ".jpeg", ".gif", ".webp"]
  const VALIDATION_FAILED := "Validation failed. Please fix the errors above before proceeding."

  /** What a folder name says. */
  datatype FolderInfo = FolderInfo(name: string, description: Option<string>, onType: string)

  /** What an image file name says. */
  datatype FileInfo = FileInfo(name: string, color: string)

  /** A sub-folder: its name and the names of the regular files in it. */
  datatype Folder = Folder(name: string, files: seq<string>)

  /** A folder that passed validation, with its image files. */
  datatype Validated = Validated(folder: string, info: FolderInfo, imageFiles: seq<string>)

  // ---------------------------------------------------------------- folder names

  /** `values.join(", ")`. */
  function CommaList(xs: seq<string>): string
    decreases |xs|
  {
    if |xs| == 0 then "" else if |xs| == 1 then xs[0] else xs[0] + ", " + CommaList(xs[1..])
  }

  function InvalidOnType(onTypes: seq<string>, onType: string): string {
    "Invalid onType: " + onType + ". Must be one of: " + CommaList(onTypes)
  }

  /**
   * `parseFolderName`: the pieces around '-' give the name (first), the
   * placement kind (last) and the description (the pieces between, joined
   * back with '-'; none when that is empty).
   */
  function ParseFolderName(onTypes: seq<string>, folder: string): (r: Result<FolderInfo>)
  {
    var parts := Split(folder, '-');
    if |parts| == 3 && parts[1] == "" then
      if parts[2] !in onTypes then Err(InvalidOnType(onTypes, parts[2]))
      else Ok(FolderInfo(parts[0], None, parts[2]))
    else if |parts| >= 3 then
      var onType := Last(parts);
      var description := Join(parts[1..|parts| - 1], '-');
      if onType !in onTypes then Err(InvalidOnType(onTypes, onType))
      else Ok(FolderInfo(parts[0], if description == "" then None else Some(description), onType))
    else Err("Invalid folder name format: " + folder + ". Expected: name-description-onType or name--onType")
  }

  /** A parsed folder name has a listed placement kind, no '-' in the name or the kind, and never an empty description. */
  lemma FolderNameFacts(onTypes: seq<string>, folder: string)
    ensures var r := ParseFolderName(onTypes, folder);
      r.Ok? ==> r.value.onType in onTypes && '-' !in r.value.name && '-' !in r.value.onType && r.value.description != Some("")
  {
  }

  /**
   * The `name--onType` case needs no branch of its own: the general rule
   * gives the same answer, an empty description read as none.
   */
  lemma ShortFormIsGeneralForm(onTypes: seq<string>, folder: string)
    requires |Split(folder, '-')| == 3 && Split(folder, '-')[1] == ""
    ensures var parts := Split(folder, '-');
      ParseFolderName(onTypes, folder) ==
        (if parts[2] !in onTypes then Err(InvalidOnType(onTypes, parts[2]))
         else Ok(FolderInfo(parts[0], if Join(parts[1..2], '-') == "" then None else Some(Join(parts[1..2], '-')), parts[2])))
  {
  }

  /** A folder name with fewer than two '-' is refused, whatever it says. */
  lemma TooFewPartsRefused(onTypes: seq<string>, folder: string)
    requires |Split(folder, '-')| < 3
    ensures ParseFolderName(onTypes, folder).Err?
  {
  }

  /**
   * Round trip: a name and a placement kind without '-', around any
   * description, are read back; an empty description comes back as none.
   */
  lemma FolderNameRoundTrip(onTypes: seq<string>, name: string, description: string, onType: string)
    requires '-' !in name && '-' !in onType && onType in onTypes
    ensures ParseFolderName(onTypes, name + "-" + description + "-" + onType)
      == Ok(FolderInfo(name, if description == "" then None else Some(description), onType))
  {
    FolderNamePieces(name, description, onType);
    JoinSplit(description, '-');
    var parts := [name] + Split(description, '-') + [onType];
    assert parts[1..|parts| - 1] == Split(description, '-');
  }

  /** A placement kind outside the list is refused, whatever the rest says. */
  lemma UnknownOnTypeRefused(onTypes: seq<string>, name: string, description: string, onType: string)
    requires '-' !in name && '-' !in onType && onType !in onTypes
    ensures ParseFolderName(onTypes, name + "-" + description + "-" + onType).Err?
  {
    FolderNamePieces(name, description, onType);
  }

  /** The `-` pieces of `name-description-onType` are the name, the description's pieces and the kind. */
  lemma FolderNamePieces(name: string, description: string, onType: string)
    requires '-' !in name && '-' !in onType
    ensures Split(name + "-" + description + "-" + onType, '-') == [name] + Split(description, '-') + [onType]
  {
    var mid := Split(description, '-');
    var parts := [name] + mid + [onType];
    assert Join(parts, '-') == name + "-" + description + "-" + onType by {
      JoinSplit(description, '-');
      assert parts[1..] == mid + [onType];
      JoinAppend(mid, onType, '-');
      assert Join(parts, '-') == name + ['-'] + Join(mid + [onType], '-');
    }
    assert forall k :: 0 <= k < |parts| ==> '-' !in parts[k] by {
      forall k | 0 <= k < |parts| ensures '-' !in parts[k] {
        if 0 < k < |parts| - 1 { assert parts[k] == mid[k - 1]; }
      }
    }
    SplitJoin(parts, '-');
  }

  // ---------------------------------------------------------------- file names

  /**
   * `path.extname` of a plain file name: from the last '.' on, unless that
   * '.' is the first character (a hidden file has no extension).
   */
  function Extname(file: string): string {
    var parts := Split(file, '.');
    if |parts| < 2 || Join(parts[..|parts| - 1], '.') == "" then "" else "." + Last(parts)
  }

  /** `path.basename(file, path.extname(file))`: the name without its extension. */
  function Stem(file: string): string {
    var parts := Split(file, '.');
    if |parts| < 2 || Join(parts[..|parts| - 1], '.') == "" then file else Join(parts[..|parts| - 1], '.')
  }

  /** A file name is its stem followed by its extension. */
  lemma StemThenExtension(file: string)
    ensures file == Stem(file) + Extname(file)
  {
    var parts := Split(file, '.');
    JoinSplit(file, '.');
    if |parts| >= 2 {
      var init, last := parts[..|parts| - 1], parts[|parts| - 1];
      assert init + [last] == parts;
      JoinAppend(init, last, '.');
      assert file == Join(init, '.') + ("." + last);
    }
  }

  /** A non-empty stem and a suffix without '.' split back apart. */
  lemma ExtensionOf(stem: string, e: string)
    requires stem != "" && '.' !in e
    ensures Extname(stem + "." + e) == "." + e && Stem(stem + "." + e) == stem
  {
    LastPieceAfterSep(stem, e, '.');
    var parts := Split(stem + "." + e, '.');
    assert parts[..|parts| - 1] == Split(stem, '.');
    JoinSplit(stem, '.');
  }

  /** `isImageFile`: the lower-cased extension is one of the five image extensions. */
  predicate IsImageFile(file: string) {
    Lower(Extname(file)) in IMAGE_EXTENSIONS
  }

  /** For a name with a stem, only the extension decides, in any letter case. */
  lemma ImageFileByExtension(stem: string, e: string)
    requires stem != "" && '.' !in e
    ensures IsImageFile(stem + "." + e) <==> Lower("." + e) in IMAGE_EXTENSIONS
  {
    ExtensionOf(stem, e);
  }

  predicate IsHexDigit(c: char) {
    '0' <= c <= '9' || 'A' <= c <= 'F' || 'a' <= c <= 'f'
  }

  /** `/^#([0-9A-Fa-f]{6}|[0-9A-Fa-f]{3})$/`. */
  predicate HexColor(c: string) {
    (|c| == 4 || |c| == 7) && c[0] == '#' && forall k :: 1 <= k < |c| ==> IsHexDigit(c[k])
  }

  /** `#RGB` becomes `#RRGGBB` in upper case; any other colour is kept as written. */
  function NormalizeColor(c: string): (r: string)
    ensures |c| != 4 ==> r == c
  {
    if |c| == 4 then Upper(['#', c[1], c[1], c[2], c[2], c[3], c[3]]) else c
  }

  function InvalidFileName(file: string): string {
    "Invalid image file name format: " + file + ". Expected: name-color.png"
  }

  function InvalidColor(color: string, file: string): string {
    "Invalid hex color format: \"" + color + "\" in file \"" + file + "\". Expected format: #RRGGBB or #RGB (e.g., #FF0000 or #F00)"
  }

  /**
   * `parseImageFileName`: the stem's pieces around '-' give the set name
   * (first) and the colour (the rest joined back), which must be a hex colour.
   */
  function ParseImageFileName(file: string): (r: Result<FileInfo>)
  {
    var parts := Split(Stem(file), '-');
    if |parts| < 2 then Err(InvalidFileName(file))
    else
      var color := Join(parts[1..], '-');
      if !HexColor(color) then Err(InvalidColor(color, file))
      else Ok(FileInfo(parts[0], NormalizeColor(color)))
  }

  /** A parsed file name has a set name without '-' and a six-digit hex colour. */
  lemma FileNameFacts(file: string)
    ensures var r := ParseImageFileName(file);
      r.Ok? ==> HexColor(r.value.color) && |r.value.color| == 7 && '-' !in r.value.name
  {
    var parts := Split(Stem(file), '-');
    if |parts| >= 2 && HexColor(Join(parts[1..], '-')) {
      ShortHexExpands(Join(parts[1..], '-'));
    }
  }

  /** The value of one hexadecimal digit. */
  function HexValue(c: char): nat
    requires IsHexDigit(c)
  {
    if '0' <= c <= '9' then c as nat - '0' as nat
    else if 'A' <= c <= 'F' then c as nat - 'A' as nat + 10
    else c as nat - 'a' as nat + 10
  }

  /** Channel `k` (0 red, 1 green, 2 blue) of a six-digit colour. */
  function Channel(c: string, k: nat): nat
    requires HexColor(c) && |c| == 7 && k < 3
  {
    16 * HexValue(c[1 + 2 * k]) + HexValue(c[2 + 2 * k])
  }

  /** Channel `k` of a three-digit colour: its digit repeated, that is, seventeen times its value. */
  function ShortChannel(c: string, k: nat): nat
    requires HexColor(c) && |c| == 4 && k < 3
  {
    17 * HexValue(c[1 + k])
  }

  /** Upper-casing a hexadecimal digit keeps it one, with the same value. */
  lemma UpperHexDigit(c: char)
    requires IsHexDigit(c)
    ensures IsHexDigit(UpperChar(c)) && HexValue(UpperChar(c)) == HexValue(c)
  {
  }

  /** The expansion of a three-digit colour is a six-digit colour, its digits in pairs, upper-cased. */
  lemma ShortHexPairs(c: string)
    requires HexColor(c) && |c| == 4
    ensures var r := NormalizeColor(c);
      && |r| == 7 && r[0] == '#'
      && r[1] == r[2] == UpperChar(c[1]) && r[3] == r[4] == UpperChar(c[2]) && r[5] == r[6] == UpperChar(c[3])
  {
  }

  /**
   * The expansion of a three-digit colour is a six-digit colour in upper case
   * naming the same colour: every channel keeps its value (the short hex
   * notation of section 5.2 of CSS Color Module Level 4).
   */
  lemma ShortHexExpands(c: string)
    requires HexColor(c)
    ensures HexColor(NormalizeColor(c)) && |NormalizeColor(c)| == 7
    ensures |c| == 4 ==> forall k :: 0 <= k < 3 ==> Channel(NormalizeColor(c), k) == ShortChannel(c, k)
    ensures |c| == 4 ==> forall k :: 1 <= k < 7 ==> !('a' <= NormalizeColor(c)[k] <= 'f')
  {
    if |c| == 4 {
      var r := NormalizeColor(c);
      ShortHexPairs(c);
      UpperHexDigit(c[1]);
      UpperHexDigit(c[2]);
      UpperHexDigit(c[3]);
      forall k | 1 <= k < 7 ensures IsHexDigit(r[k]) && !('a' <= r[k] <= 'f') {
        assert r[k] == UpperChar(c[(k + 1) / 2]);
      }
      forall k | 0 <= k < 3 ensures Channel(r, k) == ShortChannel(c, k) {
        assert r[1 + 2 * k] == r[2 + 2 * k] == UpperChar(c[1 + k]);
      }
    }
  }

  /** Normalising twice changes nothing more. */
  lemma NormalizeIdempotent(c: string)
    requires HexColor(c)
    ensures NormalizeColor(NormalizeColor(c)) == NormalizeColor(c)
  {
    ShortHexExpands(c);
  }

  /**
   * Round trip: a set name without '-' and a hex colour, with any extension,
   * are read back, the colour normalised.
   */
  lemma FileNameRoundTrip(name: string, color: string, e: string)
    requires '-' !in name && HexColor(color) && '.' !in e
    ensures ParseImageFileName(name + "-" + color + "." + e) == Ok(FileInfo(name, NormalizeColor(color)))
  {
    var stem := name + "-" + color;
    assert name + "-" + color + "." + e == stem + "." + e;
    ExtensionOf(stem, e);
    assert '-' !in color by {
      forall k | 0 <= k < |color| ensures color[k] != '-' {
        if k > 0 { assert IsHexDigit(color[k]); }
      }
    }
    var parts := [name, color];
    assert Join(parts, '-') == stem by { assert parts[1..] == [color]; }
    SplitJoin(parts, '-');
    assert parts[1..] == [color];
  }

  // ---------------------------------------------------------------- folders

  /** A check of one image file name, `parseImageFileName` in the script. */
  type FileParser = string -> Result<FileInfo>

  /** The storage upload: path and local file in, public location out. */
  type Uploader = (string, string) -> Result<string>

  /** `files.filter(isImageFile)`, in order. */
  function ImageFiles(files: seq<string>): (r: seq<string>)
  {
    if files == [] then []
    else (if IsImageFile(files[0]) then [files[0]] else []) + ImageFiles(files[1..])
  }

  /** The filter keeps exactly the image files. */
  lemma {:induction false} ImageFilesKeep(files: seq<string>, f: string)
    ensures f in ImageFiles(files) <==> f in files && IsImageFile(f)
  {
    if files != [] {
      ImageFilesKeep(files[1..], f);
      assert files == [files[0]] + files[1..];
    }
  }

  /** The first file, from `k` on, whose name does not parse, with its message. */
  function FirstBadFile(parse: FileParser, files: seq<string>, k: nat): (r: Option<(string, string)>)
    requires k <= |files|
    decreases |files| - k
  {
    if k == |files| then None
    else match parse(files[k])
      case Err(e) => Some((files[k], e))
      case Ok(_) => FirstBadFile(parse, files, k + 1)
  }

  /** No bad file is found exactly when every file from `k` on parses; a bad file found is one that does not. */
  lemma {:induction false} FirstBadFileIff(parse: FileParser, files: seq<string>, k: nat)
    requires k <= |files|
    decreases |files| - k
    ensures var r := FirstBadFile(parse, files, k);
      && (r.None? <==> forall j :: k <= j < |files| ==> parse(files[j]).Ok?)
      && (r.Some? ==> r.value.0 in files[k..] && parse(r.value.0) == Err(r.value.1))
  {
    if k < |files| && parse(files[k]).Ok? {
      FirstBadFileIff(parse, files, k + 1);
      assert files[k..] == [files[k]] + files[k + 1..];
    }
  }

  /** `validateFolder`, for a folder-name parser and a file-name parser. */
  function CheckFolder(parseName: string -> Result<FolderInfo>, parse: FileParser, folder: Folder): (r: Result<Validated>)
  {
    match parseName(folder.name)
    case Err(e) => Err(e)
    case Ok(info) =>
      var images := ImageFiles(folder.files);
      if images == [] then
        Err("No image files found in folder \"" + folder.name + "\". At least one image file is required.")
      else match FirstBadFile(parse, images, 0)
        case Some((file, e)) => Err("Invalid image file name in folder \"" + folder.name + "\": " + file + ". " + e)
        case None => Ok(Validated(folder.name, info, images))
  }

  /**
   * A folder passes exactly when its name parses and it holds at least one
   * image file, all of whose names parse; it then keeps exactly those files.
   */
  lemma {:induction false} CheckFolderIff(parseName: string -> Result<FolderInfo>, parse: FileParser, folder: Folder)
    ensures var r := CheckFolder(parseName, parse, folder); var images := ImageFiles(folder.files);
      && (r.Ok? <==> parseName(folder.name).Ok? && images != [] && forall f :: f in images ==> parse(f).Ok?)
      && (r.Ok? ==> r.value.info == parseName(folder.name).value
                    && (forall f :: f in r.value.imageFiles <==> f in folder.files && IsImageFile(f)))
  {
    var images := ImageFiles(folder.files);
    FirstBadFileIff(parse, images, 0);
    forall f ensures f in images <==> f in folder.files && IsImageFile(f) {
      ImageFilesKeep(folder.files, f);
    }
    if FirstBadFile(parse, images, 0).None? {
      forall f | f in images ensures parse(f).Ok? {
        var j :| 0 <= j < |images| && images[j] == f;
      }
    } else {
      assert images[0..] == images;
    }
  }

  /** The check of the script: the folder-name parser for the placement kinds `onTypes`, the image file-name parser. */
  function Validator(onTypes: seq<string>): Folder -> Result<Validated> {
    f => CheckFolder(n => ParseFolderName(onTypes, n), ParseImageFileName, f)
  }

  /** Phase one: every folder validated in order; the first failure stops it with one summary message. */
  function ValidateAll(validate: Folder -> Result<Validated>, folders: seq<Folder>): (r: Result<seq<Validated>>)
  {
    if folders == [] then Ok([])
    else
      match ValidateAll(validate, folders[..|folders| - 1])
      case Err(e) => Err(e)
      case Ok(vs) =>
        match validate(folders[|folders| - 1])
        case Err(_) => Err(VALIDATION_FAILED)
        case Ok(v) => Ok(vs + [v])
  }

  /**
   * Phase one passes exactly when every folder is valid, and then keeps
   * each folder's validation in folder order; when it fails it always
   * reports the same summary.
   */
  lemma {:induction false} ValidateAllIff(validate: Folder -> Result<Validated>, folders: seq<Folder>)
    ensures var r := ValidateAll(validate, folders);
      && (r.Ok? <==> forall k :: 0 <= k < |folders| ==> validate(folders[k]).Ok?)
      && (r.Ok? ==> |r.value| == |folders| && forall k :: 0 <= k < |folders| ==> r.value[k] == validate(folders[k]).value)
      && (r.Err? ==> r.error == VALIDATION_FAILED)
  {
    if folders != [] {
      var init := folders[..|folders| - 1];
      ValidateAllIff(validate, init);
      forall k | 0 <= k < |init| ensures init[k] == folders[k] { }
    }
  }

  /** Phase one keeps one validation per folder. */
  lemma {:induction false} ValidateAllLength(validate: Folder -> Result<Validated>, folders: seq<Folder>)
    ensures ValidateAll(validate, folders).Ok? ==> |ValidateAll(validate, folders).value| == |folders|
  {
    if folders != [] {
      ValidateAllLength(validate, folders[..|folders| - 1]);
    }
  }

  // ---------------------------------------------------------------- creation

  /** The upload path of image `index` of a folder: `presets/<prefix>-<index><ext>`. */
  function UploadPath(prefix: string, index: nat, file: string): string {
    "presets/" + prefix + "-" + NatToString(index) + Extname(file)
  }

  /**
   * The image sets of a folder from image `k` on: each file's name and
   * colour, with the location its upload returns. The first failing parse
   * or upload fails the whole folder.
   */
  function BuildSets(parse: FileParser, upload: Uploader, prefix: string, files: seq<string>, k: nat): (r: Result<seq<ImageSet>>)
    requires k <= |files|
    decreases |files| - k
  {
    if k == |files| then Ok([])
    else match parse(files[k])
      case Err(e) => Err(e)
      case Ok(info) =>
        match upload(UploadPath(prefix, k, files[k]), files[k])
        case Err(e) => Err(e)
        case Ok(url) =>
          match BuildSets(parse, upload, prefix, files, k + 1)
          case Err(e) => Err(e)
          case Ok(rest) => Ok([ImageSet(info.name, info.color, url)] + rest)
  }

  /** The set a file contributes: its parsed name and colour, and the location of its upload. */
  function SetOf(parse: FileParser, upload: Uploader, prefix: string, files: seq<string>, j: nat): (r: Option<ImageSet>)
    requires j < |files|
  {
    match parse(files[j])
    case Err(_) => None
    case Ok(info) =>
      match upload(UploadPath(prefix, j, files[j]), files[j])
      case Err(_) => None
      case Ok(url) => Some(ImageSet(info.name, info.color, url))
  }

  /** A successful build has one set per file, in file order, each the file's own. */
  lemma {:induction false} BuildSetsPerFile(parse: FileParser, upload: Uploader, prefix: string, files: seq<string>, k: nat)
    requires k <= |files| && BuildSets(parse, upload, prefix, files, k).Ok?
    decreases |files| - k
    ensures var sets := BuildSets(parse, upload, prefix, files, k).value;
      && |sets| == |files| - k
      && forall j :: k <= j < |files| ==> SetOf(parse, upload, prefix, files, j) == Some(sets[j - k])
  {
    if k < |files| {
      BuildSetsPerFile(parse, upload, prefix, files, k + 1);
      var sets := BuildSets(parse, upload, prefix, files, k).value;
      var rest := BuildSets(parse, upload, prefix, files, k + 1).value;
      assert sets == [SetOf(parse, upload, prefix, files, k).value] + rest;
      forall j | k < j < |files| ensures SetOf(parse, upload, prefix, files, j) == Some(sets[j - k]) {
        assert sets[j - k] == rest[j - (k + 1)];
      }
    }
  }

  /** The document `createObjectFromFolder` builds, the first set being the current one. */
  function FolderObject(v: Validated, sets: seq<ImageSet>, now: nat): ImageObject
    requires sets != []
  {
    ImageObject(Trim(v.info.name),
                if v.info.description.Some? then Some(Trim(v.info.description.value)) else None,
                sets[0], sets, false, v.info.onType, now)
  }

  /** The save of a built object: a schema failure stores nothing, a success stores it under a fresh key. */
  function StoreObject(s: State, o: ImageObject): (out: Outcome<Id>)
    ensures out.result.Err? ==> out.state == s
    ensures out.result.Ok? ==> (SaveImageObject(o).Ok? && out.result.value == s.nextId
      && out.state == Tick(s).(objects := s.objects[s.nextId := SaveImageObject(o).value]))
  {
    match SaveImageObject(o)
    case Err(e) => Outcome(Err(e), s)
    case Ok(saved) => Outcome(Ok(s.nextId), Tick(s).(objects := s.objects[s.nextId := saved]))
  }

  /** `createObjectFromFolder`: the uploads, then one saved catalog object. */
  function CreateFromFolder(parse: FileParser, upload: Uploader, prefix: string, s: State, v: Validated): (o: Outcome<Id>)
  {
    match BuildSets(parse, upload, prefix, v.imageFiles, 0)
    case Err(e) => Outcome(Err(e), s)
    case Ok(sets) =>
      if sets == [] then Outcome(Err(OBJECT_VALIDATION_FAILED), s)
      else StoreObject(s, FolderObject(v, sets, s.clock))
  }

  /** An outcome that changed nothing, or that added one catalog object under the next key and nothing else. */
  predicate AddsOne(s: State, o: Outcome<Id>) {
    && (o.result.Err? ==> o.state == s)
    && (o.result.Ok? ==> (o.result.value == s.nextId && s.nextId in o.state.objects
          && o.state == Tick(s).(objects := s.objects[s.nextId := o.state.objects[s.nextId]])))
  }

  /** A folder either changes nothing or adds one catalog object under the next key. */
  lemma CreateFromFolderAdds(parse: FileParser, upload: Uploader, prefix: string, s: State, v: Validated)
    ensures AddsOne(s, CreateFromFolder(parse, upload, prefix, s, v))
  {
  }

  /**
   * A created object is not made by a user, has the folder's trimmed name
   * and placement kind, one image set per image file with the first one
   * current, the current time, and is valid for the schema.
   */
  lemma {:induction false} CreatedObjectFacts(parse: FileParser, upload: Uploader, prefix: string, s: State, v: Validated)
    requires CreateFromFolder(parse, upload, prefix, s, v).result.Ok?
    ensures var out := CreateFromFolder(parse, upload, prefix, s, v);
      && s.nextId in out.state.objects
      && var o := out.state.objects[s.nextId];
      && !o.isUserMade && o.onType == v.info.onType && ValidImageObject(o)
      && o.name == Trim(v.info.name) && |o.imageSets| == |v.imageFiles| && o.createdAt == s.clock
      && o.imageSets != [] && o.currentImageSet == o.imageSets[0]
  {
    var sets := BuildSets(parse, upload, prefix, v.imageFiles, 0).value;
    BuildSetsPerFile(parse, upload, prefix, v.imageFiles, 0);
    var built := FolderObject(v, sets, s.clock);
    SaveKeepsTrimmed(built);
    TrimIdempotent(v.info.name);
    assert CreateFromFolder(parse, upload, prefix, s, v).state.objects[s.nextId] == TrimmedObject(built);
  }

  /** The creation of the script: `createObjectFromFolder` for folder number `j`, with that folder's upload prefix. */
  function Creator(upload: Uploader, prefixOf: nat -> string): (State, nat, Validated) -> Outcome<Id> {
    (t: State, j: nat, v: Validated) => CreateFromFolder(ParseImageFileName, upload, prefixOf(j), t, v)
  }

  /** Every folder the script creates changes nothing or adds one catalog object. */
  lemma CreatorAddsOne(upload: Uploader, prefixOf: nat -> string)
    ensures forall t, j, v :: AddsOne(t, Creator(upload, prefixOf)(t, j, v))
  {
    forall t, j, v ensures AddsOne(t, Creator(upload, prefixOf)(t, j, v)) {
      CreateFromFolderAdds(ParseImageFileName, upload, prefixOf(j), t, v);
    }
  }

  /** Phase two from folder `i` on, the keys created so far in `created`; a failure keeps what was created before it. */
  function CreateFrom(create: (State, nat, Validated) -> Outcome<Id>, s: State, vs: seq<Validated>, i: nat, created: seq<Id>): (o: Outcome<seq<Id>>)
    requires i <= |vs|
    decreases |vs| - i
  {
    if i == |vs| then Outcome(Ok(created), s)
    else
      var step := create(s, i, vs[i]);
      match step.result
      case Err(e) => Outcome(Err(e), step.state)
      case Ok(id) => CreateFrom(create, step.state, vs, i + 1, created + [id])
  }

  /** Every stored catalog object has a key handed out before `nextId`. */
  predicate ObjectKeysBelow(s: State) {
    forall k :: k in s.objects ==> k < s.nextId
  }

  /** One step that adds an object keeps every stored object and the key bound, and touches nothing else. */
  lemma {:induction false} AddsOneStep(s: State, o: Outcome<Id>)
    requires ObjectKeysBelow(s) && AddsOne(s, o)
    ensures ObjectKeysBelow(o.state) && s.nextId <= o.state.nextId
    ensures forall k :: k in s.objects ==> k in o.state.objects && o.state.objects[k] == s.objects[k]
    ensures forall k :: k in o.state.objects && k !in s.objects ==> k == s.nextId
    ensures o.state.users == s.users && o.state.modified == s.modified
    ensures o.result.Ok? ==> o.state.nextId == s.nextId + 1
  {
    if o.result.Ok? {
      assert s.nextId !in s.objects;
    }
  }

  /**
   * Phase two only adds catalog objects under fresh keys: what was stored
   * stays, users and placed objects are untouched, also when a later folder
   * fails.
   */
  lemma {:induction false} CreateFromKeeps(create: (State, nat, Validated) -> Outcome<Id>, s: State, vs: seq<Validated>, i: nat, created: seq<Id>)
    requires i <= |vs| && ObjectKeysBelow(s)
    requires forall t, j, v :: AddsOne(t, create(t, j, v))
    decreases |vs| - i
    ensures var o := CreateFrom(create, s, vs, i, created);
      && s.nextId <= o.state.nextId && ObjectKeysBelow(o.state)
      && (forall k :: k in s.objects ==> k in o.state.objects && o.state.objects[k] == s.objects[k])
      && (forall k :: k in o.state.objects && k !in s.objects ==> s.nextId <= k)
      && o.state.users == s.users && o.state.modified == s.modified
  {
    if i < |vs| {
      var step := create(s, i, vs[i]);
      AddsOneStep(s, step);
      if step.result.Ok? {
        CreateFromKeeps(create, step.state, vs, i + 1, created + [step.result.value]);
      }
    }
  }

  /** When phase two succeeds it has created one object per folder, under consecutive keys from `nextId` on. */
  lemma {:induction false} CreateFromKeys(create: (State, nat, Validated) -> Outcome<Id>, s: State, vs: seq<Validated>, i: nat, created: seq<Id>)
    requires i <= |vs|
    requires forall t, j, v :: AddsOne(t, create(t, j, v))
    decreases |vs| - i
    ensures var o := CreateFrom(create, s, vs, i, created);
      o.result.Ok? ==> o.result.value == created + ThemeDefaultObjects.KeysFrom(s.nextId, o.state.nextId)
                       && o.state.nextId - s.nextId == |vs| - i
  {
    if i < |vs| {
      var step := create(s, i, vs[i]);
      assert AddsOne(s, step);
      if step.result.Ok? {
        var id := step.result.value;
        var t := step.state;
        CreateFromKeys(create, t, vs, i + 1, created + [id]);
        var o := CreateFrom(create, t, vs, i + 1, created + [id]);
        if o.result.Ok? {
          var ks := ThemeDefaultObjects.KeysFrom(t.nextId, o.state.nextId);
          ThemeDefaultObjects.KeysFromFront(s.nextId, o.state.nextId);
          ThemeDefaultObjects.AppendAssoc(created, [id], ks);
        }
      }
    }
  }

  /** `main` after the directory checks, for a folder check and an object creation: validate every folder, then create one by one. */
  function Import(validate: Folder -> Result<Validated>, create: (State, nat, Validated) -> Outcome<Id>, s: State, folders: seq<Folder>): (o: Outcome<seq<Id>>)
  {
    match ValidateAll(validate, folders)
    case Err(e) => Outcome(Err(e), s)
    case Ok(vs) => CreateFrom(create, s, vs, 0, [])
  }

  /** One invalid folder means no object at all is created, whichever folder it is. */
  lemma {:induction false} OneInvalidNoneCreated(validate: Folder -> Result<Validated>, create: (State, nat, Validated) -> Outcome<Id>, s: State, folders: seq<Folder>, k: nat)
    requires k < |folders| && validate(folders[k]).Err?
    ensures Import(validate, create, s, folders) == Outcome(Err(VALIDATION_FAILED), s)
  {
    ValidateAllIff(validate, folders);
  }

  /**
   * Everything the import does is to add catalog objects under fresh keys,
   * also when it fails part way.
   */
  lemma {:induction false} ImportOnlyAdds(validate: Folder -> Result<Validated>, create: (State, nat, Validated) -> Outcome<Id>, s: State, folders: seq<Folder>)
    requires ObjectKeysBelow(s)
    requires forall t, j, v :: AddsOne(t, create(t, j, v))
    ensures var o := Import(validate, create, s, folders);
      && (forall k :: k in s.objects ==> k in o.state.objects && o.state.objects[k] == s.objects[k])
      && (forall k :: k in o.state.objects && k !in s.objects ==> s.nextId <= k < o.state.nextId)
      && o.state.users == s.users && o.state.modified == s.modified
  {
    var checked := ValidateAll(validate, folders);
    if checked.Ok? {
      CreateFromKeeps(create, s, checked.value, 0, []);
    }
  }

  /** A successful import has added one object per folder, in folder order, under consecutive keys. */
  lemma {:induction false} ImportKeys(validate: Folder -> Result<Validated>, create: (State, nat, Validated) -> Outcome<Id>, s: State, folders: seq<Folder>)
    requires forall t, j, v :: AddsOne(t, create(t, j, v))
    ensures var o := Import(validate, create, s, folders);
      o.result.Ok? ==> o.result.value == ThemeDefaultObjects.KeysFrom(s.nextId, s.nextId + |folders|)
  {
    var checked := ValidateAll(validate, folders);
    if checked.Ok? {
      var vs := checked.value;
      ValidateAllLength(validate, folders);
      var o := CreateFrom(create, s, vs, 0, []);
      assert Import(validate, create, s, folders) == o;
      CreateFromKeys(create, s, vs, 0, []);
      if o.result.Ok? {
        assert o.state.nextId == s.nextId + |folders|;
        assert [] + ThemeDefaultObjects.KeysFrom(s.nextId, o.state.nextId) == ThemeDefaultObjects.KeysFrom(s.nextId, o.state.nextId);
      }
    }
  }

  /** The script's own import, on a database whose keys lie below the counter, only adds objects. */
  lemma {:induction false} ScriptOnlyAdds(upload: Uploader, prefixOf: nat -> string, onTypes: seq<string>, s: State, folders: seq<Folder>)
    requires ObjectKeysBelow(s)
    ensures var o := Import(Validator(onTypes), Creator(upload, prefixOf), s, folders);
      && (forall k :: k in s.objects ==> k in o.state.objects && o.state.objects[k] == s.objects[k])
      && o.state.users == s.users && o.state.modified == s.modified
  {
    CreatorAddsOne(upload, prefixOf);
    ImportOnlyAdds(Validator(onTypes), Creator(upload, prefixOf), s, folders);
  }

  // ---------------------------------------------------------------- the script on the database

  /** `createObjectFromFolder` on the database. */
  method CreateFromFolderIn(db: Db, upload: Uploader, prefix: string, v: Validated) returns (r: Result<Id>)
    modifies db
    ensures CreateFromFolder(ParseImageFileName, upload, prefix, old(db.Snapshot()), v) == Outcome(r, db.Snapshot())
  {
    var o := CreateFromFolder(ParseImageFileName, upload, prefix, db.Snapshot(), v);
    CreateFromFolderAdds(ParseImageFileName, upload, prefix, db.Snapshot(), v);
    if o.result.Err? {
      return Err(o.result.error);
    }
    var saved := o.state.objects[db.nextId];
    var id, now := db.Fresh();
    db.objects := db.objects[id := saved];
    r := Ok(id);
  }

  /** The validation loop of `main`: every folder is checked before anything is created. */
  method ValidateAllIn(check: Folder -> Result<Validated>, folders: seq<Folder>) returns (r: Result<seq<Validated>>)
    ensures r == ValidateAll(check, folders)
  {
    var validated: seq<Validated> := [];
    for k := 0 to |folders|
      invariant ValidateAll(check, folders[..k]) == Ok(validated)
    {
      assert folders[..k + 1][..k] == folders[..k];
      var v := check(folders[k]);
      if v.Err? {
        ValidateAllIff(check, folders);
        return Err(VALIDATION_FAILED);
      }
      validated := validated + [v.value];
    }
    assert folders[..|folders|] == folders;
    r := Ok(validated);
  }

  /** The creation loop of `main`: one object per validated folder, stopping at the first failure. */
  method CreateAllIn(db: Db, upload: Uploader, prefixOf: nat -> string, validated: seq<Validated>)
    returns (r: Result<seq<Id>>)
    modifies db
    ensures CreateFrom(Creator(upload, prefixOf), old(db.Snapshot()), validated, 0, []) == Outcome(r, db.Snapshot())
  {
    ghost var start := db.Snapshot();
    ghost var create := Creator(upload, prefixOf);
    var created: seq<Id> := [];
    for i := 0 to |validated|
      invariant CreateFrom(create, start, validated, 0, []) == CreateFrom(create, db.Snapshot(), validated, i, created)
    {
      ghost var before := db.Snapshot();
      var id := CreateFromFolderIn(db, upload, prefixOf(i), validated[i]);
      assert create(before, i, validated[i]) == Outcome(id, db.Snapshot());
      if id.Err? {
        return Err(id.error);
      }
      created := created + [id.value];
    }
    r := Ok(created);
  }

  /** `main` as the script runs it: the validation loop collects every folder before the creation loop starts. */
  method ImportIn(db: Db, upload: Uploader, prefixOf: nat -> string, onTypes: seq<string>, folders: seq<Folder>)
    returns (r: Result<seq<Id>>)
    modifies db
    ensures Import(Validator(onTypes), Creator(upload, prefixOf), old(db.Snapshot()), folders) == Outcome(r, db.Snapshot())
  {
    var checked := ValidateAllIn(Validator(onTypes), folders);
    if checked.Err? {
      return Err(checked.error);
    }
    r := CreateAllIn(db, upload, prefixOf, checked.value);
  }
}
