/**
 * The Gemini image generator: it resolves the model, the image count, the
 * aspect ratio and the image size from the options, then calls the model
 * once per requested image and keeps every inline image part of every
 * answer. The SDK call is the parameter `generate`, which also receives the
 * number of the call, since two calls with the same arguments may answer
 * differently. `Number` is the parameter `num` (`None` for NaN), and the
 * floating-point ratio matching of `parseSizeToAspectRatio` is the
 * parameter `ratio`.
 */
module GeminiImage {
  import opened Wrappers
  import opened Json
  import opened Text

  const DEFAULT_MODEL := "gemini-3-pro-image-preview"
  const DEFAULT_ASPECT_RATIO := "16:9"
  const DEFAULT_IMAGE_SIZE := "4K"
  const HD := "HD"
  const NO_IMAGE_DATA := "No image data from Gemini"

  /** The options `generateImage` reads. */
  datatype Options = Options(
    size: Option<string>,
    n: Option<int>,
    model: Option<string>,
    aspectRatio: Option<string>,
    imageSize: Option<string>,
    tools: Option<seq<Json>>)

  /** The `config` sent with every call. */
  datatype Config = Config(aspectRatio: string, imageSize: string, tools: Option<seq<Json>>)

  /** One part of a candidate's content: text, or inline data whose `data` may be missing. */
  datatype Part = TextPart | InlinePart(data: Option<string>)

  /** A candidate and its `content?.parts`. */
  datatype Candidate = Candidate(parts: Option<seq<Part>>)

  /** What the generator answers: the `b64_json` of each image and the creation time in seconds. */
  datatype Images = Images(data: seq<Option<string>>, created: int)

  // ---------------------------------------------------------------- size parsing

  /**
   * The width and height a size string such as "1792x1024" gives: the first
   * two pieces around 'x', both numbers other than 0 (`!width || !height`
   * refuses NaN and 0, and a size without an 'x' has no height).
   */
  function Dimensions(num: string -> Option<real>, size: Option<string>): (d: Option<(real, real)>)
    ensures d.Some? ==> d.value.0 != 0.0 && d.value.1 != 0.0
  {
    if size.None? || size.value == "" then None
    else
      var parts := Split(size.value, 'x');
      if |parts| < 2 then None
      else
        var w, h := num(parts[0]), num(parts[1]);
        if w.None? || w.value == 0.0 || h.None? || h.value == 0.0 then None
        else Some((w.value, h.value))
  }

  /** `parseSizeToImageSize`: "4K" from 3840 wide or 2160 high on, "HD" below. */
  function ParseSizeToImageSize(num: string -> Option<real>, size: Option<string>): (r: Option<string>)
  {
    match Dimensions(num, size)
    case None => None
    case Some((w, h)) => if w >= 3840.0 || h >= 2160.0 then Some(DEFAULT_IMAGE_SIZE) else Some(HD)
  }

  /** `parseSizeToAspectRatio`: the ratio class of the dimensions, when there are any. */
  function ParseSizeToAspectRatio(num: string -> Option<real>, ratio: (real, real) -> string, size: Option<string>): (r: Option<string>)
    ensures r.Some? <==> Dimensions(num, size).Some?
  {
    match Dimensions(num, size)
    case None => None
    case Some((w, h)) => Some(ratio(w, h))
  }

  /**
   * A size written `<width>x<height>` whose pieces read as non-zero numbers
   * is classified by those numbers: "4K" exactly when the width reaches 3840
   * or the height 2160, "HD" otherwise.
   */
  lemma SizeClassified(num: string -> Option<real>, ws: string, hs: string)
    requires 'x' !in ws && 'x' !in hs
    requires num(ws).Some? && num(ws).value != 0.0 && num(hs).Some? && num(hs).value != 0.0
    ensures var w, h := num(ws).value, num(hs).value;
      && ParseSizeToImageSize(num, Some(ws + "x" + hs)) == Some(if w >= 3840.0 || h >= 2160.0 then "4K" else "HD")
  {
    var parts := [ws, hs];
    assert Join(parts, 'x') == ws + "x" + hs by {
      assert parts[1..] == [hs];
    }
    SplitJoin(parts, 'x');
  }

  /** Without a size, or with one that has no 'x', there is nothing to classify. */
  lemma NoSizeNoClass(num: string -> Option<real>, ratio: (real, real) -> string, size: Option<string>)
    requires size.None? || 'x' !in size.value
    ensures ParseSizeToImageSize(num, size).None? && ParseSizeToAspectRatio(num, ratio, size).None?
  {
    if size.Some? && size.value != "" {
      SplitNoSep(size.value, 'x');
    }
  }

  /** A zero or unreadable dimension leaves the size unclassified, whatever the other one is. */
  lemma ZeroDimensionNoClass(num: string -> Option<real>, ws: string, hs: string)
    requires 'x' !in ws && 'x' !in hs
    requires num(ws).None? || num(ws) == Some(0.0) || num(hs).None? || num(hs) == Some(0.0)
    ensures ParseSizeToImageSize(num, Some(ws + "x" + hs)).None?
  {
    var parts := [ws, hs];
    assert Join(parts, 'x') == ws + "x" + hs by {
      assert parts[1..] == [hs];
    }
    SplitJoin(parts, 'x');
  }

  // ---------------------------------------------------------------- option defaults

  /** `options?.x || fallback` for text. */
  function OrElse(o: Option<string>, fallback: string): string {
    if o.Some? && o.value != "" then o.value else fallback
  }

  /** The configuration of every call: the explicit option first, then the parsed size, then the default. */
  function ResolveConfig(num: string -> Option<real>, ratio: (real, real) -> string, opts: Options): (c: Config)
  {
    var parsedRatio := ParseSizeToAspectRatio(num, ratio, opts.size);
    var parsedSize := ParseSizeToImageSize(num, opts.size);
    Config(
      OrElse(opts.aspectRatio, if parsedRatio.Some? then parsedRatio.value else DEFAULT_ASPECT_RATIO),
      OrElse(opts.imageSize, if parsedSize.Some? then parsedSize.value else DEFAULT_IMAGE_SIZE),
      opts.tools)
  }

  /**
   * The precedence of the configuration: a non-empty explicit option wins;
   * without one, a classifiable size decides; without that, "16:9" and "4K".
   * Tools are forwarded as given.
   */
  lemma ConfigPrecedence(num: string -> Option<real>, ratio: (real, real) -> string, opts: Options)
    ensures var c := ResolveConfig(num, ratio, opts); var d := Dimensions(num, opts.size);
      && (opts.aspectRatio.Some? && opts.aspectRatio.value != "" ==> c.aspectRatio == opts.aspectRatio.value)
      && (opts.imageSize.Some? && opts.imageSize.value != "" ==> c.imageSize == opts.imageSize.value)
      && ((opts.aspectRatio.None? || opts.aspectRatio.value == "") && d.Some? ==> c.aspectRatio == ratio(d.value.0, d.value.1))
      && ((opts.imageSize.None? || opts.imageSize.value == "") && d.Some? ==>
            c.imageSize == (if d.value.0 >= 3840.0 || d.value.1 >= 2160.0 then "4K" else "HD"))
      && ((opts.aspectRatio.None? || opts.aspectRatio.value == "") && d.None? ==> c.aspectRatio == "16:9")
      && ((opts.imageSize.None? || opts.imageSize.value == "") && d.None? ==> c.imageSize == "4K")
      && c.tools == opts.tools
  {
  }

  // ---------------------------------------------------------------- collecting images

  /** The `data` of every inline part, in order. */
  function PartImages(parts: seq<Part>): (r: seq<Option<string>>)
    ensures |r| <= |parts|
  {
    if parts == [] then []
    else
      var last := parts[|parts| - 1];
      PartImages(parts[..|parts| - 1]) + (if last.InlinePart? then [last.data] else [])
  }

  /** The images of every candidate with parts, in order. */
  function CandidateImages(candidates: seq<Candidate>): seq<Option<string>>
  {
    if candidates == [] then []
    else
      var last := candidates[|candidates| - 1];
      CandidateImages(candidates[..|candidates| - 1]) + (if last.parts.Some? then PartImages(last.parts.value) else [])
  }

  /** The images of one answer; `response.candidates || []`. */
  function ResponseImages(candidates: Option<seq<Candidate>>): seq<Option<string>> {
    if candidates.None? then [] else CandidateImages(candidates.value)
  }

  /** An entry is collected from a list of parts exactly when one of them is inline data carrying it. */
  lemma {:induction false} PartImagesKeep(parts: seq<Part>, x: Option<string>)
    ensures x in PartImages(parts) <==> InlinePart(x) in parts
  {
    if parts != [] {
      var init := parts[..|parts| - 1];
      PartImagesKeep(init, x);
      assert parts == init + [parts[|parts| - 1]];
    }
  }

  /** An entry is collected from the candidates exactly when the parts of one of them carry it inline. */
  lemma {:induction false} CandidateImagesKeep(candidates: seq<Candidate>, x: Option<string>)
    ensures x in CandidateImages(candidates) <==>
      exists c :: c in candidates && c.parts.Some? && InlinePart(x) in c.parts.value
  {
    if candidates != [] {
      var init := candidates[..|candidates| - 1];
      var last := candidates[|candidates| - 1];
      CandidateImagesKeep(init, x);
      assert candidates == init + [last];
      if last.parts.Some? {
        PartImagesKeep(last.parts.value, x);
      }
    }
  }

  /** The images of the first `calls` calls, or the error of the first call that throws. */
  function Collect(call: nat -> Result<Option<seq<Candidate>>>, calls: nat): (r: Result<seq<Option<string>>>)
  {
    if calls == 0 then Ok([])
    else
      match Collect(call, calls - 1)
      case Err(e) => Err(e)
      case Ok(images) =>
        match call(calls - 1)
        case Err(e) => Err(e)
        case Ok(candidates) => Ok(images + ResponseImages(candidates))
  }

  /** When every call answers, what is collected is exactly the images of the answers. */
  lemma {:induction false} CollectKeeps(call: nat -> Result<Option<seq<Candidate>>>, calls: nat, x: Option<string>)
    requires forall j :: 0 <= j < calls ==> call(j).Ok?
    ensures Collect(call, calls).Ok?
    ensures x in Collect(call, calls).value <==> exists j :: 0 <= j < calls && x in ResponseImages(call(j).value)
  {
    if calls > 0 {
      CollectKeeps(call, calls - 1, x);
      var before := Collect(call, calls - 1).value;
      var last := ResponseImages(call(calls - 1).value);
      assert Collect(call, calls).value == before + last;
      if x in before {
        var j :| 0 <= j < calls - 1 && x in ResponseImages(call(j).value);
        assert 0 <= j < calls;
      } else if x in last {
        assert 0 <= calls - 1 < calls;
      }
    }
  }

  /** The first call that throws decides the result, whatever the calls after it would do. */
  lemma {:induction false} FirstFailureWins(call: nat -> Result<Option<seq<Candidate>>>, calls: nat, k: nat)
    requires k < calls && call(k).Err?
    requires forall j :: 0 <= j < k ==> call(j).Ok?
    ensures Collect(call, calls) == Err(call(k).error)
  {
    if calls - 1 > k {
      FirstFailureWins(call, calls - 1, k);
    } else {
      CollectKeeps(call, k, None);
    }
  }

  /** `generateImage`: resolve the options, make the calls, and refuse an empty harvest. */
  function GenerateImage(generate: (string, Config, nat) -> Result<Option<seq<Candidate>>>,
                         num: string -> Option<real>, ratio: (real, real) -> string, opts: Options, nowMs: nat): (r: Result<Images>)
    ensures r.Ok? ==> r.value.data != []
  {
    var model := OrElse(opts.model, DEFAULT_MODEL);
    var n := if opts.n.Some? then opts.n.value else 1;
    var config := ResolveConfig(num, ratio, opts);
    var calls: nat := if n > 0 then n else 0;
    match Collect((i: nat) => generate(model, config, i), calls)
    case Err(e) => Err(e)
    case Ok(images) => if images == [] then Err(NO_IMAGE_DATA) else Ok(Images(images, nowMs / 1000))
  }

  /** A count of zero or less makes no call and always ends in the no-image error. */
  lemma NoCallsNoImages(generate: (string, Config, nat) -> Result<Option<seq<Candidate>>>,
                        num: string -> Option<real>, ratio: (real, real) -> string, opts: Options, nowMs: nat)
    requires opts.n.Some? && opts.n.value <= 0
    ensures GenerateImage(generate, num, ratio, opts, nowMs) == Err(NO_IMAGE_DATA)
  {
  }

  /** The images of one answer, by the two nested loops over candidates and parts. */
  method ResponseImagesIn(candidates: Option<seq<Candidate>>) returns (images: seq<Option<string>>)
    ensures images == ResponseImages(candidates)
  {
    images := [];
    var cs := if candidates.Some? then candidates.value else [];
    for i := 0 to |cs|
      invariant images == CandidateImages(cs[..i])
    {
      assert cs[..i + 1][..i] == cs[..i];
      if cs[i].parts.Some? {
        var parts := cs[i].parts.value;
        var before := images;
        for k := 0 to |parts|
          invariant images == before + PartImages(parts[..k])
        {
          assert parts[..k + 1][..k] == parts[..k];
          if parts[k].InlinePart? {
            images := images + [parts[k].data];
          }
        }
        assert parts[..|parts|] == parts;
      }
    }
    assert cs[..|cs|] == cs;
  }

  /** The loop of `generateImage`: one call per requested image, each answer's images appended. */
  method CollectIn(call: nat -> Result<Option<seq<Candidate>>>, calls: nat) returns (r: Result<seq<Option<string>>>)
    ensures r == Collect(call, calls)
  {
    var images: seq<Option<string>> := [];
    for i := 0 to calls
      invariant Collect(call, i) == Ok(images)
      invariant forall j :: 0 <= j < i ==> call(j).Ok?
    {
      var response := call(i);
      if response.Err? {
        FirstFailureWins(call, calls, i);
        return Err(response.error);
      }
      var found := ResponseImagesIn(response.value);
      images := images + found;
    }
    r := Ok(images);
  }

  /** `generateImage` as the source writes it. */
  method GenerateImageIn(generate: (string, Config, nat) -> Result<Option<seq<Candidate>>>,
                         num: string -> Option<real>, ratio: (real, real) -> string, opts: Options, nowMs: nat)
    returns (r: Result<Images>)
    ensures r == GenerateImage(generate, num, ratio, opts, nowMs)
  {
    var model := OrElse(opts.model, DEFAULT_MODEL);
    var n := if opts.n.Some? then opts.n.value else 1;
    var config := ResolveConfig(num, ratio, opts);
    var calls: nat := if n > 0 then n else 0;
    var collected := CollectIn((i: nat) => generate(model, config, i), calls);
    if collected.Err? {
      return Err(collected.error);
    }
    if collected.value == [] {
      return Err(NO_IMAGE_DATA);
    }
    r := Ok(Images(collected.value, nowMs / 1000));
  }
}
