/**
 * The user routes: the invitation text, the theme choice (which provisions the
 * theme's default placements and resets the user's placement list) and the
 * background music. Each handler is a function from the request and the
 * database state to the reply and the state after it.
 */
module UserController {
  import opened Wrappers
  import opened Json
  import opened Text
  import opened Models
  import opened Store
  import opened Http
  import ThemeConfig
  import ThemeDefaultObjects

  const USER_NOT_FOUND := "User not found"
  const INTERNAL_ERROR := "Internal server error"
  const INVITATION_UPDATED := "초대 문구가 성공적으로 업데이트되었습니다."
  const BAD_THEME_ID := "Invalid theme ID. Must be between 1 and 5."
  const THEME_NOT_FOUND := "Theme not found"
  const THEME_UPDATED := "Theme updated successfully."
  const THEME_ID_REQUIRED := "Theme ID is required"
  const BAD_MUSIC_THEME_ID := "Invalid theme ID. Must be a number between 1 and 5."
  const MUSIC_UPDATED := "User background music updated successfully"
  const MUSIC_FAILED := "Failed to update music."

  /** The `theme.*` paths the theme handler may write. */
  const THEME_PATHS: set<string> :=
    {"floorColor", "leftWallColor", "rightWallColor", "weather", "backgroundMusic.url", "backgroundMusic.name"}

  // ---------------------------------------------------------------- invitation

  /** The value `invitation` is set to: "" becomes null, other text is stored trimmed by the schema. */
  function StoredInvitation(inv: string): (v: Option<string>)
    ensures inv == "" <==> v.None?
    ensures v.Some? ==> v.value == Trim(inv) && Trim(v.value) == v.value
  {
    if inv == "" then None else Some(Trim(inv))
  }

  /** `user.invitation || null`: the stored text, or null when it is absent or empty. */
  function ReportedInvitation(stored: Option<string>): (j: Json)
    ensures j.JNull? <==> stored.None? || stored.value == ""
    ensures j.JStr? ==> stored == Some(j.s)
  {
    if stored.Some? && stored.value != "" then JStr(stored.value) else JNull
  }

  /** The invitation update; an undefined invitation leaves the field as it is. */
  function SetInvitation(inv: Option<string>): User -> User {
    (u: User) => if inv.Some? then u.(invitation := StoredInvitation(inv.value)) else u
  }

  /** `PATCH /users/invitation`. */
  function PatchInvitation(cast: string -> Option<Id>, s: State, userId: string, inv: Option<string>): (h: Handled)
    ensures h.reply.status == 500 <==> cast(userId).None?
    ensures h.reply.status == 404 <==> cast(userId).Some? && cast(userId).value !in s.users
    ensures h.reply.status != 200 ==> h.state == s
    ensures h.reply.status in {200, 404, 500}
  {
    match UpdateUser(cast, s, userId, SetInvitation(inv))
    case Err(_) => Handled(Message(500, INTERNAL_ERROR), s)
    case Ok(t) =>
      var k := cast(userId).value;
      if k !in s.users then Handled(Message(404, USER_NOT_FOUND), s)
      else Handled(Reply(200, JObj(map["message" := JStr(INVITATION_UPDATED),
                                      "invitation" := ReportedInvitation(t.users[k].invitation)])), t)
  }

  /**
   * A successful invitation update changes only the caller's invitation, and the
   * reply reports exactly what was stored (null for nothing or empty text).
   */
  lemma InvitationWritten(cast: string -> Option<Id>, s: State, userId: string, inv: Option<string>)
    requires PatchInvitation(cast, s, userId, inv).reply.status == 200
    ensures var h := PatchInvitation(cast, s, userId, inv); var k := cast(userId).value;
      k in s.users && h.state.users.Keys == s.users.Keys
      && h.state.objects == s.objects && h.state.modified == s.modified
      && (forall j :: j in s.users && j != k ==> h.state.users[j] == s.users[j])
      && h.state.users[k].invitation == (if inv.Some? then StoredInvitation(inv.value) else s.users[k].invitation)
      && h.state.users[k].(invitation := s.users[k].invitation) == s.users[k]
      && h.reply.body == JObj(map["message" := JStr(INVITATION_UPDATED),
                                  "invitation" := ReportedInvitation(h.state.users[k].invitation)])
  {
  }

  /** An empty invitation clears the field and is reported as null. */
  lemma EmptyInvitationClears(cast: string -> Option<Id>, s: State, userId: string)
    requires PatchInvitation(cast, s, userId, Some("")).reply.status == 200
    ensures var h := PatchInvitation(cast, s, userId, Some(""));
      h.state.users[cast(userId).value].invitation.None?
      && h.reply.body.fields["invitation"] == JNull
  {
  }

  // ---------------------------------------------------------------- theme

  datatype Colors = Colors(floorColor: string, leftWallColor: string, rightWallColor: string)

  datatype Music = Music(url: string, name: string)

  /**
   * The per-theme lookups the handler imports (colours, weather, name, music);
   * their definitions are not part of this model, so they are parameters.
   */
  datatype ThemeLookups = ThemeLookups(
    colors: int -> Option<Colors>,
    weather: int -> Option<string>,
    name: int -> Option<string>,
    music: real -> Option<Music>)

  /** The theme id of the path: `parseInt`, refused when NaN or outside 1..5. */
  function ThemeIdParam(raw: string): (t: Option<int>)
    ensures t.Some? <==> ParseInt(raw).Some? && 1 <= ParseInt(raw).value <= 5
    ensures t.Some? ==> t == ParseInt(raw)
  {
    var n := ParseInt(raw);
    if n.None? || n.value < 1 || n.value > 5 then None else n
  }

  /** Every theme id written out in decimal is accepted as itself. */
  lemma ThemeIdParamAccepts(t: nat)
    requires 1 <= t <= 5
    ensures ThemeIdParam(NatToString(t)) == Some(t)
  {
    ParseIntOfNatToString(t);
  }

  /** The `theme.*` entries of the update: each group only when its lookup gives a (truthy) value. */
  function ThemeEntries(colors: Option<Colors>, weather: Option<string>, music: Option<Music>): map<string, string> {
    (if colors.Some? then map["floorColor" := colors.value.floorColor, "leftWallColor" := colors.value.leftWallColor,
                              "rightWallColor" := colors.value.rightWallColor] else map[])
    + (if weather.Some? && weather.value != "" then map["weather" := weather.value] else map[])
    + (if music.Some? then map["backgroundMusic.url" := music.value.url, "backgroundMusic.name" := music.value.name] else map[])
  }

  /** Colours, weather and music are written only when their lookup gives a value, and nothing else under `theme` is. */
  lemma ThemeEntriesPresent(colors: Option<Colors>, weather: Option<string>, music: Option<Music>)
    ensures var m := ThemeEntries(colors, weather, music);
      m.Keys <= THEME_PATHS
      && ("floorColor" in m <==> colors.Some?) && ("leftWallColor" in m <==> colors.Some?)
      && ("rightWallColor" in m <==> colors.Some?)
      && ("weather" in m <==> weather.Some? && weather.value != "")
      && ("backgroundMusic.url" in m <==> music.Some?) && ("backgroundMusic.name" in m <==> music.Some?)
      && (colors.Some? ==> m["floorColor"] == colors.value.floorColor)
      && ("weather" in m ==> m["weather"] == weather.value)
      && (music.Some? ==> m["backgroundMusic.url"] == music.value.url)
  {
  }

  /** `updateData`: the theme id, the placement list replaced by `ids`, and the theme entries. */
  function ThemeUpdate(themeId: int, ids: seq<Id>, entries: map<string, string>): User -> User {
    (u: User) => u.(themeId := Some(themeId), modifiedObjectIds := ids, theme := u.theme + entries)
  }

  /** `getThemeConfig` over the theme table `configs`: the entry for a known id, `None` (null) otherwise. */
  function LookupTheme(configs: map<int, ThemeConfig.Theme>, themeId: int): (r: Option<ThemeConfig.Theme>)
    ensures r.Some? <==> themeId in configs
    ensures r.Some? ==> r.value == configs[themeId]
  {
    if themeId in configs then Some(configs[themeId]) else None
  }

  /** Over the shipped table the lookup is `getThemeConfig` itself. */
  lemma LookupShippedTheme(themeId: int)
    ensures LookupTheme(ThemeConfig.THEME_CONFIGS, themeId) == ThemeConfig.GetThemeConfig(themeId)
    ensures LookupTheme(ThemeConfig.THEME_CONFIGS, themeId).Some? <==> 1 <= themeId <= 5
  {
  }

  /** Provisioning as the handler runs it: only for a theme whose templates are final. */
  function Provisioned(cast: string -> Option<Id>, s: State, configs: map<int, ThemeConfig.Theme>, themeId: int, userId: string): (o: Outcome<seq<Id>>)
    ensures !ThemeDefaultObjects.HasValidConfig(configs, themeId) ==> o == Outcome(Ok([]), s)
    ensures o.state.users == s.users && o.state.objects == s.objects
  {
    if ThemeDefaultObjects.HasValidConfig(configs, themeId)
    then ThemeDefaultObjects.Provision(cast, s, configs, themeId, userId)
    else Outcome(Ok([]), s)
  }

  /** The ids the handler keeps: the created ones when provisioning succeeded with at least one, none otherwise. */
  function KeptIds(o: Outcome<seq<Id>>): (ids: seq<Id>)
    ensures o.result.Err? ==> ids == []
    ensures o.result.Ok? ==> ids == o.result.value
  {
    if o.result.Ok? && |o.result.value| > 0 then o.result.value else []
  }

  /** A JSON field taken from a stored theme path, omitted when the path is not set. */
  function FromTheme(theme: map<string, string>, field: string, path: string): map<string, Json> {
    if path in theme then map[field := JStr(theme[path])] else map[]
  }

  /** The `data` of a successful theme reply. */
  function ThemeData(themeId: int, config: ThemeConfig.Theme, lookups: ThemeLookups, theme: map<string, string>, added: nat): Json {
    var name := lookups.name(themeId);
    var colors := lookups.colors(themeId);
    var weather := lookups.weather(themeId);
    var music := lookups.music(themeId as real);
    JObj(map[
      "themeId" := JNum(themeId as real),
      "name" := JStr(if name.Some? && name.value != "" then name.value else config.name),
      "colors" := (if colors.Some?
                   then JObj(map["floorColor" := JStr(colors.value.floorColor), "leftWallColor" := JStr(colors.value.leftWallColor),
                                 "rightWallColor" := JStr(colors.value.rightWallColor)])
                   else JObj(FromTheme(theme, "floorColor", "floorColor") + FromTheme(theme, "leftWallColor", "leftWallColor")
                             + FromTheme(theme, "rightWallColor", "rightWallColor"))),
      "backgroundMusic" := (if music.Some? then JObj(map["url" := JStr(music.value.url), "name" := JStr(music.value.name)])
                            else JObj(FromTheme(theme, "url", "backgroundMusic.url") + FromTheme(theme, "name", "backgroundMusic.name"))),
      "defaultObjectsAdded" := JNum(added as real)]
      + (if weather.Some? && weather.value != "" then map["weather" := JStr(weather.value)]
         else FromTheme(theme, "weather", "weather")))
  }

  /** A successful theme reply around its `data`. */
  function ThemeBody(data: Json): Json {
    JObj(map["success" := JBool(true), "message" := JStr(THEME_UPDATED), "data" := data])
  }

  /**
   * The theme change once the id, the theme and the user `k` are known:
   * provision the theme's placements when its templates are final, then set
   * the theme id, replace the placement list with the provisioned keys and
   * write whichever theme entries the lookups give.
   */
  function ApplyTheme(cast: string -> Option<Id>, s: State, configs: map<int, ThemeConfig.Theme>, lookups: ThemeLookups, themeId: int, config: ThemeConfig.Theme,
                      userId: string, k: Id): (h: Handled)
    requires k in s.users
    ensures h.reply.status == 200
    ensures h.state.objects == s.objects && h.state.users.Keys == s.users.Keys
  {
    var prov := Provisioned(cast, s, configs, themeId, userId);
    var ids := KeptIds(prov);
    var u := ThemeUpdate(themeId, ids, ThemeEntries(lookups.colors(themeId), lookups.weather(themeId), lookups.music(themeId as real)))(s.users[k]);
    Handled(Reply(200, ThemeBody(ThemeData(themeId, config, lookups, u.theme, |ids|))), prov.state.(users := s.users[k := u]))
  }

  /** The reply counts the placements it added. */
  lemma ThemeDataCounts(themeId: int, config: ThemeConfig.Theme, lookups: ThemeLookups, theme: map<string, string>, added: nat)
    ensures ThemeBody(ThemeData(themeId, config, lookups, theme, added)).fields["data"].fields["defaultObjectsAdded"] == JNum(added as real)
    ensures ThemeBody(ThemeData(themeId, config, lookups, theme, added)).fields["data"].fields["themeId"] == JNum(themeId as real)
  {
    var d := ThemeData(themeId, config, lookups, theme, added);
    assert "defaultObjectsAdded" in d.fields;
  }

  /**
   * The theme change replaces user `k`'s placement list with the provisioned
   * keys (none when provisioning was skipped or failed), reports their number,
   * sets the theme id, leaves theme entries the lookups do not give and every
   * other user as they were.
   */
  lemma ApplyThemeWrites(cast: string -> Option<Id>, s: State, configs: map<int, ThemeConfig.Theme>, lookups: ThemeLookups, themeId: int, config: ThemeConfig.Theme,
                         userId: string, k: Id)
    requires k in s.users
    ensures var h := ApplyTheme(cast, s, configs, lookups, themeId, config, userId, k);
      var prov := Provisioned(cast, s, configs, themeId, userId);
      var u := h.state.users[k];
      u.modifiedObjectIds == KeptIds(prov)
      && u.themeId == Some(themeId)
      && (forall p :: p in s.users[k].theme && p !in THEME_PATHS ==> p in u.theme && u.theme[p] == s.users[k].theme[p])
      && u.objectIds == s.users[k].objectIds && u.invitation == s.users[k].invitation
      && (forall j :: j in s.users && j != k ==> h.state.users[j] == s.users[j])
      && h.state.modified == prov.state.modified
      && h.reply.body.fields["data"].fields["defaultObjectsAdded"] == JNum(|u.modifiedObjectIds| as real)
  {
    var prov := Provisioned(cast, s, configs, themeId, userId);
    var ids := KeptIds(prov);
    ThemeEntriesPresent(lookups.colors(themeId), lookups.weather(themeId), lookups.music(themeId as real));
    var u := ThemeUpdate(themeId, ids, ThemeEntries(lookups.colors(themeId), lookups.weather(themeId), lookups.music(themeId as real)))(s.users[k]);
    ThemeDataCounts(themeId, config, lookups, u.theme, |ids|);
  }

  /** `PUT /users/theme/:themeId`: refuse a bad id (400), an unknown theme or an unknown user (404), else apply the theme. */
  function PutTheme(cast: string -> Option<Id>, s: State, configs: map<int, ThemeConfig.Theme>, lookups: ThemeLookups, rawThemeId: string, userId: string): (h: Handled)
    ensures ThemeIdParam(rawThemeId).None? <==> h.reply == Failure(400, BAD_THEME_ID)
    ensures h.reply.status != 200 ==> h.state == s
    ensures h.state.objects == s.objects && h.state.users.Keys == s.users.Keys
  {
    match ThemeIdParam(rawThemeId)
    case None => Handled(Failure(400, BAD_THEME_ID), s)
    case Some(themeId) =>
      match LookupTheme(configs, themeId)
      case None => Handled(Failure(404, THEME_NOT_FOUND), s)
      case Some(config) =>
        match FindUser(cast, s, userId)
        case Err(_) => Handled(Failure(500, INTERNAL_ERROR), s)
        case Ok(None) => Handled(Failure(404, USER_NOT_FOUND), s)
        case Ok(Some((k, _))) => ApplyTheme(cast, s, configs, lookups, themeId, config, userId, k)
  }

  /**
   * With a table that has every id from 1 to 5, as the shipped one has, each id
   * that passes the 400 check has a theme: the 404 "Theme not found" reply never occurs.
   */
  lemma ThemeAlwaysFound(cast: string -> Option<Id>, s: State, configs: map<int, ThemeConfig.Theme>, lookups: ThemeLookups, rawThemeId: string, userId: string)
    requires forall t :: 1 <= t <= 5 ==> t in configs
    ensures PutTheme(cast, s, configs, lookups, rawThemeId, userId).reply != Failure(404, THEME_NOT_FOUND)
  {
    var t := ThemeIdParam(rawThemeId);
    if t.Some? {
      assert LookupTheme(configs, t.value).Some?;
      FailureMessages(404, THEME_NOT_FOUND, USER_NOT_FOUND);
    }
  }

  /** An unreadable user id fails with 500 and an unknown user with 404, both before anything is written. */
  lemma ThemeUserChecks(cast: string -> Option<Id>, s: State, configs: map<int, ThemeConfig.Theme>, lookups: ThemeLookups, rawThemeId: string, userId: string)
    requires ThemeIdParam(rawThemeId).Some? && ThemeIdParam(rawThemeId).value in configs
    ensures var h := PutTheme(cast, s, configs, lookups, rawThemeId, userId);
      (cast(userId).None? ==> h == Handled(Failure(500, INTERNAL_ERROR), s))
      && (cast(userId).Some? && cast(userId).value !in s.users ==> h == Handled(Failure(404, USER_NOT_FOUND), s))
      && (h.reply.status == 200 <==> cast(userId).Some? && cast(userId).value in s.users)
  {
    assert LookupTheme(configs, ThemeIdParam(rawThemeId).value).Some?;
  }

  /** A successful `PUT /users/theme/:themeId` is the theme change applied to the caller. */
  lemma PutThemeApplies(cast: string -> Option<Id>, s: State, configs: map<int, ThemeConfig.Theme>, lookups: ThemeLookups, rawThemeId: string, userId: string)
    requires PutTheme(cast, s, configs, lookups, rawThemeId, userId).reply.status == 200
    ensures ThemeIdParam(rawThemeId).Some? && cast(userId).Some? && cast(userId).value in s.users
    ensures var themeId := ThemeIdParam(rawThemeId).value;
      LookupTheme(configs, themeId).Some?
      && PutTheme(cast, s, configs, lookups, rawThemeId, userId)
         == ApplyTheme(cast, s, configs, lookups, themeId, LookupTheme(configs, themeId).value, userId, cast(userId).value)
  {
  }

  /**
   * With the shipped theme table nothing is provisioned: a successful theme
   * change empties the caller's placement list, reports zero placements added
   * and leaves every placed object in the store, so the ones the caller owned
   * are still stored but no longer listed.
   */
  lemma ShippedThemeEmptiesList(cast: string -> Option<Id>, s: State, configs: map<int, ThemeConfig.Theme>, lookups: ThemeLookups, rawThemeId: string, userId: string)
    requires configs == ThemeConfig.THEME_CONFIGS
    requires PutTheme(cast, s, configs, lookups, rawThemeId, userId).reply.status == 200
    ensures var h := PutTheme(cast, s, configs, lookups, rawThemeId, userId); var k := cast(userId).value;
      k in s.users
      && h.state.users[k].modifiedObjectIds == []
      && h.state.modified == s.modified
      && (forall x :: x in s.users[k].modifiedObjectIds && x in s.modified ==> x in h.state.modified && x !in h.state.users[k].modifiedObjectIds)
      && h.reply.body.fields["data"].fields["defaultObjectsAdded"] == JNum(0.0)
  {
    PutThemeApplies(cast, s, configs, lookups, rawThemeId, userId);
    var themeId := ThemeIdParam(rawThemeId).value;
    ThemeDefaultObjects.ShippedTableNeverProvisions(cast, s, themeId, userId);
    ApplyThemeWrites(cast, s, configs, lookups, themeId, LookupTheme(configs, themeId).value, userId, cast(userId).value);
  }

  // ---------------------------------------------------------------- music

  /** The music update: the two `theme.backgroundMusic` paths. */
  function SetMusic(m: Music): User -> User {
    (u: User) => u.(theme := u.theme["backgroundMusic.url" := m.url]["backgroundMusic.name" := m.name])
  }

  /** The `data.theme` of a successful music reply, read back from the stored theme. */
  function MusicData(theme: map<string, string>): Json {
    JObj(map["theme" := JObj(FromTheme(theme, "floorColor", "floorColor") + FromTheme(theme, "leftWallColor", "leftWallColor")
                             + FromTheme(theme, "rightWallColor", "rightWallColor") + FromTheme(theme, "weather", "weather")
                             + map["backgroundMusic" := JObj(FromTheme(theme, "name", "backgroundMusic.name")
                                                              + FromTheme(theme, "src", "backgroundMusic.url"))])])
  }

  /**
   * `PATCH /users/theme/music`: a falsy theme id is missing (400), a value that
   * is not a number in 1..5 is invalid (400), a theme without music is unknown
   * (404); otherwise the caller's music is set from the theme's.
   */
  function PatchMusic(cast: string -> Option<Id>, s: State, lookups: ThemeLookups, themeId: Option<Json>, userId: string): (h: Handled)
    ensures !TruthyOpt(themeId) <==> h.reply == Failure(400, THEME_ID_REQUIRED)
    ensures h.reply.status != 200 ==> h.state == s
    ensures h.reply.status == 200 ==> themeId.value.JNum? && 1.0 <= themeId.value.n <= 5.0
  {
    if !TruthyOpt(themeId) then Handled(Failure(400, THEME_ID_REQUIRED), s)
    else if !themeId.value.JNum? || themeId.value.n < 1.0 || themeId.value.n > 5.0 then
      FailureMessages(400, BAD_MUSIC_THEME_ID, THEME_ID_REQUIRED);
      Handled(Failure(400, BAD_MUSIC_THEME_ID), s)
    else match lookups.music(themeId.value.n)
      case None => Handled(Failure(404, THEME_NOT_FOUND), s)
      case Some(m) =>
        match UpdateUser(cast, s, userId, SetMusic(m))
        case Err(_) => Handled(Failure(500, MUSIC_FAILED), s)
        case Ok(t) =>
          var k := cast(userId).value;
          if k !in s.users then Handled(Failure(404, USER_NOT_FOUND), s)
          else Handled(Reply(200, JObj(map["success" := JBool(true), "message" := JStr(MUSIC_UPDATED),
                                          "data" := MusicData(t.users[k].theme)])), t)
  }

  /** Theme id 0 is reported as missing, not as out of range. */
  lemma MusicZeroIsMissing(cast: string -> Option<Id>, s: State, lookups: ThemeLookups, userId: string)
    ensures PatchMusic(cast, s, lookups, Some(JNum(0.0)), userId) == Handled(Failure(400, THEME_ID_REQUIRED), s)
  {
  }

  /** A truthy theme id that is not a number, or a number outside 1..5, is refused as invalid. */
  lemma MusicRangeChecked(cast: string -> Option<Id>, s: State, lookups: ThemeLookups, themeId: Json, userId: string)
    requires Truthy(themeId) && (!themeId.JNum? || themeId.n < 1.0 || themeId.n > 5.0)
    ensures PatchMusic(cast, s, lookups, Some(themeId), userId) == Handled(Failure(400, BAD_MUSIC_THEME_ID), s)
  {
  }

  /** A successful music update writes the two music paths of the caller's theme and nothing else. */
  lemma MusicWritten(cast: string -> Option<Id>, s: State, lookups: ThemeLookups, themeId: Option<Json>, userId: string)
    requires PatchMusic(cast, s, lookups, themeId, userId).reply.status == 200
    ensures var h := PatchMusic(cast, s, lookups, themeId, userId); var k := cast(userId).value;
      var m := lookups.music(themeId.value.n).value;
      k in s.users
      && h.state.users[k].theme == s.users[k].theme["backgroundMusic.url" := m.url]["backgroundMusic.name" := m.name]
      && h.state.users[k].(theme := s.users[k].theme) == s.users[k]
      && (forall j :: j in s.users && j != k ==> h.state.users[j] == s.users[j])
      && h.state.objects == s.objects && h.state.modified == s.modified
  {
  }

  /** The update strict mode leaves of the music paths, which the user schema does not declare: none. */
  function StrippedMusic(): User -> User {
    (u: User) => u
  }

  /**
   * `PATCH /users/theme/music` as written: the same checks, but the update
   * is stripped, and building the reply reads `name` of the stored
   * `theme.backgroundMusic`, which is undefined, so the TypeError it throws
   * answers 500 for every caller the update finds.
   */
  function PatchMusicAsWritten(cast: string -> Option<Id>, s: State, lookups: ThemeLookups, themeId: Option<Json>, userId: string): (h: Handled)
  {
    if !TruthyOpt(themeId) then Handled(Failure(400, THEME_ID_REQUIRED), s)
    else if !themeId.value.JNum? || themeId.value.n < 1.0 || themeId.value.n > 5.0 then Handled(Failure(400, BAD_MUSIC_THEME_ID), s)
    else match lookups.music(themeId.value.n)
      case None => Handled(Failure(404, THEME_NOT_FOUND), s)
      case Some(_) =>
        match UpdateUser(cast, s, userId, StrippedMusic())
        case Err(_) => Handled(Failure(500, MUSIC_FAILED), s)
        case Ok(t) =>
          if cast(userId).value !in s.users then Handled(Failure(404, USER_NOT_FOUND), t)
          else Handled(Failure(500, MUSIC_FAILED), t)
  }

  /**
   * As written, the music update never succeeds and never changes the store:
   * where the intended handler answers 200 it answers 500 "Failed to update
   * music.", and every other reply is the intended one.
   */
  lemma PatchMusicAsWrittenNeverUpdates(cast: string -> Option<Id>, s: State, lookups: ThemeLookups, themeId: Option<Json>, userId: string)
    ensures PatchMusicAsWritten(cast, s, lookups, themeId, userId).state == s
    ensures PatchMusicAsWritten(cast, s, lookups, themeId, userId).reply.status != 200
    ensures PatchMusic(cast, s, lookups, themeId, userId).reply.status == 200 ==>
      PatchMusicAsWritten(cast, s, lookups, themeId, userId) == Handled(Failure(500, MUSIC_FAILED), s)
    ensures PatchMusic(cast, s, lookups, themeId, userId).reply.status != 200 ==>
      PatchMusicAsWritten(cast, s, lookups, themeId, userId) == PatchMusic(cast, s, lookups, themeId, userId)
  {
    if TruthyOpt(themeId) && themeId.value.JNum? && 1.0 <= themeId.value.n <= 5.0 && lookups.music(themeId.value.n).Some? {
      var r := UpdateUser(cast, s, userId, StrippedMusic());
      if r.Ok? {
        assert r.value.users == s.users;
      }
    }
  }
}
