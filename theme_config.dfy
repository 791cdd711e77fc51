/**
 * The static table of the five room themes and the two placements each theme
 * is meant to provide when a user picks it.
 */
module ThemeConfig {
  import opened Wrappers
  import opened Json
  import opened Text
  import opened Models

  /** Where and how one default placement is to be made from a catalog object. */
  datatype Template = Template(
    originalObjectId: string,
    coordinates: Coords,
    isReversed: bool,
    itemFunction: Option<string>,
    additionalData: map<string, Json>)   // an absent `additionalData` spreads like an empty one

  datatype Theme = Theme(
    id: int,
    name: string,
    characteristics: seq<string>,
    description: string,
    defaultModifiedObjects: seq<Template>)

  /** The marker that identifies a template whose catalog object has not been chosen yet. */
  const PLACEHOLDER_PREFIX := "PLACEHOLDER_"

  /** A placeholder object id: the marker followed by `suffix`. */
  function Placeholder(suffix: string): (id: string)
    ensures StartsWith(id, PLACEHOLDER_PREFIX)
  {
    assert (PLACEHOLDER_PREFIX + suffix)[..|PLACEHOLDER_PREFIX|] == PLACEHOLDER_PREFIX;
    PLACEHOLDER_PREFIX + suffix
  }

  /** The data every shipped template carries: its theme and its position in the list. */
  function TemplateData(themeId: int, index: nat): map<string, Json> {
    map["themeSpecific" := JBool(true), "themeId" := JNum(themeId as real), "objectIndex" := JNum(index as real)]
  }

  const THEME_1 := Theme(1, "동심파", ["순수함", "가족애", "따뜻함"],
    "어린 시절의 추억과 가족과의 유대감을 중시하는 따뜻하고 순수한 마음",
    [Template(Placeholder("OBJECT_ID_1_1"), Coords(0.75, 0.4), false, None, TemplateData(1, 0)),
     Template(Placeholder("OBJECT_ID_1_2"), Coords(0.3, 0.35), false, None, TemplateData(1, 1))])

  const THEME_2 := Theme(2, "낭만파", ["감성", "예술", "사랑"],
    "감성적이고 예술적인 표현을 통해 사랑과 낭만을 삶의 중요한 가치로 여기는 성향",
    [Template(Placeholder("OBJECT_ID_2_1"), Coords(0.85, 0.2), false, None, TemplateData(2, 0)),
     Template(Placeholder("OBJECT_ID_2_2"), Coords(0.3, 0.35), false, None, TemplateData(2, 1))])

  const THEME_3 := Theme(3, "도시파", ["자립심", "열정", "세련됨"],
    "주체적이고 열정적인 태도로 현대적이고 세련된 감각을 추구하며 성취를 중시하는 성향",
    [Template(Placeholder("OBJECT_ID_3_1"), Coords(0.75, 0.4), false, None, TemplateData(3, 0)),
     Template(Placeholder("OBJECT_ID_3_2"), Coords(0.3, 0.35), false, None, TemplateData(3, 1))])

  const THEME_4 := Theme(4, "자연파", ["자연", "소박함", "평온함"],
    "복잡함보다는 단순함을 추구하며 자연 속에서의 평화와 여유로운 삶을 지향하는 성향",
    [Template(Placeholder("OBJECT_ID_4_1"), Coords(0.75, 0.4), false, None, TemplateData(4, 0)),
     Template(Placeholder("OBJECT_ID_4_2"), Coords(0.3, 0.35), false, None, TemplateData(4, 1))])

  const THEME_5 := Theme(5, "기억파", ["추억", "그리움", "연결"],
    "과거의 인연을 소중히 여기고 깊은 그리움과 사람 간의 연결을 강조하는 성향",
    [Template(Placeholder("OBJECT_ID_5_1"), Coords(0.75, 0.4), false, None, TemplateData(5, 0)),
     Template(Placeholder("OBJECT_ID_5_2"), Coords(0.3, 0.35), false, None, TemplateData(5, 1))])

  /** The theme table, keyed by theme id. */
  const THEME_CONFIGS: map<int, Theme> :=
    map[1 := THEME_1, 2 := THEME_2, 3 := THEME_3, 4 := THEME_4, 5 := THEME_5]

  /** `getThemeConfig`: the entry for a known id, `None` (null) otherwise. */
  function GetThemeConfig(themeId: int): (r: Option<Theme>)
    ensures r.Some? <==> 1 <= themeId <= 5
    ensures r.Some? ==> r.value.id == themeId && r.value == THEME_CONFIGS[themeId]
  {
    if themeId in THEME_CONFIGS then Some(THEME_CONFIGS[themeId]) else None
  }

  /** `getDefaultModifiedObjectConfigs`: the template list of a known theme, `None` (null) otherwise. */
  function GetDefaultModifiedObjectConfigs(themeId: int): (r: Option<seq<Template>>)
    ensures r.Some? <==> GetThemeConfig(themeId).Some?
    ensures r.Some? ==> r.value == GetThemeConfig(themeId).value.defaultModifiedObjects && |r.value| == 2
  {
    if themeId in THEME_CONFIGS then Some(THEME_CONFIGS[themeId].defaultModifiedObjects) else None
  }

  /** The table has entries exactly for ids 1 to 5, each carrying its own key as id. */
  lemma TableKeys()
    ensures THEME_CONFIGS.Keys == {1, 2, 3, 4, 5}
    ensures forall t :: t in THEME_CONFIGS ==> THEME_CONFIGS[t].id == t
  {
  }

  /** A shipped template: a placeholder id, no item function, not mirrored, tagged with its theme and index. */
  predicate ShippedTemplate(themeId: int, index: nat, tpl: Template) {
    StartsWith(tpl.originalObjectId, PLACEHOLDER_PREFIX)
    && tpl.itemFunction.None? && !tpl.isReversed
    && tpl.additionalData == TemplateData(themeId, index)
  }

  lemma ShippedTheme(t: int)
    requires t in THEME_CONFIGS
    ensures |THEME_CONFIGS[t].defaultModifiedObjects| == 2
    ensures forall i :: 0 <= i < 2 ==> ShippedTemplate(t, i, THEME_CONFIGS[t].defaultModifiedObjects[i])
  {
    if t == 1 { assert THEME_CONFIGS[t] == THEME_1; }
    else if t == 2 { assert THEME_CONFIGS[t] == THEME_2; }
    else if t == 3 { assert THEME_CONFIGS[t] == THEME_3; }
    else if t == 4 { assert THEME_CONFIGS[t] == THEME_4; }
    else { assert THEME_CONFIGS[t] == THEME_5; }
  }

  /**
   * Every theme has two templates; each carries a placeholder id, no item
   * function, `isReversed` false, and data naming its theme and its index.
   */
  lemma AllTemplatesArePlaceholders()
    ensures forall t :: t in THEME_CONFIGS ==> |THEME_CONFIGS[t].defaultModifiedObjects| == 2
    ensures forall t, i :: t in THEME_CONFIGS && 0 <= i < 2 ==> ShippedTemplate(t, i, THEME_CONFIGS[t].defaultModifiedObjects[i])
  {
    forall t | t in THEME_CONFIGS
      ensures |THEME_CONFIGS[t].defaultModifiedObjects| == 2
      ensures forall i :: 0 <= i < 2 ==> ShippedTemplate(t, i, THEME_CONFIGS[t].defaultModifiedObjects[i])
    {
      ShippedTheme(t);
    }
  }
}
