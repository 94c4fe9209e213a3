/**
 * The speech-and-text-analytics settings sent on update, and what the read
 * callback writes back.
 */
module SettingsUtils {
  import opened Wrappers
  import opened Attributes
  import opened EntityRefs

  /** The fields of the settings record that the package touches. */
  datatype SpeechTextAnalyticsSettings = SpeechTextAnalyticsSettings(
    name: Option<string>,
    defaultProgram: SlicePtr<AddressableEntityRef>,
    expectedDialects: SlicePtr<string>,
    textAnalyticsEnabled: Option<bool>,
    agentEmpathyEnabled: Option<bool>)

  /**
   * getSpeechandtextanalyticsSettingsFromResourceData: the two flags and the
   * default program; `expected_dialects` and the name are never sent.
   */
  function SettingsFromResourceData(d: Fields): (s: SpeechTextAnalyticsSettings)
    ensures s.textAnalyticsEnabled == Some(GetBool(d, "text_analytics_enabled"))
    ensures s.agentEmpathyEnabled == Some(GetBool(d, "agent_empathy_enabled"))
    ensures s.expectedDialects == Nil && s.name == None
    ensures s.defaultProgram.Ptr? && |s.defaultProgram.elems| == |MapElements(GetList(d, "default_program"))|
  {
    SpeechTextAnalyticsSettings(
      None,
      Ptr(BuildAddressableEntityRefs(GetList(d, "default_program"))),
      Nil,
      Some(GetBool(d, "text_analytics_enabled")),
      Some(GetBool(d, "agent_empathy_enabled")))
  }

  const SettingsKeys: set<string> := {"default_program", "expected_dialects", "text_analytics_enabled", "agent_empathy_enabled"}

  function SettingsEntry(s: SpeechTextAnalyticsSettings, key: string): Option<Value>
  {
    if key == "default_program" then ListOf(FlattenedField(s.defaultProgram, AddressableEntityRefMap))
    else if key == "expected_dialects" then StringsOf(s.expectedDialects)
    else if key == "text_analytics_enabled" then BoolOf(s.textAnalyticsEnabled)
    else if key == "agent_empathy_enabled" then BoolOf(s.agentEmpathyEnabled)
    else None
  }

  /** The setters of the read callback. */
  function SettingsReadBack(d: Fields, s: SpeechTextAnalyticsSettings): Fields
  {
    Overwrite(d, SettingsKeys, k => SettingsEntry(s, k))
  }

  /**
   * Settings read into the resource data and sent back on update keep both flags
   * and the number of default-program references; the name and the expected
   * dialects are lost.
   */
  lemma SettingsRoundTripThroughResourceData(d: Fields, s: SpeechTextAnalyticsSettings)
    requires s.textAnalyticsEnabled.Some? && s.agentEmpathyEnabled.Some? && s.defaultProgram.Ptr?
    ensures SettingsFromResourceData(SettingsReadBack(d, s))
      == s.(name := None, expectedDialects := Nil, defaultProgram := BlankedRefs(s.defaultProgram))
  {
    var r := SettingsReadBack(d, s);
    assert GetList(r, "default_program") == ListItems(Flattened(s.defaultProgram.elems, AddressableEntityRefMap));
    AddressableEntityRefsRoundTrip(s.defaultProgram.elems);
  }

  /**
   * The request body depends only on the two flags and on how many map elements
   * `default_program` holds: resource data that agree on those give the same body.
   */
  lemma SettingsDetermined(d1: Fields, d2: Fields)
    requires GetBool(d1, "text_analytics_enabled") == GetBool(d2, "text_analytics_enabled")
    requires GetBool(d1, "agent_empathy_enabled") == GetBool(d2, "agent_empathy_enabled")
    requires |MapElements(GetList(d1, "default_program"))| == |MapElements(GetList(d2, "default_program"))|
    ensures SettingsFromResourceData(d1) == SettingsFromResourceData(d2)
  {
  }

  /** Whatever `expected_dialects` holds, the request body is the same. */
  lemma SettingsIgnoreExpectedDialects(d: Fields, v: Value)
    ensures SettingsFromResourceData(d["expected_dialects" := v]) == SettingsFromResourceData(d)
  {
  }
}
