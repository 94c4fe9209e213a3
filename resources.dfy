/**
 * The request bodies that three resource files build from the resource data
 * themselves (organization presence definitions, sentiment feedback, recording
 * settings), and what their read callbacks write back.
 */
module Resources {
  import opened Wrappers
  import opened Attributes

  // ---------------------------------------------------------------------------
  // Organization presence definition
  // ---------------------------------------------------------------------------

  datatype WritableDivision = WritableDivision(id: Option<string>)

  datatype OrganizationPresenceDefinition = OrganizationPresenceDefinition(
    name: Option<string>,
    languageLabels: Option<map<string, string>>,
    systemPresence: Option<string>,
    division: Option<WritableDivision>,
    deactivated: Option<bool>)

  /**
   * getOrganizationPresenceDefinitionFromResourceData: `division_id` becomes a
   * division reference; `language_labels` is never sent.
   */
  function PresenceDefinitionFromResourceData(d: Fields): OrganizationPresenceDefinition
  {
    OrganizationPresenceDefinition(
      Some(GetString(d, "name")),
      None,
      Some(GetString(d, "system_presence")),
      Some(WritableDivision(Some(GetString(d, "division_id")))),
      Some(GetBool(d, "deactivated")))
  }

  /** SetNillableReferenceWritableDivision: the division's Id, or nothing for a nil division or Id. */
  function DivisionEntry(o: Option<WritableDivision>): Option<Value>
  {
    if o.Some? then StringOf(o.value.id) else None
  }

  /** The attributes the read callback sets; `language_labels` is not among them. */
  const PresenceDefinitionKeys: set<string> := {"name", "system_presence", "division_id", "deactivated"}

  function PresenceDefinitionEntry(p: OrganizationPresenceDefinition, key: string): Option<Value>
  {
    if key == "name" then StringOf(p.name)
    else if key == "system_presence" then StringOf(p.systemPresence)
    else if key == "division_id" then DivisionEntry(p.division)
    else if key == "deactivated" then BoolOf(p.deactivated)
    else None
  }

  /** The setters of the read callback. */
  function PresenceDefinitionReadBack(d: Fields, p: OrganizationPresenceDefinition): Fields
  {
    Overwrite(d, PresenceDefinitionKeys, k => PresenceDefinitionEntry(p, k))
  }

  /**
   * A definition read into the resource data and sent back is the one that was
   * read, without its language labels.
   */
  lemma PresenceDefinitionRoundTrip(d: Fields, p: OrganizationPresenceDefinition)
    requires p.name.Some? && p.systemPresence.Some? && p.deactivated.Some?
    requires p.division.Some? && p.division.value.id.Some?
    ensures PresenceDefinitionFromResourceData(PresenceDefinitionReadBack(d, p)) == p.(languageLabels := None)
  {
    var r := PresenceDefinitionReadBack(d, p);
    assert r["name"] == VString(p.name.value);
    assert r["system_presence"] == VString(p.systemPresence.value);
    assert r["division_id"] == VString(p.division.value.id.value);
    assert r["deactivated"] == VBool(p.deactivated.value);
  }

  /** Whatever `language_labels` holds, the request body is the same, and it carries no labels. */
  lemma PresenceDefinitionIgnoresLanguageLabels(d: Fields, v: Value)
    ensures PresenceDefinitionFromResourceData(d["language_labels" := v]) == PresenceDefinitionFromResourceData(d)
    ensures PresenceDefinitionFromResourceData(d).languageLabels == None
  {
  }

  /** The division reference always names the `division_id` attribute. */
  lemma PresenceDefinitionDivision(d: Fields)
    ensures DivisionEntry(PresenceDefinitionFromResourceData(d).division) == Some(VString(GetString(d, "division_id")))
  {
  }

  // ---------------------------------------------------------------------------
  // Sentiment feedback
  // ---------------------------------------------------------------------------

  datatype SentimentFeedback = SentimentFeedback(phrase: Option<string>, dialect: Option<string>, feedbackValue: Option<string>)

  const SentimentFeedbackKeys: set<string> := {"phrase", "dialect", "feedback_value"}

  /** getSpeechandtextanalyticsSentimentfeedbackFromResourceData. */
  function SentimentFeedbackFromResourceData(d: Fields): SentimentFeedback
  {
    SentimentFeedback(Some(GetString(d, "phrase")), Some(GetString(d, "dialect")), Some(GetString(d, "feedback_value")))
  }

  /**
   * The body sends exactly `phrase`, `dialect` and `feedback_value`: all three
   * are always set, and no other attribute changes the body.
   */
  lemma SentimentFeedbackSendsExactly(d: Fields, k: string, v: Value)
    ensures var s := SentimentFeedbackFromResourceData(d);
      s.phrase.Some? && s.dialect.Some? && s.feedbackValue.Some?
    ensures k !in SentimentFeedbackKeys ==>
      SentimentFeedbackFromResourceData(d[k := v]) == SentimentFeedbackFromResourceData(d)
  {
  }

  /** Resource data that agree on the three attributes give the same body. */
  lemma SentimentFeedbackDetermined(d1: Fields, d2: Fields)
    requires GetString(d1, "phrase") == GetString(d2, "phrase")
    requires GetString(d1, "dialect") == GetString(d2, "dialect")
    requires GetString(d1, "feedback_value") == GetString(d2, "feedback_value")
    ensures SentimentFeedbackFromResourceData(d1) == SentimentFeedbackFromResourceData(d2)
  {
  }

  // ---------------------------------------------------------------------------
  // Recording settings
  // ---------------------------------------------------------------------------

  datatype RecordingSettings = RecordingSettings(
    maxSimultaneousStreams: Option<int>,
    maxConfigurableScreenRecordingStreams: Option<int>,
    regionalRecordingStorageEnabled: Option<bool>,
    recordingPlaybackUrlTtl: Option<int>,
    recordingBatchDownloadUrlTtl: Option<int>)

  const RecordingSettingsKeys: set<string> :=
    {"max_simultaneous_streams", "max_configurable_screen_recording_streams", "regional_recording_storage_enabled",
     "recording_playback_url_ttl", "recording_batch_download_url_ttl"}

  /** getRecordingSettingsFromResourceData: the five settings, each always set. */
  function RecordingSettingsFromResourceData(d: Fields): RecordingSettings
  {
    RecordingSettings(
      Some(GetInt(d, "max_simultaneous_streams")),
      Some(GetInt(d, "max_configurable_screen_recording_streams")),
      Some(GetBool(d, "regional_recording_storage_enabled")),
      Some(GetInt(d, "recording_playback_url_ttl")),
      Some(GetInt(d, "recording_batch_download_url_ttl")))
  }

  function RecordingSettingsEntry(s: RecordingSettings, key: string): Option<Value>
  {
    if key == "max_simultaneous_streams" then IntOf(s.maxSimultaneousStreams)
    else if key == "max_configurable_screen_recording_streams" then IntOf(s.maxConfigurableScreenRecordingStreams)
    else if key == "regional_recording_storage_enabled" then BoolOf(s.regionalRecordingStorageEnabled)
    else if key == "recording_playback_url_ttl" then IntOf(s.recordingPlaybackUrlTtl)
    else if key == "recording_batch_download_url_ttl" then IntOf(s.recordingBatchDownloadUrlTtl)
    else None
  }

  /** The setters of the read callback. */
  function RecordingSettingsReadBack(d: Fields, s: RecordingSettings): Fields
  {
    Overwrite(d, RecordingSettingsKeys, k => RecordingSettingsEntry(s, k))
  }

  predicate RecordingSettingsFullySet(s: RecordingSettings)
  {
    && s.maxSimultaneousStreams.Some? && s.maxConfigurableScreenRecordingStreams.Some?
    && s.regionalRecordingStorageEnabled.Some? && s.recordingPlaybackUrlTtl.Some?
    && s.recordingBatchDownloadUrlTtl.Some?
  }

  /** Settings read into the resource data and sent back by update are the settings that were read. */
  lemma RecordingSettingsRoundTrip(d: Fields, s: RecordingSettings)
    requires RecordingSettingsFullySet(s)
    ensures RecordingSettingsFromResourceData(RecordingSettingsReadBack(d, s)) == s
  {
    var r := RecordingSettingsReadBack(d, s);
    assert r["max_simultaneous_streams"] == VInt(s.maxSimultaneousStreams.value);
    assert r["max_configurable_screen_recording_streams"] == VInt(s.maxConfigurableScreenRecordingStreams.value);
    assert r["regional_recording_storage_enabled"] == VBool(s.regionalRecordingStorageEnabled.value);
    assert r["recording_playback_url_ttl"] == VInt(s.recordingPlaybackUrlTtl.value);
    assert r["recording_batch_download_url_ttl"] == VInt(s.recordingBatchDownloadUrlTtl.value);
  }

  /** The body copies exactly the five settings: every one is set, and no other attribute changes it. */
  lemma RecordingSettingsCopiesExactly(d: Fields, k: string, v: Value)
    ensures RecordingSettingsFullySet(RecordingSettingsFromResourceData(d))
    ensures k !in RecordingSettingsKeys ==>
      RecordingSettingsFromResourceData(d[k := v]) == RecordingSettingsFromResourceData(d)
  {
  }
}
