/**
 * Converters of the language-understanding miners package. A miner may hold its
 * latest draft, a draft holds miners and topics, and a topic holds miners again:
 * the three records are converted by mutually recursive functions.
 *
 * As generated, a draft's `miner`, a topic's `miner` and a miner's
 * `latest_draft_version` are all handled as lists.
 */
module MinersUtils {
  import opened Wrappers
  import opened Attributes

  // ---------------------------------------------------------------------------
  // SDK records
  // ---------------------------------------------------------------------------

  datatype MinerErrorInfo = MinerErrorInfo(
    message: Option<string>,
    code: Option<string>,
    messageWithParams: Option<string>,
    messageParams: Option<map<string, string>>)

  datatype DraftIntents = DraftIntents(name: Option<string>, utterances: SlicePtr<string>)

  datatype Miner = Miner(
    name: Option<string>,
    language: Option<string>,
    minerType: Option<string>,
    seeding: Option<bool>,
    status: Option<string>,
    conversationsDateRangeStart: Option<string>,
    conversationsDateRangeEnd: Option<string>,
    dateCompleted: Option<string>,
    message: Option<string>,
    errorInfo: SlicePtr<MinerErrorInfo>,
    warningInfo: SlicePtr<MinerErrorInfo>,
    conversationDataUploaded: Option<bool>,
    mediaType: Option<string>,
    participantType: Option<string>,
    queueIds: SlicePtr<string>,
    dateTriggered: Option<string>,
    latestDraftVersion: SlicePtr<Draft>,
    conversationsFetchedCount: Option<int>,
    conversationsValidCount: Option<int>,
    getminedItemCount: Option<int>)

  datatype Draft = Draft(
    name: Option<string>,
    miner: SlicePtr<Miner>,
    intents: SlicePtr<DraftIntents>,
    topics: SlicePtr<DraftTopics>)

  datatype DraftTopics = DraftTopics(
    name: Option<string>,
    miner: SlicePtr<Miner>,
    conversationCount: Option<int>,
    conversationPercent: Option<real>,
    utteranceCount: Option<int>,
    phraseCount: Option<int>,
    phrases: SlicePtr<string>)

  // ---------------------------------------------------------------------------
  // Element converters, Terraform map -> SDK record
  // ---------------------------------------------------------------------------

  /** buildMinerErrorInfos, one element: `message_params` is never read. */
  function MinerErrorInfoOf(m: Fields): MinerErrorInfo
  {
    MinerErrorInfo(StringField(m, "message"), StringField(m, "code"), StringField(m, "message_with_params"), None)
  }

  function DraftIntentsOf(m: Fields): DraftIntents
  {
    DraftIntents(StringField(m, "name"), StringsField(m, "utterances"))
  }

  ghost predicate MinersReady(xs: seq<Value>)
    decreases VList(xs), 0
  {
    forall i :: 0 <= i < |MapElements(xs)| ==> MinerReady(MapElements(xs)[i])
  }

  /** `seeding`, `conversation_data_uploaded` and the three counts are asserted without a check. */
  ghost predicate MinerReady(m: Fields)
    decreases VMap(m), 1
  {
    && HasBool(m, "seeding")
    && HasBool(m, "conversation_data_uploaded")
    && HasInt(m, "conversations_fetched_count")
    && HasInt(m, "conversations_valid_count")
    && HasInt(m, "getmined_item_count")
    && (HasList(m, "latest_draft_version") ==> DraftsReady(m["latest_draft_version"].items))
  }

  ghost predicate DraftsReady(xs: seq<Value>)
    decreases VList(xs), 0
  {
    forall i :: 0 <= i < |MapElements(xs)| ==> DraftReady(MapElements(xs)[i])
  }

  ghost predicate DraftReady(m: Fields)
    decreases VMap(m), 1
  {
    && (HasList(m, "miner") ==> MinersReady(m["miner"].items))
    && (HasList(m, "topics") ==> DraftTopicssReady(m["topics"].items))
  }

  ghost predicate DraftTopicssReady(xs: seq<Value>)
    decreases VList(xs), 0
  {
    forall i :: 0 <= i < |MapElements(xs)| ==> DraftTopicsReady(MapElements(xs)[i])
  }

  /** The three counts are asserted without a check. */
  ghost predicate DraftTopicsReady(m: Fields)
    decreases VMap(m), 1
  {
    && HasInt(m, "conversation_count")
    && HasInt(m, "utterance_count")
    && HasInt(m, "phrase_count")
    && (HasList(m, "miner") ==> MinersReady(m["miner"].items))
  }

  /** buildMiners: one miner per map element. */
  function BuildMiners(xs: seq<Value>): seq<Miner>
    requires MinersReady(xs)
    decreases VList(xs), 0
  {
    var ms := MapElements(xs);
    seq(|ms|, i requires 0 <= i < |ms| => MinerOf(ms[i]))
  }

  function MinerOf(m: Fields): Miner
    requires MinerReady(m)
    decreases VMap(m), 1
  {
    Miner(
      StringField(m, "name"),
      StringField(m, "language"),
      StringField(m, "miner_type"),
      Some(BoolAt(m, "seeding")),
      StringField(m, "status"),
      StringField(m, "conversations_date_range_start"),
      StringField(m, "conversations_date_range_end"),
      StringField(m, "date_completed"),
      StringField(m, "message"),
      Nested(m, "error_info", MinerErrorInfoOf),
      Nested(m, "warning_info", MinerErrorInfoOf),
      Some(BoolAt(m, "conversation_data_uploaded")),
      StringField(m, "media_type"),
      StringField(m, "participant_type"),
      StringsField(m, "queue_ids"),
      StringField(m, "date_triggered"),
      if HasList(m, "latest_draft_version") then Ptr(BuildDrafts(m["latest_draft_version"].items)) else Nil,
      Some(IntAt(m, "conversations_fetched_count")),
      Some(IntAt(m, "conversations_valid_count")),
      Some(IntAt(m, "getmined_item_count")))
  }

  /** buildDrafts: one draft per map element. */
  function BuildDrafts(xs: seq<Value>): seq<Draft>
    requires DraftsReady(xs)
    decreases VList(xs), 0
  {
    var ms := MapElements(xs);
    seq(|ms|, i requires 0 <= i < |ms| => DraftOf(ms[i]))
  }

  function DraftOf(m: Fields): Draft
    requires DraftReady(m)
    decreases VMap(m), 1
  {
    Draft(
      StringField(m, "name"),
      if HasList(m, "miner") then Ptr(BuildMiners(m["miner"].items)) else Nil,
      Nested(m, "intents", DraftIntentsOf),
      if HasList(m, "topics") then Ptr(BuildDraftTopicss(m["topics"].items)) else Nil)
  }

  /** buildDraftTopicss: one topic per map element. */
  function BuildDraftTopicss(xs: seq<Value>): seq<DraftTopics>
    requires DraftTopicssReady(xs)
    decreases VList(xs), 0
  {
    var ms := MapElements(xs);
    seq(|ms|, i requires 0 <= i < |ms| => DraftTopicsOf(ms[i]))
  }

  /** One topic: `conversation_percent` is never read. */
  function DraftTopicsOf(m: Fields): DraftTopics
    requires DraftTopicsReady(m)
    decreases VMap(m), 1
  {
    DraftTopics(
      StringField(m, "name"),
      if HasList(m, "miner") then Ptr(BuildMiners(m["miner"].items)) else Nil,
      Some(IntAt(m, "conversation_count")),
      None,
      Some(IntAt(m, "utterance_count")),
      Some(IntAt(m, "phrase_count")),
      StringsField(m, "phrases"))
  }

  function BuildMinerErrorInfos(xs: seq<Value>): seq<MinerErrorInfo>
  {
    Built(xs, MinerErrorInfoOf)
  }

  function BuildDraftIntentss(xs: seq<Value>): seq<DraftIntents>
  {
    Built(xs, DraftIntentsOf)
  }

  // ---------------------------------------------------------------------------
  // Element converters, SDK record -> Terraform map
  // ---------------------------------------------------------------------------

  /** flattenMinerErrorInfos, one element: `message_params` is never written. */
  function MinerErrorInfoMap(e: MinerErrorInfo): Fields
  {
    PutString(PutString(PutString(map[], "message", e.message), "code", e.code), "message_with_params", e.messageWithParams)
  }

  function DraftIntentsMap(x: DraftIntents): Fields
  {
    PutStrings(PutString(map[], "name", x.name), "utterances", x.utterances)
  }

  const MinerKeys: set<string> :=
    {"name", "language", "miner_type", "seeding", "status", "conversations_date_range_start",
     "conversations_date_range_end", "date_completed", "message", "error_info", "warning_info",
     "conversation_data_uploaded", "media_type", "participant_type", "queue_ids", "date_triggered",
     "latest_draft_version", "conversations_fetched_count", "conversations_valid_count",
     "getmined_item_count"}

  /** flattenMiners, one element. */
  function MinerMap(mi: Miner): Fields
    decreases mi, 2
  {
    map k | k in MinerKeys && MinerEntry(mi, k).Some? :: MinerEntry(mi, k).value
  }

  /**
   * The value written under `key` for a miner, if any. The read callback's
   * setters write the same values under the same keys.
   */
  function MinerEntry(mi: Miner, key: string): Option<Value>
    decreases mi, 1
  {
    if key == "name" then StringOf(mi.name)
    else if key == "language" then StringOf(mi.language)
    else if key == "miner_type" then StringOf(mi.minerType)
    else if key == "seeding" then BoolOf(mi.seeding)
    else if key == "status" then StringOf(mi.status)
    else if key == "conversations_date_range_start" then StringOf(mi.conversationsDateRangeStart)
    else if key == "conversations_date_range_end" then StringOf(mi.conversationsDateRangeEnd)
    else if key == "date_completed" then StringOf(mi.dateCompleted)
    else if key == "message" then StringOf(mi.message)
    else if key == "error_info" then ListOf(FlattenedField(mi.errorInfo, MinerErrorInfoMap))
    else if key == "warning_info" then ListOf(FlattenedField(mi.warningInfo, MinerErrorInfoMap))
    else if key == "conversation_data_uploaded" then BoolOf(mi.conversationDataUploaded)
    else if key == "media_type" then StringOf(mi.mediaType)
    else if key == "participant_type" then StringOf(mi.participantType)
    else if key == "queue_ids" then StringsOf(mi.queueIds)
    else if key == "date_triggered" then StringOf(mi.dateTriggered)
    else if key == "latest_draft_version" then ListOf(if mi.latestDraftVersion.Ptr? then Some(FlattenedLatestDrafts(mi)) else None)
    else if key == "conversations_fetched_count" then IntOf(mi.conversationsFetchedCount)
    else if key == "conversations_valid_count" then IntOf(mi.conversationsValidCount)
    else if key == "getmined_item_count" then IntOf(mi.getminedItemCount)
    else None
  }

  /** A miner's drafts, flattened as flattenDrafts does. */
  function FlattenedLatestDrafts(mi: Miner): Option<seq<Fields>>
    requires mi.latestDraftVersion.Ptr?
    decreases mi, 0
  {
    var ds := mi.latestDraftVersion.elems;
    if |ds| == 0 then None else Some(seq(|ds|, i requires 0 <= i < |ds| => DraftMap(ds[i])))
  }

  const DraftKeys: set<string> := {"name", "miner", "intents", "topics"}

  /** flattenDrafts, one element. */
  function DraftMap(dr: Draft): Fields
    decreases dr, 2
  {
    map k | k in DraftKeys && DraftEntry(dr, k).Some? :: DraftEntry(dr, k).value
  }

  function DraftEntry(dr: Draft, key: string): Option<Value>
    decreases dr, 1
  {
    if key == "name" then StringOf(dr.name)
    else if key == "miner" then ListOf(if dr.miner.Ptr? then Some(FlattenedDraftMiners(dr)) else None)
    else if key == "intents" then ListOf(FlattenedField(dr.intents, DraftIntentsMap))
    else if key == "topics" then ListOf(if dr.topics.Ptr? then Some(FlattenedDraftTopics(dr)) else None)
    else None
  }

  function FlattenedDraftMiners(dr: Draft): Option<seq<Fields>>
    requires dr.miner.Ptr?
    decreases dr, 0
  {
    var ms := dr.miner.elems;
    if |ms| == 0 then None else Some(seq(|ms|, i requires 0 <= i < |ms| => MinerMap(ms[i])))
  }

  function FlattenedDraftTopics(dr: Draft): Option<seq<Fields>>
    requires dr.topics.Ptr?
    decreases dr, 0
  {
    var ts := dr.topics.elems;
    if |ts| == 0 then None else Some(seq(|ts|, i requires 0 <= i < |ts| => DraftTopicsMap(ts[i])))
  }

  const DraftTopicsKeys: set<string> :=
    {"name", "miner", "conversation_count", "conversation_percent", "utterance_count", "phrase_count", "phrases"}

  /** flattenDraftTopicss, one element: `conversation_percent` is written. */
  function DraftTopicsMap(t: DraftTopics): Fields
    decreases t, 2
  {
    map k | k in DraftTopicsKeys && DraftTopicsEntry(t, k).Some? :: DraftTopicsEntry(t, k).value
  }

  function DraftTopicsEntry(t: DraftTopics, key: string): Option<Value>
    decreases t, 1
  {
    if key == "name" then StringOf(t.name)
    else if key == "miner" then ListOf(if t.miner.Ptr? then Some(FlattenedTopicMiners(t)) else None)
    else if key == "conversation_count" then IntOf(t.conversationCount)
    else if key == "conversation_percent" then FloatOf(t.conversationPercent)
    else if key == "utterance_count" then IntOf(t.utteranceCount)
    else if key == "phrase_count" then IntOf(t.phraseCount)
    else if key == "phrases" then StringsOf(t.phrases)
    else None
  }

  function FlattenedTopicMiners(t: DraftTopics): Option<seq<Fields>>
    requires t.miner.Ptr?
    decreases t, 0
  {
    var ms := t.miner.elems;
    if |ms| == 0 then None else Some(seq(|ms|, i requires 0 <= i < |ms| => MinerMap(ms[i])))
  }

  function FlattenMinerErrorInfos(es: seq<MinerErrorInfo>): Option<seq<Fields>>
  {
    Flattened(es, MinerErrorInfoMap)
  }

  function FlattenDraftIntentss(xs: seq<DraftIntents>): Option<seq<Fields>>
  {
    Flattened(xs, DraftIntentsMap)
  }

  function FlattenMiners(ms: seq<Miner>): Option<seq<Fields>>
  {
    Flattened(ms, MinerMap)
  }

  function FlattenDrafts(ds: seq<Draft>): Option<seq<Fields>>
  {
    Flattened(ds, DraftMap)
  }

  function FlattenDraftTopicss(ts: seq<DraftTopics>): Option<seq<Fields>>
  {
    Flattened(ts, DraftTopicsMap)
  }

  // ---------------------------------------------------------------------------
  // What survives a flatten followed by a build
  // ---------------------------------------------------------------------------

  /** An error info without the `message_params` that neither direction handles. */
  function NormalErrorInfo(e: MinerErrorInfo): MinerErrorInfo
  {
    e.(messageParams := None)
  }

  function NormalErrorInfos(o: SlicePtr<MinerErrorInfo>): SlicePtr<MinerErrorInfo>
  {
    if o.Nil? then Nil else Ptr(seq(|o.elems|, i requires 0 <= i < |o.elems| => NormalErrorInfo(o.elems[i])))
  }

  /** A miner tree with every dropped field cleared, at every depth. */
  function NormalMiner(mi: Miner): Miner
    decreases mi
  {
    var ds := mi.latestDraftVersion;
    mi.(errorInfo := NormalErrorInfos(mi.errorInfo),
        warningInfo := NormalErrorInfos(mi.warningInfo),
        latestDraftVersion := if ds.Nil? then Nil else Ptr(seq(|ds.elems|, i requires 0 <= i < |ds.elems| => NormalDraft(ds.elems[i]))))
  }

  function NormalDraft(dr: Draft): Draft
    decreases dr
  {
    var ms := dr.miner;
    var ts := dr.topics;
    dr.(miner := if ms.Nil? then Nil else Ptr(seq(|ms.elems|, i requires 0 <= i < |ms.elems| => NormalMiner(ms.elems[i]))),
        topics := if ts.Nil? then Nil else Ptr(seq(|ts.elems|, i requires 0 <= i < |ts.elems| => NormalDraftTopics(ts.elems[i]))))
  }

  function NormalDraftTopics(t: DraftTopics): DraftTopics
    decreases t
  {
    var ms := t.miner;
    t.(miner := if ms.Nil? then Nil else Ptr(seq(|ms.elems|, i requires 0 <= i < |ms.elems| => NormalMiner(ms.elems[i]))),
       conversationPercent := None)
  }

  /** A miner the builder can read back: the fields it asserts are set, at every depth. */
  predicate MinerComplete(mi: Miner)
    decreases mi
  {
    && mi.seeding.Some? && mi.conversationDataUploaded.Some?
    && mi.conversationsFetchedCount.Some? && mi.conversationsValidCount.Some? && mi.getminedItemCount.Some?
    && (mi.latestDraftVersion.Ptr? ==> forall dr :: dr in mi.latestDraftVersion.elems ==> DraftComplete(dr))
  }

  predicate DraftComplete(dr: Draft)
    decreases dr
  {
    && (dr.miner.Ptr? ==> forall mi :: mi in dr.miner.elems ==> MinerComplete(mi))
    && (dr.topics.Ptr? ==> forall t :: t in dr.topics.elems ==> DraftTopicsComplete(t))
  }

  predicate DraftTopicsComplete(t: DraftTopics)
    decreases t
  {
    && t.conversationCount.Some? && t.utteranceCount.Some? && t.phraseCount.Some?
    && (t.miner.Ptr? ==> forall mi :: mi in t.miner.elems ==> MinerComplete(mi))
  }

  // ---------------------------------------------------------------------------
  // SDK side: building what was flattened
  // ---------------------------------------------------------------------------

  lemma StringsRoundTrip(o: SlicePtr<string>, m: Fields, key: string)
    requires key in m <==> o.Ptr?
    requires o.Ptr? ==> m[key] == StringValues(o.elems)
    ensures StringsField(m, key) == o
  {
  }

  /** Error infos come back without their `message_params`. */
  lemma ErrorInfosBuildAfterFlatten(es: seq<MinerErrorInfo>)
    ensures BuildMinerErrorInfos(ListItems(FlattenMinerErrorInfos(es))) == NormalErrorInfos(Ptr(es)).elems
  {
    BuildAfterFlatten(es, MinerErrorInfoMap, MinerErrorInfoOf, NormalErrorInfo);
  }

  lemma DraftIntentssBuildAfterFlatten(xs: seq<DraftIntents>)
    ensures BuildDraftIntentss(ListItems(FlattenDraftIntentss(xs))) == xs
  {
    forall i | 0 <= i < |xs| ensures DraftIntentsOf(DraftIntentsMap(xs[i])) == xs[i] {
      StringsRoundTrip(xs[i].utterances, DraftIntentsMap(xs[i]), "utterances");
    }
    BuildAfterFlatten(xs, DraftIntentsMap, DraftIntentsOf, x => x);
  }

  /** An error-info pointer flattened under a key and built back from it loses only `message_params`. */
  lemma NestedErrorInfos(m: Fields, key: string, o: SlicePtr<MinerErrorInfo>)
    requires HasList(m, key) <==> o.Ptr?
    requires o.Ptr? ==> m[key] == ListValue(Flattened(o.elems, MinerErrorInfoMap))
    ensures Nested(m, key, MinerErrorInfoOf) == NormalErrorInfos(o)
  {
    if o.Ptr? {
      ErrorInfosBuildAfterFlatten(o.elems);
    }
  }

  /** A miner's flattened map holds exactly the entries MinerEntry gives. */
  lemma MinerMapAt(mi: Miner, k: string)
    requires k in MinerKeys
    ensures (k in MinerMap(mi)) == MinerEntry(mi, k).Some?
    ensures k in MinerMap(mi) ==> MinerMap(mi)[k] == MinerEntry(mi, k).value
  {
  }

  /** Where each scalar field of a miner lands in its flattened map. */
  lemma MinerMapScalars(mi: Miner)
    ensures var m := MinerMap(mi);
      && StringField(m, "name") == mi.name
      && StringField(m, "language") == mi.language
      && StringField(m, "miner_type") == mi.minerType
      && StringField(m, "status") == mi.status
      && StringField(m, "conversations_date_range_start") == mi.conversationsDateRangeStart
      && StringField(m, "conversations_date_range_end") == mi.conversationsDateRangeEnd
      && StringField(m, "date_completed") == mi.dateCompleted
      && StringField(m, "message") == mi.message
      && StringField(m, "media_type") == mi.mediaType
      && StringField(m, "participant_type") == mi.participantType
      && StringField(m, "date_triggered") == mi.dateTriggered
  {
    MinerMapAt(mi, "name");
    MinerMapAt(mi, "language");
    MinerMapAt(mi, "miner_type");
    MinerMapAt(mi, "status");
    MinerMapAt(mi, "conversations_date_range_start");
    MinerMapAt(mi, "conversations_date_range_end");
    MinerMapAt(mi, "date_completed");
    MinerMapAt(mi, "message");
    MinerMapAt(mi, "media_type");
    MinerMapAt(mi, "participant_type");
    MinerMapAt(mi, "date_triggered");
  }

  /** Where the flags and counts of a miner land in its flattened map. */
  lemma MinerMapCounts(mi: Miner)
    ensures var m := MinerMap(mi);
      && (mi.seeding.Some? ==> HasBool(m, "seeding") && m["seeding"].b == mi.seeding.value)
      && (mi.conversationDataUploaded.Some? ==> HasBool(m, "conversation_data_uploaded") && m["conversation_data_uploaded"].b == mi.conversationDataUploaded.value)
      && (mi.conversationsFetchedCount.Some? ==> HasInt(m, "conversations_fetched_count") && m["conversations_fetched_count"].i == mi.conversationsFetchedCount.value)
      && (mi.conversationsValidCount.Some? ==> HasInt(m, "conversations_valid_count") && m["conversations_valid_count"].i == mi.conversationsValidCount.value)
      && (mi.getminedItemCount.Some? ==> HasInt(m, "getmined_item_count") && m["getmined_item_count"].i == mi.getminedItemCount.value)
  {
    MinerMapAt(mi, "seeding");
    MinerMapAt(mi, "conversation_data_uploaded");
    MinerMapAt(mi, "conversations_fetched_count");
    MinerMapAt(mi, "conversations_valid_count");
    MinerMapAt(mi, "getmined_item_count");
  }

  /** Where the lists of a miner land in its flattened map. */
  lemma MinerMapLists(mi: Miner)
    ensures var m := MinerMap(mi);
      && (HasList(m, "error_info") <==> mi.errorInfo.Ptr?)
      && (mi.errorInfo.Ptr? ==> m["error_info"] == ListValue(Flattened(mi.errorInfo.elems, MinerErrorInfoMap)))
      && (HasList(m, "warning_info") <==> mi.warningInfo.Ptr?)
      && (mi.warningInfo.Ptr? ==> m["warning_info"] == ListValue(Flattened(mi.warningInfo.elems, MinerErrorInfoMap)))
      && ("queue_ids" in m <==> mi.queueIds.Ptr?)
      && (mi.queueIds.Ptr? ==> m["queue_ids"] == StringValues(mi.queueIds.elems))
      && (HasList(m, "latest_draft_version") <==> mi.latestDraftVersion.Ptr?)
      && (mi.latestDraftVersion.Ptr? ==> m["latest_draft_version"] == ListValue(FlattenedLatestDrafts(mi)))
  {
    MinerMapAt(mi, "error_info");
    MinerMapAt(mi, "warning_info");
    MinerMapAt(mi, "queue_ids");
    MinerMapAt(mi, "latest_draft_version");
  }

  lemma DraftMapEntries(dr: Draft)
    ensures var m := DraftMap(dr);
      && StringField(m, "name") == dr.name
      && (HasList(m, "miner") <==> dr.miner.Ptr?)
      && (dr.miner.Ptr? ==> m["miner"] == ListValue(FlattenedDraftMiners(dr)))
      && (HasList(m, "intents") <==> dr.intents.Ptr?)
      && (dr.intents.Ptr? ==> m["intents"] == ListValue(Flattened(dr.intents.elems, DraftIntentsMap)))
      && (HasList(m, "topics") <==> dr.topics.Ptr?)
      && (dr.topics.Ptr? ==> m["topics"] == ListValue(FlattenedDraftTopics(dr)))
  {
  }

  lemma DraftTopicsMapEntries(t: DraftTopics)
    ensures var m := DraftTopicsMap(t);
      && StringField(m, "name") == t.name
      && (HasList(m, "miner") <==> t.miner.Ptr?)
      && (t.miner.Ptr? ==> m["miner"] == ListValue(FlattenedTopicMiners(t)))
      && (t.conversationCount.Some? ==> HasInt(m, "conversation_count") && m["conversation_count"].i == t.conversationCount.value)
      && (t.utteranceCount.Some? ==> HasInt(m, "utterance_count") && m["utterance_count"].i == t.utteranceCount.value)
      && (t.phraseCount.Some? ==> HasInt(m, "phrase_count") && m["phrase_count"].i == t.phraseCount.value)
      && ("phrases" in m <==> t.phrases.Ptr?)
      && (t.phrases.Ptr? ==> m["phrases"] == StringValues(t.phrases.elems))
  {
  }

  /**
   * Building a miner from its flattened map gives back the miner, at every depth,
   * except for the error infos' `message_params` and the topics' `conversation_percent`.
   */
  lemma {:induction false} MinerRoundTrip(mi: Miner)
    requires MinerComplete(mi)
    ensures MinerReady(MinerMap(mi)) && MinerOf(MinerMap(mi)) == NormalMiner(mi)
    decreases mi, 1
  {
    MinerMapScalars(mi);
    MinerMapCounts(mi);
    MinerMapLists(mi);
    var m := MinerMap(mi);
    NestedErrorInfos(m, "error_info", mi.errorInfo);
    NestedErrorInfos(m, "warning_info", mi.warningInfo);
    StringsRoundTrip(mi.queueIds, m, "queue_ids");
    if mi.latestDraftVersion.Ptr? {
      LatestDraftsRoundTrip(mi);
    }
    assert MinerReady(m);
    assert MinerOf(m).latestDraftVersion == NormalMiner(mi).latestDraftVersion;
  }

  lemma {:induction false} LatestDraftsRoundTrip(mi: Miner)
    requires mi.latestDraftVersion.Ptr? && MinerComplete(mi)
    ensures DraftsReady(ListItems(FlattenedLatestDrafts(mi)))
    ensures BuildDrafts(ListItems(FlattenedLatestDrafts(mi))) == NormalMiner(mi).latestDraftVersion.elems
    decreases mi, 0
  {
    var ds := mi.latestDraftVersion.elems;
    forall i | 0 <= i < |ds|
      ensures DraftReady(DraftMap(ds[i])) && DraftOf(DraftMap(ds[i])) == NormalDraft(ds[i])
    {
      assert ds[i] in ds;
      DraftRoundTrip(ds[i]);
    }
    if |ds| > 0 {
      MapElementsOfMaps(FlattenedLatestDrafts(mi).value);
    }
  }

  lemma {:induction false} DraftRoundTrip(dr: Draft)
    requires DraftComplete(dr)
    ensures DraftReady(DraftMap(dr)) && DraftOf(DraftMap(dr)) == NormalDraft(dr)
    decreases dr, 1
  {
    DraftMapEntries(dr);
    var m := DraftMap(dr);
    if dr.miner.Ptr? {
      DraftMinersRoundTrip(dr);
    }
    if dr.intents.Ptr? {
      DraftIntentssBuildAfterFlatten(dr.intents.elems);
    }
    if dr.topics.Ptr? {
      DraftTopicsListRoundTrip(dr);
    }
    assert DraftReady(m);
    assert DraftOf(m).miner == NormalDraft(dr).miner;
    assert DraftOf(m).intents == dr.intents;
    assert DraftOf(m).topics == NormalDraft(dr).topics;
  }

  lemma {:induction false} DraftMinersRoundTrip(dr: Draft)
    requires dr.miner.Ptr? && DraftComplete(dr)
    ensures MinersReady(ListItems(FlattenedDraftMiners(dr)))
    ensures BuildMiners(ListItems(FlattenedDraftMiners(dr))) == NormalDraft(dr).miner.elems
    decreases dr, 0
  {
    var ms := dr.miner.elems;
    forall i | 0 <= i < |ms|
      ensures MinerReady(MinerMap(ms[i])) && MinerOf(MinerMap(ms[i])) == NormalMiner(ms[i])
    {
      assert ms[i] in ms;
      MinerRoundTrip(ms[i]);
    }
    if |ms| > 0 {
      MapElementsOfMaps(FlattenedDraftMiners(dr).value);
    }
  }

  lemma {:induction false} DraftTopicsListRoundTrip(dr: Draft)
    requires dr.topics.Ptr? && DraftComplete(dr)
    ensures DraftTopicssReady(ListItems(FlattenedDraftTopics(dr)))
    ensures BuildDraftTopicss(ListItems(FlattenedDraftTopics(dr))) == NormalDraft(dr).topics.elems
    decreases dr, 0
  {
    var ts := dr.topics.elems;
    forall i | 0 <= i < |ts|
      ensures DraftTopicsReady(DraftTopicsMap(ts[i])) && DraftTopicsOf(DraftTopicsMap(ts[i])) == NormalDraftTopics(ts[i])
    {
      assert ts[i] in ts;
      DraftTopicsRoundTrip(ts[i]);
    }
    if |ts| > 0 {
      MapElementsOfMaps(FlattenedDraftTopics(dr).value);
    }
  }

  lemma {:induction false} DraftTopicsRoundTrip(t: DraftTopics)
    requires DraftTopicsComplete(t)
    ensures DraftTopicsReady(DraftTopicsMap(t)) && DraftTopicsOf(DraftTopicsMap(t)) == NormalDraftTopics(t)
    decreases t, 1
  {
    DraftTopicsMapEntries(t);
    var m := DraftTopicsMap(t);
    StringsRoundTrip(t.phrases, m, "phrases");
    if t.miner.Ptr? {
      TopicMinersRoundTrip(t);
    }
    assert DraftTopicsReady(m);
    assert DraftTopicsOf(m).miner == NormalDraftTopics(t).miner;
  }

  lemma {:induction false} TopicMinersRoundTrip(t: DraftTopics)
    requires t.miner.Ptr? && DraftTopicsComplete(t)
    ensures MinersReady(ListItems(FlattenedTopicMiners(t)))
    ensures BuildMiners(ListItems(FlattenedTopicMiners(t))) == NormalDraftTopics(t).miner.elems
    decreases t, 0
  {
    var ms := t.miner.elems;
    forall i | 0 <= i < |ms|
      ensures MinerReady(MinerMap(ms[i])) && MinerOf(MinerMap(ms[i])) == NormalMiner(ms[i])
    {
      assert ms[i] in ms;
      MinerRoundTrip(ms[i]);
    }
    if |ms| > 0 {
      MapElementsOfMaps(FlattenedTopicMiners(t).value);
    }
  }

  /**
   * flattenDraftTopicss writes `conversation_percent` but buildDraftTopicss never
   * reads it: a topic with a percentage does not survive a round trip.
   */
  lemma ConversationPercentLost(t: DraftTopics)
    requires DraftTopicsComplete(t) && t.conversationPercent.Some?
    ensures "conversation_percent" in DraftTopicsMap(t)
    ensures DraftTopicsReady(DraftTopicsMap(t))
    ensures DraftTopicsOf(DraftTopicsMap(t)).conversationPercent == None
    ensures DraftTopicsOf(DraftTopicsMap(t)) != t
  {
    DraftTopicsRoundTrip(t);
  }

  // ---------------------------------------------------------------------------
  // Terraform side: flattening what was built
  // ---------------------------------------------------------------------------

  function MinerErrorInfoKept(m: Fields): Fields
  {
    Kept(m, {"message", "code", "message_with_params"}, {}, {})
  }

  /** The string-valued `message`, `code` and `message_with_params` of each element come back, and no other key. */
  lemma ErrorInfosFlattenAfterBuild(xs: seq<Value>)
    ensures FlattenMinerErrorInfos(BuildMinerErrorInfos(xs)) == Flattened(MapElements(xs), MinerErrorInfoKept)
  {
    forall m: Fields ensures MinerErrorInfoMap(MinerErrorInfoOf(m)) == MinerErrorInfoKept(m) {
      assert MinerErrorInfoMap(MinerErrorInfoOf(m)).Keys == MinerErrorInfoKept(m).Keys;
    }
    FlattenAfterBuild(xs, MinerErrorInfoOf, MinerErrorInfoMap, MinerErrorInfoKept);
  }

  /** A string list stored under `key`, if there is one. */
  function StringListKept(m: Fields, key: string): Fields
  {
    if key in m && IsStringList(m[key]) then map[key := m[key]] else map[]
  }

  lemma StringValuesOfStrings(v: Value)
    requires IsStringList(v)
    ensures StringValues(Strings(v)) == v
  {
    assert StringValues(Strings(v)).items == v.items;
  }

  function DraftIntentsKept(m: Fields): Fields
  {
    Kept(m, {"name"}, {}, {}) + StringListKept(m, "utterances")
  }

  /** A string `name` and a list of strings `utterances` come back, and no other key. */
  lemma DraftIntentssFlattenAfterBuild(xs: seq<Value>)
    ensures FlattenDraftIntentss(BuildDraftIntentss(xs)) == Flattened(MapElements(xs), DraftIntentsKept)
  {
    forall m: Fields ensures DraftIntentsMap(DraftIntentsOf(m)) == DraftIntentsKept(m) {
      if "utterances" in m && IsStringList(m["utterances"]) {
        StringValuesOfStrings(m["utterances"]);
      }
      assert DraftIntentsMap(DraftIntentsOf(m)).Keys == DraftIntentsKept(m).Keys;
    }
    FlattenAfterBuild(xs, DraftIntentsOf, DraftIntentsMap, DraftIntentsKept);
  }

  // ---------------------------------------------------------------------------
  // The miner as a whole
  // ---------------------------------------------------------------------------

  /**
   * getLanguageunderstandingMinersFromResourceData: the request body sent on create.
   * `queue_ids` is never read, although buildMiners and the read callback handle it.
   */
  function MinerFromResourceData(d: Fields): Miner
    requires DraftsReady(GetList(d, "latest_draft_version"))
  {
    Miner(
      Some(GetString(d, "name")),
      Some(GetString(d, "language")),
      Some(GetString(d, "miner_type")),
      Some(GetBool(d, "seeding")),
      Some(GetString(d, "status")),
      Some(GetString(d, "conversations_date_range_start")),
      Some(GetString(d, "conversations_date_range_end")),
      Some(GetString(d, "date_completed")),
      Some(GetString(d, "message")),
      Ptr(BuildMinerErrorInfos(GetList(d, "error_info"))),
      Ptr(BuildMinerErrorInfos(GetList(d, "warning_info"))),
      Some(GetBool(d, "conversation_data_uploaded")),
      Some(GetString(d, "media_type")),
      Some(GetString(d, "participant_type")),
      Nil,
      Some(GetString(d, "date_triggered")),
      Ptr(BuildDrafts(GetList(d, "latest_draft_version"))),
      Some(GetInt(d, "conversations_fetched_count")),
      Some(GetInt(d, "conversations_valid_count")),
      Some(GetInt(d, "getmined_item_count")))
  }

  /** The setters of the read callback: every field of the miner written or cleared, other attributes untouched. */
  function MinerReadBack(d: Fields, mi: Miner): Fields
  {
    Overwrite(d, MinerKeys, k => MinerEntry(mi, k))
  }

  /** Every field the request body always sets is set. */
  predicate MinerFullySet(mi: Miner)
  {
    && mi.name.Some? && mi.language.Some? && mi.minerType.Some? && mi.seeding.Some? && mi.status.Some?
    && mi.conversationsDateRangeStart.Some? && mi.conversationsDateRangeEnd.Some? && mi.dateCompleted.Some?
    && mi.message.Some? && mi.errorInfo.Ptr? && mi.warningInfo.Ptr? && mi.conversationDataUploaded.Some?
    && mi.mediaType.Some? && mi.participantType.Some? && mi.dateTriggered.Some? && mi.latestDraftVersion.Ptr?
    && mi.conversationsFetchedCount.Some? && mi.conversationsValidCount.Some? && mi.getminedItemCount.Some?
  }

  lemma MinerReadBackAt(d: Fields, mi: Miner, k: string)
    requires k in MinerKeys
    ensures (k in MinerReadBack(d, mi)) == MinerEntry(mi, k).Some?
    ensures k in MinerReadBack(d, mi) ==> MinerReadBack(d, mi)[k] == MinerEntry(mi, k).value
  {
  }

  /** What the request body reads back of each scalar field written by the read callback. */
  lemma MinerReadBackScalars(d: Fields, mi: Miner)
    requires MinerFullySet(mi)
    ensures var r := MinerReadBack(d, mi);
      && GetString(r, "name") == mi.name.value
      && GetString(r, "language") == mi.language.value
      && GetString(r, "miner_type") == mi.minerType.value
      && GetBool(r, "seeding") == mi.seeding.value
      && GetString(r, "status") == mi.status.value
      && GetString(r, "conversations_date_range_start") == mi.conversationsDateRangeStart.value
      && GetString(r, "conversations_date_range_end") == mi.conversationsDateRangeEnd.value
      && GetString(r, "date_completed") == mi.dateCompleted.value
      && GetString(r, "message") == mi.message.value
      && GetBool(r, "conversation_data_uploaded") == mi.conversationDataUploaded.value
      && GetString(r, "media_type") == mi.mediaType.value
      && GetString(r, "participant_type") == mi.participantType.value
      && GetString(r, "date_triggered") == mi.dateTriggered.value
      && GetInt(r, "conversations_fetched_count") == mi.conversationsFetchedCount.value
      && GetInt(r, "conversations_valid_count") == mi.conversationsValidCount.value
      && GetInt(r, "getmined_item_count") == mi.getminedItemCount.value
  {
    MinerReadBackAt(d, mi, "name");
    MinerReadBackAt(d, mi, "language");
    MinerReadBackAt(d, mi, "miner_type");
    MinerReadBackAt(d, mi, "seeding");
    MinerReadBackAt(d, mi, "status");
    MinerReadBackAt(d, mi, "conversations_date_range_start");
    MinerReadBackAt(d, mi, "conversations_date_range_end");
    MinerReadBackAt(d, mi, "date_completed");
    MinerReadBackAt(d, mi, "message");
    MinerReadBackAt(d, mi, "conversation_data_uploaded");
    MinerReadBackAt(d, mi, "media_type");
    MinerReadBackAt(d, mi, "participant_type");
    MinerReadBackAt(d, mi, "date_triggered");
    MinerReadBackAt(d, mi, "conversations_fetched_count");
    MinerReadBackAt(d, mi, "conversations_valid_count");
    MinerReadBackAt(d, mi, "getmined_item_count");
  }

  /** What the request body reads back of each list written by the read callback. */
  lemma MinerReadBackLists(d: Fields, mi: Miner)
    requires MinerFullySet(mi)
    ensures var r := MinerReadBack(d, mi);
      && GetList(r, "error_info") == ListItems(Flattened(mi.errorInfo.elems, MinerErrorInfoMap))
      && GetList(r, "warning_info") == ListItems(Flattened(mi.warningInfo.elems, MinerErrorInfoMap))
      && GetList(r, "latest_draft_version") == ListItems(FlattenedLatestDrafts(mi))
  {
    MinerReadBackAt(d, mi, "error_info");
    MinerReadBackAt(d, mi, "warning_info");
    MinerReadBackAt(d, mi, "latest_draft_version");
  }

  /**
   * A miner read into the resource data and sent back as a request body is the
   * miner that was read, except that its queue ids, its error infos'
   * `message_params` and its topics' `conversation_percent` are lost.
   */
  lemma MinerRoundTripThroughResourceData(d: Fields, mi: Miner)
    requires MinerFullySet(mi) && MinerComplete(mi)
    ensures DraftsReady(GetList(MinerReadBack(d, mi), "latest_draft_version"))
    ensures MinerFromResourceData(MinerReadBack(d, mi)) == NormalMiner(mi).(queueIds := Nil)
  {
    MinerReadBackScalars(d, mi);
    MinerReadBackLists(d, mi);
    LatestDraftsRoundTrip(mi);
    ErrorInfosBuildAfterFlatten(mi.errorInfo.elems);
    ErrorInfosBuildAfterFlatten(mi.warningInfo.elems);
  }

  /** The request body never carries queue ids, whatever the resource data holds. */
  lemma QueueIdsNeverSent(d: Fields)
    requires DraftsReady(GetList(d, "latest_draft_version"))
    ensures MinerFromResourceData(d).queueIds == Nil
  {
  }
}
