/**
 * Converters of the speech-and-text-analytics topics package: a topic's programs,
 * phrases and publisher reference, and the topic sent on create and update.
 */
module TopicsUtils {
  import opened Wrappers
  import opened Attributes
  import opened EntityRefs

  datatype BaseProgramEntity = BaseProgramEntity(name: Option<string>)

  datatype Phrase = Phrase(text: Option<string>, strictness: Option<string>, sentiment: Option<string>)

  datatype Topic = Topic(
    name: Option<string>,
    description: Option<string>,
    published: Option<bool>,
    strictness: Option<string>,
    matchingType: Option<string>,
    programs: SlicePtr<BaseProgramEntity>,
    tags: SlicePtr<string>,
    dialect: Option<string>,
    participants: Option<string>,
    phrases: SlicePtr<Phrase>,
    publishedBy: SlicePtr<AddressableEntityRef>,
    datePublished: Option<string>)

  // ---------------------------------------------------------------------------
  // Element converters
  // ---------------------------------------------------------------------------

  function BaseProgramEntityOf(m: Fields): BaseProgramEntity
  {
    BaseProgramEntity(StringField(m, "name"))
  }

  function BaseProgramEntityMap(p: BaseProgramEntity): Fields
  {
    PutString(map[], "name", p.name)
  }

  function PhraseOf(m: Fields): Phrase
  {
    Phrase(StringField(m, "text"), StringField(m, "strictness"), StringField(m, "sentiment"))
  }

  function PhraseMap(p: Phrase): Fields
  {
    PutString(PutString(PutString(map[], "text", p.text), "strictness", p.strictness), "sentiment", p.sentiment)
  }

  function BuildBaseProgramEntitys(xs: seq<Value>): seq<BaseProgramEntity>
  {
    Built(xs, BaseProgramEntityOf)
  }

  function BuildPhrases(xs: seq<Value>): seq<Phrase>
  {
    Built(xs, PhraseOf)
  }

  function FlattenBaseProgramEntitys(ps: seq<BaseProgramEntity>): Option<seq<Fields>>
  {
    Flattened(ps, BaseProgramEntityMap)
  }

  function FlattenPhrases(ps: seq<Phrase>): Option<seq<Fields>>
  {
    Flattened(ps, PhraseMap)
  }

  // ---------------------------------------------------------------------------
  // Round trips of the element converters
  // ---------------------------------------------------------------------------

  function PhraseKept(m: Fields): Fields
  {
    Kept(m, {"text", "strictness", "sentiment"}, {}, {})
  }

  /**
   * Flattening built phrases gives one map per map element of the input, in order,
   * holding that element's string-valued `text`, `strictness` and `sentiment` and
   * no other key; no map element at all gives nil.
   */
  lemma PhrasesFlattenAfterBuild(xs: seq<Value>)
    ensures FlattenPhrases(BuildPhrases(xs)) == Flattened(MapElements(xs), PhraseKept)
  {
    forall m: Fields ensures PhraseMap(PhraseOf(m)) == PhraseKept(m) {
      assert PhraseMap(PhraseOf(m)).Keys == PhraseKept(m).Keys;
    }
    FlattenAfterBuild(xs, PhraseOf, PhraseMap, PhraseKept);
  }

  lemma PhrasesBuildAfterFlatten(ps: seq<Phrase>)
    ensures BuildPhrases(ListItems(FlattenPhrases(ps))) == ps
  {
    BuildAfterFlatten(ps, PhraseMap, PhraseOf, p => p);
  }

  function NameKept(m: Fields): Fields
  {
    Kept(m, {"name"}, {}, {})
  }

  /** A program entity's string-valued `name` is all that survives a build and a flatten. */
  lemma BaseProgramEntitysFlattenAfterBuild(xs: seq<Value>)
    ensures FlattenBaseProgramEntitys(BuildBaseProgramEntitys(xs)) == Flattened(MapElements(xs), NameKept)
  {
    forall m: Fields ensures BaseProgramEntityMap(BaseProgramEntityOf(m)) == NameKept(m) {
      assert BaseProgramEntityMap(BaseProgramEntityOf(m)).Keys == NameKept(m).Keys;
    }
    FlattenAfterBuild(xs, BaseProgramEntityOf, BaseProgramEntityMap, NameKept);
  }

  lemma BaseProgramEntitysBuildAfterFlatten(ps: seq<BaseProgramEntity>)
    ensures BuildBaseProgramEntitys(ListItems(FlattenBaseProgramEntitys(ps))) == ps
  {
    BuildAfterFlatten(ps, BaseProgramEntityMap, BaseProgramEntityOf, p => p);
  }

  // ---------------------------------------------------------------------------
  // The topic as a whole
  // ---------------------------------------------------------------------------

  /** getSpeechandtextanalyticsTopicsFromResourceData: `tags` is never sent. */
  function TopicFromResourceData(d: Fields): Topic
  {
    Topic(
      Some(GetString(d, "name")),
      Some(GetString(d, "description")),
      Some(GetBool(d, "published")),
      Some(GetString(d, "strictness")),
      Some(GetString(d, "matching_type")),
      Ptr(BuildBaseProgramEntitys(GetList(d, "programs"))),
      Nil,
      Some(GetString(d, "dialect")),
      Some(GetString(d, "participants")),
      Ptr(BuildPhrases(GetList(d, "phrases"))),
      Ptr(BuildAddressableEntityRefs(GetList(d, "published_by"))),
      Some(GetString(d, "date_published")))
  }

  const TopicKeys: set<string> :=
    {"name", "description", "published", "strictness", "matching_type", "programs", "tags",
     "dialect", "participants", "phrases", "published_by", "date_published"}

  /** What the read callback writes under `key`, or nothing for a nil field. */
  function TopicEntry(t: Topic, key: string): Option<Value>
  {
    if key == "name" then StringOf(t.name)
    else if key == "description" then StringOf(t.description)
    else if key == "published" then BoolOf(t.published)
    else if key == "strictness" then StringOf(t.strictness)
    else if key == "matching_type" then StringOf(t.matchingType)
    else if key == "programs" then ListOf(FlattenedField(t.programs, BaseProgramEntityMap))
    else if key == "tags" then StringsOf(t.tags)
    else if key == "dialect" then StringOf(t.dialect)
    else if key == "participants" then StringOf(t.participants)
    else if key == "phrases" then ListOf(FlattenedField(t.phrases, PhraseMap))
    else if key == "published_by" then ListOf(FlattenedField(t.publishedBy, AddressableEntityRefMap))
    else if key == "date_published" then StringOf(t.datePublished)
    else None
  }

  /** The setters of the read callback. */
  function TopicReadBack(d: Fields, t: Topic): Fields
  {
    Overwrite(d, TopicKeys, k => TopicEntry(t, k))
  }

  /** Every field the request body always sets is set. */
  predicate TopicFullySet(t: Topic)
  {
    && t.name.Some? && t.description.Some? && t.published.Some? && t.strictness.Some?
    && t.matchingType.Some? && t.programs.Ptr? && t.dialect.Some? && t.participants.Some?
    && t.phrases.Ptr? && t.publishedBy.Ptr? && t.datePublished.Some?
  }

  lemma TopicReadBackAt(d: Fields, t: Topic, k: string)
    requires k in TopicKeys
    ensures (k in TopicReadBack(d, t)) == TopicEntry(t, k).Some?
    ensures k in TopicReadBack(d, t) ==> TopicReadBack(d, t)[k] == TopicEntry(t, k).value
  {
  }

  /**
   * A topic read into the resource data and sent back as a request body is the
   * topic that was read, except that its tags are not sent and its publisher
   * reference comes back blank.
   */
  lemma TopicRoundTripThroughResourceData(d: Fields, t: Topic)
    requires TopicFullySet(t)
    ensures TopicFromResourceData(TopicReadBack(d, t)) == t.(tags := Nil, publishedBy := BlankedRefs(t.publishedBy))
  {
    var r := TopicReadBack(d, t);
    TopicReadBackAt(d, t, "name");
    TopicReadBackAt(d, t, "description");
    TopicReadBackAt(d, t, "published");
    TopicReadBackAt(d, t, "strictness");
    TopicReadBackAt(d, t, "matching_type");
    TopicReadBackAt(d, t, "programs");
    TopicReadBackAt(d, t, "dialect");
    TopicReadBackAt(d, t, "participants");
    TopicReadBackAt(d, t, "phrases");
    TopicReadBackAt(d, t, "published_by");
    TopicReadBackAt(d, t, "date_published");
    BaseProgramEntitysBuildAfterFlatten(t.programs.elems);
    PhrasesBuildAfterFlatten(t.phrases.elems);
    AddressableEntityRefsRoundTrip(t.publishedBy.elems);
  }

  /** Whatever the `tags` attribute holds, the request body is the same. */
  lemma TopicIgnoresTags(d: Fields, v: Value)
    ensures TopicFromResourceData(d["tags" := v]) == TopicFromResourceData(d)
    ensures TopicFromResourceData(d).tags == Nil
  {
  }
}
