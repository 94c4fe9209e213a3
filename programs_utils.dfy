/**
 * Converters of the speech-and-text-analytics programs package: a program's
 * topics and references, and the program sent on create and update.
 */
module ProgramsUtils {
  import opened Wrappers
  import opened Attributes
  import opened EntityRefs

  datatype BaseTopicEntitiy = BaseTopicEntitiy(name: Option<string>)

  datatype Program = Program(
    name: Option<string>,
    description: Option<string>,
    published: Option<bool>,
    topics: SlicePtr<BaseTopicEntitiy>,
    tags: SlicePtr<string>,
    publishedBy: SlicePtr<AddressableEntityRef>,
    datePublished: Option<string>,
    topicLinksJob: SlicePtr<AddressableEntityRef>)

  function BaseTopicEntitiyOf(m: Fields): BaseTopicEntitiy
  {
    BaseTopicEntitiy(StringField(m, "name"))
  }

  function BaseTopicEntitiyMap(t: BaseTopicEntitiy): Fields
  {
    PutString(map[], "name", t.name)
  }

  /** buildBaseTopicEntitiys: one entity per map element, `name` only when it is a string. */
  function BuildBaseTopicEntitiys(xs: seq<Value>): seq<BaseTopicEntitiy>
  {
    Built(xs, BaseTopicEntitiyOf)
  }

  /** flattenBaseTopicEntitiys: nil for no entities, else one map per entity holding its non-nil `name`. */
  function FlattenBaseTopicEntitiys(ts: seq<BaseTopicEntitiy>): Option<seq<Fields>>
  {
    Flattened(ts, BaseTopicEntitiyMap)
  }

  function TopicNameKept(m: Fields): Fields
  {
    Kept(m, {"name"}, {}, {})
  }

  lemma BaseTopicEntitiysFlattenAfterBuild(xs: seq<Value>)
    ensures FlattenBaseTopicEntitiys(BuildBaseTopicEntitiys(xs)) == Flattened(MapElements(xs), TopicNameKept)
  {
    forall m: Fields ensures BaseTopicEntitiyMap(BaseTopicEntitiyOf(m)) == TopicNameKept(m) {
      assert BaseTopicEntitiyMap(BaseTopicEntitiyOf(m)).Keys == TopicNameKept(m).Keys;
    }
    FlattenAfterBuild(xs, BaseTopicEntitiyOf, BaseTopicEntitiyMap, TopicNameKept);
  }

  lemma BaseTopicEntitiysBuildAfterFlatten(ts: seq<BaseTopicEntitiy>)
    ensures BuildBaseTopicEntitiys(ListItems(FlattenBaseTopicEntitiys(ts))) == ts
  {
    BuildAfterFlatten(ts, BaseTopicEntitiyMap, BaseTopicEntitiyOf, t => t);
  }

  /** getSpeechandtextanalyticsProgramsFromResourceData: `tags` is never sent. */
  function ProgramFromResourceData(d: Fields): Program
  {
    Program(
      Some(GetString(d, "name")),
      Some(GetString(d, "description")),
      Some(GetBool(d, "published")),
      Ptr(BuildBaseTopicEntitiys(GetList(d, "topics"))),
      Nil,
      Ptr(BuildAddressableEntityRefs(GetList(d, "published_by"))),
      Some(GetString(d, "date_published")),
      Ptr(BuildAddressableEntityRefs(GetList(d, "topic_links_job"))))
  }

  const ProgramKeys: set<string> :=
    {"name", "description", "published", "topics", "tags", "published_by", "date_published", "topic_links_job"}

  function ProgramEntry(p: Program, key: string): Option<Value>
  {
    if key == "name" then StringOf(p.name)
    else if key == "description" then StringOf(p.description)
    else if key == "published" then BoolOf(p.published)
    else if key == "topics" then ListOf(FlattenedField(p.topics, BaseTopicEntitiyMap))
    else if key == "tags" then StringsOf(p.tags)
    else if key == "published_by" then ListOf(FlattenedField(p.publishedBy, AddressableEntityRefMap))
    else if key == "date_published" then StringOf(p.datePublished)
    else if key == "topic_links_job" then ListOf(FlattenedField(p.topicLinksJob, AddressableEntityRefMap))
    else None
  }

  /** The setters of the read callback. */
  function ProgramReadBack(d: Fields, p: Program): Fields
  {
    Overwrite(d, ProgramKeys, k => ProgramEntry(p, k))
  }

  predicate ProgramFullySet(p: Program)
  {
    && p.name.Some? && p.description.Some? && p.published.Some? && p.topics.Ptr?
    && p.publishedBy.Ptr? && p.datePublished.Some? && p.topicLinksJob.Ptr?
  }

  lemma ProgramReadBackAt(d: Fields, p: Program, k: string)
    requires k in ProgramKeys
    ensures (k in ProgramReadBack(d, p)) == ProgramEntry(p, k).Some?
    ensures k in ProgramReadBack(d, p) ==> ProgramReadBack(d, p)[k] == ProgramEntry(p, k).value
  {
  }

  /**
   * A program read into the resource data and sent back as a request body is the
   * program that was read, except that its tags are not sent and both references
   * come back blank.
   */
  lemma ProgramRoundTripThroughResourceData(d: Fields, p: Program)
    requires ProgramFullySet(p)
    ensures ProgramFromResourceData(ProgramReadBack(d, p))
      == p.(tags := Nil, publishedBy := BlankedRefs(p.publishedBy), topicLinksJob := BlankedRefs(p.topicLinksJob))
  {
    ProgramReadBackAt(d, p, "name");
    ProgramReadBackAt(d, p, "description");
    ProgramReadBackAt(d, p, "published");
    ProgramReadBackAt(d, p, "topics");
    ProgramReadBackAt(d, p, "published_by");
    ProgramReadBackAt(d, p, "date_published");
    ProgramReadBackAt(d, p, "topic_links_job");
    BaseTopicEntitiysBuildAfterFlatten(p.topics.elems);
    AddressableEntityRefsRoundTrip(p.publishedBy.elems);
    AddressableEntityRefsRoundTrip(p.topicLinksJob.elems);
  }

  lemma ProgramIgnoresTags(d: Fields, v: Value)
    ensures ProgramFromResourceData(d["tags" := v]) == ProgramFromResourceData(d)
    ensures ProgramFromResourceData(d).tags == Nil
  {
  }
}
