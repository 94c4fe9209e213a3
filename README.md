# Genesys Cloud resource packages: converters, proxies and callbacks

The repository is a set of generated Terraform provider packages for Genesys
Cloud. Each package repeats one template:

- A `*_utils.go` file converts between Terraform's untyped attribute values and
  the SDK's records. `build…` converts a list of `map[string]interface{}` into
  records. `flatten…` converts records back into maps.
- A `*_proxy.go` file holds a cached proxy object. Its `getAll…Fn` walks the list
  endpoint page by page, and its `get…IdByNameFn` looks an entity up by name.
- A resource file holds the create, read, update and delete callbacks. Their
  retry closures classify each API response, and `getAll…` builds the exporter's
  id-to-name map.
- A `data_source_*.go` file resolves a name to an ID.

This project models those pieces in Dafny and proves what they do.

- **Untyped side.** Attribute values are a `Value` datatype with maps
  `Fields = map<string, Value>`.
- **SDK side.** Records are datatypes whose pointer fields are `Option<T>`, or
  `SlicePtr<T>` for a pointer to a slice.
- **Converters.** Every converter is a function. The loops that all of them share
  are the methods `Attributes.BuildEach` and `Attributes.FlattenEach`. Both are
  proved equal to those functions.
- **Resource data.** The resource data is a class with an ID and attributes. The
  read callback's run of `SetNillable…` setters is one function per entity
  (`…ReadBack`).
- **SDK calls.** Every SDK call is a parameter: the response it got, or the
  sequence of responses the successive attempts of a retry loop got.

Modules, one per file:

| module | file | models |
|---|---|---|
| `Wrappers` | wrappers.dfy | `Option`, and `SlicePtr`, a nil-able pointer to a slice |
| `Attributes` | attributes.dfy | `Value`s; the `resourcedata` helpers for maps and for `d.Get`/`SetNillable…`; the generic build and flatten loops and their round-trip laws |
| `CategoriesUtils` | categories_utils.dfy | terms, positions, infix operators, recursive operands, and the category request body |
| `MinersUtils` | miners_utils.dfy | error infos, draft intents, draft topics, drafts and miners; these nest mutually through slices |
| `EntityRefs` | entity_refs.dfy | `buildAddressableEntityRefs`/`flattenAddressableEntityRefs`, which the topics, programs and settings packages each copy |
| `TopicsUtils` | topics_utils.dfy | program entities, phrases, and the topic request body |
| `ProgramsUtils` | programs_utils.dfy | topic entities, and the program request body |
| `SettingsUtils` | settings_utils.dfy | the speech-and-text-analytics settings request body |
| `Resources` | resources.dfy | the request bodies that the organization presence definition, sentiment feedback and recording settings resource files build themselves |
| `Proxy` | proxy.dfy | the page loop of `getAll…Fn`, the name lookup, and the singleton getter |
| `Lifecycle` | lifecycle.dfy | the retry-closure decisions, the retry loop, create/read/update/delete, the no-op callbacks, the data source, and the export map |

Several packages share one generic member:

- **Proxies.** The seven proxy files share the same `getAll…Fn`, `get…IdByNameFn`
  and singleton getter; only the line numbers and entity names differ.
  - The model follows the dictionary feedback proxy line by line: `getAll…Fn` at
    lines 100-131, `get…IdByNameFn` at 134-152, the getter at 56-62.
  - All are modelled once, by `Proxy.GetAll`, `Proxy.IdByName` and
    `Proxy.ProxyCache.GetProxy`.
  - The model's entity is `Entity(id, name)`, which is all that the lookup, the
    exporter and the data source use.
- **Resource files.** The eight resource files' callbacks are the
  `Lifecycle.ResourceData` methods, `Lifecycle.Delete` and `Lifecycle.GetAllAuth`.
  - Each read callback is instantiated with that entity's setters: `CategoryReadBack`,
    `MinerReadBack`, `TopicReadBack`, `ProgramReadBack`, `SettingsReadBack`,
    `PresenceDefinitionReadBack` or `RecordingSettingsReadBack`.
  - The no-op callbacks are `Lifecycle.NoOp`. That is the miners update, the
    sentiment feedback read and update, and the create and delete of both
    settings resources.
  - The sentiment feedback create calls that no-op read; it is
    `Lifecycle.ResourceData.CreateWithNoOpRead`.
- **Data sources.** The seven data sources have identical bodies (lines 22-42)
  and are `Lifecycle.ResourceData.DataSourceRead`.

## Model

| member | source | states |
|---|---|---|
| `Attributes.MapElements` | output/speechandtextanalytics_categories/resource_genesyscloud_speechandtextanalytics_categories_utils.go:29-33 | the elements kept by the `.(map[string]interface{})` check are input elements, never more of them than the input has |
| `Attributes.MapElementsAppend` | output/speechandtextanalytics_categories/resource_genesyscloud_speechandtextanalytics_categories_utils.go:28-39 | skipping non-maps commutes with concatenation, so the kept maps stay in input order |
| `Attributes.MapElementsOfMaps` | output/speechandtextanalytics_categories/resource_genesyscloud_speechandtextanalytics_categories_utils.go:146-162 | a list made only of flattened maps loses nothing to the map check |
| `Attributes.Maps` | output/speechandtextanalytics_categories/resource_genesyscloud_speechandtextanalytics_categories_utils.go:158 | a flattened list stored as a value holds one element per map |
| `Attributes.StringValues` | output/languageunderstanding_miners/resource_genesyscloud_languageunderstanding_miners_utils.go:245 | a string slice written into a map reads back as the same strings |
| `Attributes.BuildEach` | output/speechandtextanalytics_categories/resource_genesyscloud_speechandtextanalytics_categories_utils.go:26-42 | the build loop returns, never nil, the conversion of exactly the map elements, in order |
| `Attributes.BuiltSnoc` | output/speechandtextanalytics_categories/resource_genesyscloud_speechandtextanalytics_categories_utils.go:28-38 | one loop step extends the built prefix by the converted element, or by nothing for a non-map |
| `Attributes.FlattenEach` | output/speechandtextanalytics_categories/resource_genesyscloud_speechandtextanalytics_categories_utils.go:146-162 | the flatten loop returns nil for no records, otherwise one map per record in order |
| `Attributes.FlattenedShape` | output/speechandtextanalytics_categories/resource_genesyscloud_speechandtextanalytics_categories_utils.go:147-149 | a flattened list is nil iff there are no records, and otherwise has exactly one map per record, in record order |
| `Attributes.BuildAfterFlatten` | output/speechandtextanalytics_categories/resource_genesyscloud_speechandtextanalytics_categories_utils.go:26-42 | building a flattened list gives back every record, up to the fields the element converter drops |
| `Attributes.FlattenAfterBuild` | output/speechandtextanalytics_categories/resource_genesyscloud_speechandtextanalytics_categories_utils.go:146-162 | flattening built records gives one map per map element of the input, reduced to the keys the converters keep; nil when there were none |
| `CategoriesUtils.TermsFlattenAfterBuild` | output/speechandtextanalytics_categories/resource_genesyscloud_speechandtextanalytics_categories_utils.go:26-42 | a term keeps only the string-valued `word` and `participant_type` of its map; absent keys stay absent |
| `CategoriesUtils.TermsBuildAfterFlatten` | output/speechandtextanalytics_categories/resource_genesyscloud_speechandtextanalytics_categories_utils.go:146-162 | terms survive a flatten and a build unchanged |
| `CategoriesUtils.OperandPositionsFlattenAfterBuild` | output/speechandtextanalytics_categories/resource_genesyscloud_speechandtextanalytics_categories_utils.go:45-63 | from maps holding the two position values as ints, the values come back under the same keys and the directions only when they are strings |
| `CategoriesUtils.OperandPositionsBuildAfterFlatten` | output/speechandtextanalytics_categories/resource_genesyscloud_speechandtextanalytics_categories_utils.go:165-183 | flattened operand positions carry the ints that the build reads unconditionally, and build back unchanged |
| `CategoriesUtils.OperatorPositionsFlattenAfterBuild` | output/speechandtextanalytics_categories/resource_genesyscloud_speechandtextanalytics_categories_utils.go:66-82 | the two int positions come back under their keys, and no other key |
| `CategoriesUtils.OperatorPositionsBuildAfterFlatten` | output/speechandtextanalytics_categories/resource_genesyscloud_speechandtextanalytics_categories_utils.go:186-202 | operator positions survive a flatten and a build unchanged |
| `CategoriesUtils.InfixOperatorsBuildAfterFlatten` | output/speechandtextanalytics_categories/resource_genesyscloud_speechandtextanalytics_categories_utils.go:205-221 | infix operators, with their nested positions, survive a flatten and a build unchanged |
| `CategoriesUtils.NestedRoundTrip` | output/speechandtextanalytics_categories/resource_genesyscloud_speechandtextanalytics_categories_utils.go:137 | a nested list flattened under a key builds back to the same pointer, and nil stays nil |
| `CategoriesUtils.BuildOperandsIsBuilt` | output/speechandtextanalytics_categories/resource_genesyscloud_speechandtextanalytics_categories_utils.go:120-143 | the recursive `buildOperands` is the generic build loop applied to operands, at every depth |
| `CategoriesUtils.OperandRoundTrip` | output/speechandtextanalytics_categories/resource_genesyscloud_speechandtextanalytics_categories_utils.go:240-263 | an operand tree, flattened and built back, is the same tree at every depth, and its map meets the build's unconditional reads |
| `CategoriesUtils.OperandMapEntries` | output/speechandtextanalytics_categories/resource_genesyscloud_speechandtextanalytics_categories_utils.go:248-258 | a flattened operand holds each set field under its key and no key for a nil field |
| `CategoriesUtils.ChildrenRoundTrip` | output/speechandtextanalytics_categories/resource_genesyscloud_speechandtextanalytics_categories_utils.go:137 | an operand's nested operands survive the flatten and build of their parent |
| `CategoriesUtils.OperandsBuildAfterFlatten` | output/speechandtextanalytics_categories/resource_genesyscloud_speechandtextanalytics_categories_utils.go:240-263 | a list of operand trees survives a flatten and a build unchanged |
| `CategoriesUtils.CategoryRoundTrip` | output/genesyscloud/speechandtextanalytics_categories/resource_genesyscloud_speechandtextanalytics_categories.go:79-82 | a fully set category written by the read setters and sent back as the request body is the category that was read |
| `MinersUtils.StringsRoundTrip` | output/languageunderstanding_miners/resource_genesyscloud_languageunderstanding_miners_utils.go:102 | a string slice written under a key reads back as the same slice, and nil as nil |
| `MinersUtils.ErrorInfosBuildAfterFlatten` | output/languageunderstanding_miners/resource_genesyscloud_languageunderstanding_miners_utils.go:180-198 | error infos come back from a flatten and a build without their `message_params`, and with nothing else changed |
| `MinersUtils.DraftIntentssBuildAfterFlatten` | output/languageunderstanding_miners/resource_genesyscloud_languageunderstanding_miners_utils.go:254-270 | draft intents, with their utterances, survive a flatten and a build unchanged |
| `MinersUtils.NestedErrorInfos` | output/languageunderstanding_miners/resource_genesyscloud_languageunderstanding_miners_utils.go:101 | an error-info pointer nested in a miner loses only `message_params` |
| `MinersUtils.MinerMapAt` | output/languageunderstanding_miners/resource_genesyscloud_languageunderstanding_miners_utils.go:223-246 | a flattened miner holds, under each of its twenty keys, the value of the field behind that key, and is absent exactly where the field is nil |
| `MinersUtils.MinerMapScalars` | output/languageunderstanding_miners/resource_genesyscloud_languageunderstanding_miners_utils.go:223-238 | where each string field of a miner lands in its flattened map |
| `MinersUtils.MinerMapCounts` | output/languageunderstanding_miners/resource_genesyscloud_languageunderstanding_miners_utils.go:239-244 | where the flags and the three counts land |
| `MinersUtils.MinerMapLists` | output/languageunderstanding_miners/resource_genesyscloud_languageunderstanding_miners_utils.go:235-246 | where the queue ids, the error and warning infos and the latest draft land |
| `MinersUtils.DraftMapEntries` | output/languageunderstanding_miners/resource_genesyscloud_languageunderstanding_miners_utils.go:297-315 | where each field of a draft lands in its flattened map |
| `MinersUtils.DraftTopicsMapEntries` | output/languageunderstanding_miners/resource_genesyscloud_languageunderstanding_miners_utils.go:273-294 | where each field of a draft topic lands, `conversation_percent` included |
| `MinersUtils.MinerRoundTrip` | output/languageunderstanding_miners/resource_genesyscloud_languageunderstanding_miners_utils.go:79-113 | a miner built from its flattened map is the miner at every depth, except for the error infos' `message_params` and the topics' `conversation_percent` |
| `MinersUtils.LatestDraftsRoundTrip` | output/languageunderstanding_miners/resource_genesyscloud_languageunderstanding_miners_utils.go:110 | a miner's latest draft version survives its flatten and build, up to the same two dropped fields |
| `MinersUtils.DraftRoundTrip` | output/languageunderstanding_miners/resource_genesyscloud_languageunderstanding_miners_utils.go:159-177 | a draft built from its flattened map is the draft, up to the two dropped fields |
| `MinersUtils.DraftMinersRoundTrip` | output/languageunderstanding_miners/resource_genesyscloud_languageunderstanding_miners_utils.go:172 | a draft's nested miners survive, up to the two dropped fields |
| `MinersUtils.DraftTopicsListRoundTrip` | output/languageunderstanding_miners/resource_genesyscloud_languageunderstanding_miners_utils.go:174 | a draft's topics survive, without `conversation_percent` |
| `MinersUtils.DraftTopicsRoundTrip` | output/languageunderstanding_miners/resource_genesyscloud_languageunderstanding_miners_utils.go:135-156 | a draft topic built from its flattened map is the topic without `conversation_percent` |
| `MinersUtils.TopicMinersRoundTrip` | output/languageunderstanding_miners/resource_genesyscloud_languageunderstanding_miners_utils.go:145 | a topic's nested miners survive, up to the two dropped fields |
| `MinersUtils.ConversationPercentLost` | output/languageunderstanding_miners/resource_genesyscloud_languageunderstanding_miners_utils.go:147 | a topic whose percentage is set does not survive a flatten and a build: the build never reads the key the flatten writes |
| `MinersUtils.ErrorInfosFlattenAfterBuild` | output/languageunderstanding_miners/resource_genesyscloud_languageunderstanding_miners_utils.go:42-60 | each map element's string-valued `message`, `code` and `message_with_params` come back, and no other key; none gives nil |
| `MinersUtils.StringValuesOfStrings` | output/languageunderstanding_miners/resource_genesyscloud_languageunderstanding_miners_utils.go:126 | a list of strings read as a string slice and written back is the same list |
| `MinersUtils.DraftIntentssFlattenAfterBuild` | output/languageunderstanding_miners/resource_genesyscloud_languageunderstanding_miners_utils.go:116-132 | a string `name` and a string-list `utterances` come back under the same keys, and no other key |
| `MinersUtils.MinerReadBackAt` | output/genesyscloud/languageunderstanding_miners/resource_genesyscloud_languageunderstanding_miners.go:79-98 | after the read setters each miner attribute holds its field's value, and is cleared for a nil field |
| `MinersUtils.MinerReadBackScalars` | output/genesyscloud/languageunderstanding_miners/resource_genesyscloud_languageunderstanding_miners.go:79-98 | what the request body reads back of each scalar attribute the setters wrote |
| `MinersUtils.MinerReadBackLists` | output/genesyscloud/languageunderstanding_miners/resource_genesyscloud_languageunderstanding_miners.go:79-98 | what the request body reads back of each list attribute the setters wrote |
| `MinersUtils.MinerRoundTripThroughResourceData` | output/languageunderstanding_miners/resource_genesyscloud_languageunderstanding_miners_utils.go:16-39 | a miner read into the resource data and sent back is that miner, without queue ids, `message_params` and `conversation_percent` |
| `MinersUtils.QueueIdsNeverSent` | output/languageunderstanding_miners/resource_genesyscloud_languageunderstanding_miners_utils.go:32 | the request body never carries queue ids, whatever the `queue_ids` attribute holds |
| `EntityRefs.BuildAddressableEntityRefs` | output/genesyscloud/speechandtextanalytics_topics/resource_genesyscloud_speechandtextanalytics_topics_utils.go:72-85 | one blank reference per map element; nothing is read from the maps |
| `EntityRefs.FlattenAddressableEntityRefs` | output/genesyscloud/speechandtextanalytics_topics/resource_genesyscloud_speechandtextanalytics_topics_utils.go:126-139 | nil iff there are no references; otherwise exactly one empty map per reference |
| `EntityRefs.BlankRefs` | output/genesyscloud/speechandtextanalytics_Programs/resource_genesyscloud_speechandtextanalytics_Programs_utils.go:48-61 | the result of building n maps: n blank references |
| `EntityRefs.AddressableEntityRefsRoundTrip` | output/genesyscloud/speechandtextanalytics_settings/resource_genesyscloud_speechandtextanalytics_settings_utils.go:26-55 | references survive a flatten and a build in number only |
| `EntityRefs.AddressableEntityRefsFlattenAfterBuild` | output/genesyscloud/speechandtextanalytics_Programs/resource_genesyscloud_speechandtextanalytics_Programs_utils.go:82-95 | maps survive a build and a flatten in number only, as empty maps; none gives nil |
| `EntityRefs.NestedRefs` | output/genesyscloud/speechandtextanalytics_topics/resource_genesyscloud_speechandtextanalytics_topics_utils.go:29 | a reference pointer written under a key and built back keeps its length, blanked |
| `TopicsUtils.PhrasesFlattenAfterBuild` | output/genesyscloud/speechandtextanalytics_topics/resource_genesyscloud_speechandtextanalytics_topics_utils.go:52-69 | each map element's string `text`, `strictness` and `sentiment` come back in order, and no other key; none gives nil |
| `TopicsUtils.PhrasesBuildAfterFlatten` | output/genesyscloud/speechandtextanalytics_topics/resource_genesyscloud_speechandtextanalytics_topics_utils.go:106-123 | phrases survive a flatten and a build unchanged |
| `TopicsUtils.BaseProgramEntitysFlattenAfterBuild` | output/genesyscloud/speechandtextanalytics_topics/resource_genesyscloud_speechandtextanalytics_topics_utils.go:34-49 | a program entity keeps only a string-valued `name` |
| `TopicsUtils.BaseProgramEntitysBuildAfterFlatten` | output/genesyscloud/speechandtextanalytics_topics/resource_genesyscloud_speechandtextanalytics_topics_utils.go:88-103 | program entities survive a flatten and a build unchanged |
| `TopicsUtils.TopicReadBackAt` | output/genesyscloud/speechandtextanalytics_topics/resource_genesyscloud_speechandtextanalytics_topics.go:79-90 | after the read setters each topic attribute holds its field's value, and is cleared for a nil field |
| `TopicsUtils.TopicRoundTripThroughResourceData` | output/genesyscloud/speechandtextanalytics_topics/resource_genesyscloud_speechandtextanalytics_topics_utils.go:16-31 | a topic read into the resource data and sent back is that topic, without tags and with its publisher reference blanked |
| `TopicsUtils.TopicIgnoresTags` | output/genesyscloud/speechandtextanalytics_topics/resource_genesyscloud_speechandtextanalytics_topics_utils.go:24 | the `tags` attribute never reaches the request body |
| `ProgramsUtils.BaseTopicEntitiysFlattenAfterBuild` | output/genesyscloud/speechandtextanalytics_Programs/resource_genesyscloud_speechandtextanalytics_Programs_utils.go:30-45 | a topic entity keeps only a string-valued `name` |
| `ProgramsUtils.BaseTopicEntitiysBuildAfterFlatten` | output/genesyscloud/speechandtextanalytics_Programs/resource_genesyscloud_speechandtextanalytics_Programs_utils.go:64-79 | topic entities survive a flatten and a build unchanged |
| `ProgramsUtils.ProgramReadBackAt` | output/genesyscloud/speechandtextanalytics_Programs/resource_genesyscloud_speechandtextanalytics_Programs.go:79-86 | after the read setters each program attribute holds its field's value, and is cleared for a nil field |
| `ProgramsUtils.ProgramRoundTripThroughResourceData` | output/genesyscloud/speechandtextanalytics_Programs/resource_genesyscloud_speechandtextanalytics_Programs_utils.go:16-27 | a program read into the resource data and sent back is that program, without tags and with both references blanked |
| `ProgramsUtils.ProgramIgnoresTags` | output/genesyscloud/speechandtextanalytics_Programs/resource_genesyscloud_speechandtextanalytics_Programs_utils.go:22 | the `tags` attribute never reaches the request body |
| `SettingsUtils.SettingsDetermined` | output/genesyscloud/speechandtextanalytics_settings/resource_genesyscloud_speechandtextanalytics_settings_utils.go:16-23 | the request body depends only on the two flags and on the number of map elements in `default_program`: resource data agreeing on those give the same body |
| `SettingsUtils.SettingsRoundTripThroughResourceData` | output/speechandtextanalytics_settings/resource_genesyscloud_speechandtextanalytics_settings.go:48-51 | settings read into the resource data and sent back keep both flags and the number of default-program references |
| `SettingsUtils.SettingsIgnoreExpectedDialects` | output/genesyscloud/speechandtextanalytics_settings/resource_genesyscloud_speechandtextanalytics_settings_utils.go:19 | the `expected_dialects` attribute never reaches the request body |
| `Resources.PresenceDefinitionRoundTrip` | output/organization_presence_definition/resource_genesyscloud_organization_presence_definition.go:79-83 | a definition read into the resource data and sent back is that definition, without language labels |
| `Resources.PresenceDefinitionIgnoresLanguageLabels` | output/organization_presence_definition/resource_genesyscloud_organization_presence_definition.go:136 | `language_labels` never reaches the request body |
| `Resources.PresenceDefinitionDivision` | output/organization_presence_definition/resource_genesyscloud_organization_presence_definition.go:138 | the body's division reference always carries the `division_id` attribute as its Id |
| `Resources.SentimentFeedbackSendsExactly` | output/genesyscloud/speechandtextanalytics_sentimentfeedback/resource_genesyscloud_speechandtextanalytics_sentimentfeedback.go:98-104 | the body always sets `phrase`, `dialect` and `feedback_value`, and no other attribute changes it |
| `Resources.SentimentFeedbackDetermined` | output/genesyscloud/speechandtextanalytics_sentimentfeedback/resource_genesyscloud_speechandtextanalytics_sentimentfeedback.go:100-102 | resource data agreeing on those three attributes give the same body |
| `Resources.RecordingSettingsRoundTrip` | output/genesyscloud/recording_settings/resource_genesyscloud_recording_settings.go:48-52 | settings read into the resource data and sent back by update are the settings that were read |
| `Resources.RecordingSettingsCopiesExactly` | output/genesyscloud/recording_settings/resource_genesyscloud_recording_settings.go:82-90 | the body always sets the five settings, and no other attribute changes it |
| `Proxy.GetAll` | output/genesyscloud/speechandtextanalytics_dictionaryfeedback/genesyscloud_speechandtextanalytics_dictionaryfeedback_proxy.go:100-131 | the page loop returns, and makes the calls of, the getAll specification over the endpoint's responses |
| `Proxy.ConcatCons` | output/genesyscloud/speechandtextanalytics_dictionaryfeedback/genesyscloud_speechandtextanalytics_dictionaryfeedback_proxy.go:125-127 | the appended pages split into the first page followed by the rest |
| `Proxy.LaterPagesCalls` | output/genesyscloud/speechandtextanalytics_dictionaryfeedback/genesyscloud_speechandtextanalytics_dictionaryfeedback_proxy.go:115-128 | from page n on, the loop makes no more calls than PageCount and at least n - 1 in all |
| `Proxy.GetAllCalls` | output/genesyscloud/speechandtextanalytics_dictionaryfeedback/genesyscloud_speechandtextanalytics_dictionaryfeedback_proxy.go:104-128 | getAll makes at least one and at most max(1, PageCount) calls |
| `Proxy.LaterPagesAllFull` | output/genesyscloud/speechandtextanalytics_dictionaryfeedback/genesyscloud_speechandtextanalytics_dictionaryfeedback_proxy.go:115-128 | when every later page has entities, all of them are appended after what was accumulated, in fetch order |
| `Proxy.GetAllAllPages` | output/organization_presence_definition/genesyscloud_organization_presence_definition_proxy.go:111-128 | when all PageCount pages have entities, the result is their concatenation in fetch order, after PageCount calls |
| `Proxy.LaterPagesStop` | output/genesyscloud/speechandtextanalytics_categories/genesyscloud_speechandtextanalytics_categories_proxy.go:116-123 | the loop ends at the first later page that is empty or fails, keeping or discarding what it had |
| `Proxy.GetAllStopsAt` | output/genesyscloud/speechandtextanalytics_dictionaryfeedback/genesyscloud_speechandtextanalytics_dictionaryfeedback_proxy.go:116-123 | an empty later page returns the pages before it; a failing one discards everything and returns its error |
| `Proxy.LaterPagesExtend` | output/genesyscloud/speechandtextanalytics_Programs/genesyscloud_speechandtextanalytics_Programs_proxy.go:115-128 | the loop only ever appends to what it accumulated |
| `Proxy.GetAllStartsWithFirstPage` | output/genesyscloud/speechandtextanalytics_topics/genesyscloud_speechandtextanalytics_topics_proxy.go:104-113 | a successful result starts with the first page's entities; a first-page error or an empty first page decide at once |
| `Proxy.Repeat` | output/genesyscloud/speechandtextanalytics_sentimentfeedback/genesyscloud_speechandtextanalytics_sentimentfeedback_proxy.go:99-112 | the list that n identical pages give holds n times as many entries |
| `Proxy.ConcatConstant` | output/genesyscloud/languageunderstanding_miners/genesyscloud_languageunderstanding_miners_proxy.go:107-120 | when every call returns the same page, the loop appends that page once per call |
| `Proxy.GetAllAsWrittenRepeats` | output/genesyscloud/speechandtextanalytics_dictionaryfeedback/genesyscloud_speechandtextanalytics_dictionaryfeedback_proxy.go:115-116 | as written, a list of more than one page comes back as its first page PageCount times |
| `Proxy.GetAllAsWrittenLosesEntities` | output/genesyscloud/speechandtextanalytics_dictionaryfeedback/genesyscloud_speechandtextanalytics_dictionaryfeedback_proxy.go:102 | as written, 101 entities come back without the 101st |
| `Proxy.ServerPageFull` | output/genesyscloud/speechandtextanalytics_dictionaryfeedback/genesyscloud_speechandtextanalytics_dictionaryfeedback_proxy.go:115 | every page numbered 1..PageCount of a non-empty list has entities |
| `Proxy.ConcatServer` | output/genesyscloud/speechandtextanalytics_dictionaryfeedback/genesyscloud_speechandtextanalytics_dictionaryfeedback_proxy.go:125-127 | pages 1..k of a list, concatenated, are its first k·100 entities |
| `Proxy.GetAllByPageNumberListsAll` | output/organization_presence_definition/genesyscloud_organization_presence_definition_proxy.go:115-116 | with the page number sent, the loop lists every entity exactly once, in order, in PageCount calls |
| `Proxy.FirstNamed` | output/genesyscloud/speechandtextanalytics_dictionaryfeedback/genesyscloud_speechandtextanalytics_dictionaryfeedback_proxy.go:144-148 | the index of the first entity with exactly the name, or the list length when none has it |
| `Proxy.IdByName` | output/genesyscloud/speechandtextanalytics_dictionaryfeedback/genesyscloud_speechandtextanalytics_dictionaryfeedback_proxy.go:134-152 | the lookup loop returns the triple of the lookup specification |
| `Proxy.FirstNamedIs` | output/organization_presence_definition/genesyscloud_organization_presence_definition_proxy.go:144-148 | an index with the name, and no earlier one, is the first match |
| `Proxy.IdByNameFound` | output/genesyscloud/speechandtextanalytics_categories/genesyscloud_speechandtextanalytics_categories_proxy.go:144-151 | the lookup succeeds iff some listed entity has the name, and then gives the first such entity's Id |
| `Proxy.IdByNameOutcomes` | output/genesyscloud/speechandtextanalytics_Programs/genesyscloud_speechandtextanalytics_Programs_proxy.go:135-151 | a list error is non-retryable with the error; an empty list is retryable with no error; no match is retryable with an error; the Id is empty unless found |
| `Proxy.ApiProxy.constructor` | output/genesyscloud/speechandtextanalytics_dictionaryfeedback/genesyscloud_speechandtextanalytics_dictionaryfeedback_proxy.go:40-52 | a new proxy keeps the configuration it was built from |
| `Proxy.ProxyCache.constructor` | output/genesyscloud/speechandtextanalytics_dictionaryfeedback/genesyscloud_speechandtextanalytics_dictionaryfeedback_proxy.go:17 | the package variable starts nil |
| `Proxy.ProxyCache.GetProxy` | output/genesyscloud/speechandtextanalytics_dictionaryfeedback/genesyscloud_speechandtextanalytics_dictionaryfeedback_proxy.go:56-62 | a proxy is built, from the given configuration, only while none is cached; afterwards the cached one is returned unchanged |
| `Proxy.GetProxyTwice` | output/genesyscloud/speechandtextanalytics_topics/genesyscloud_speechandtextanalytics_topics_proxy.go:56-62 | two getter calls return the same instance, built from the first configuration |
| `Lifecycle.ReadAttempt` | output/organization_presence_definition/resource_genesyscloud_organization_presence_definition.go:72-77 | a read attempt is done iff found, retries iff 404, and is fatal with the error for any other error |
| `Lifecycle.DeletePollAttempt` | output/organization_presence_definition/resource_genesyscloud_organization_presence_definition.go:118-128 | a delete poll is done iff 404, fatal for any other error, and retries while the entity is still found |
| `Lifecycle.Poll` | output/genesyscloud/speechandtextanalytics_topics/resource_genesyscloud_speechandtextanalytics_topics.go:124-136 | the retry loop returns what the retry specification gives |
| `Lifecycle.FirstDecided` | output/genesyscloud/speechandtextanalytics_Programs/resource_genesyscloud_speechandtextanalytics_Programs.go:120-131 | the first attempt that does not ask for a retry |
| `Lifecycle.RetriedIsFirstDecided` | output/genesyscloud/speechandtextanalytics_categories/resource_genesyscloud_speechandtextanalytics_categories.go:116-127 | the retry loop's outcome is that of the first attempt that does not retry, or a timeout |
| `Lifecycle.RetriedOutcomes` | output/genesyscloud/languageunderstanding_miners/resource_genesyscloud_languageunderstanding_miners.go:120-132 | the loop succeeds iff some attempt is done after only retries; times out iff all retry; fails only with a fatal attempt's error |
| `Lifecycle.DeletePollAttempts` | output/genesyscloud/speechandtextanalytics_sentimentfeedback/resource_genesyscloud_speechandtextanalytics_sentimentfeedback.go:82-94 | one poll decision per GET response, in order |
| `Lifecycle.Delete` | output/speechandtextanalytics_dictionaryfeedback/resource_genesyscloud_speechandtextanalytics_dictionaryfeedback.go:109-131 | the delete callback returns what the delete specification gives |
| `Lifecycle.DeleteSucceeds` | output/organization_presence_definition/resource_genesyscloud_organization_presence_definition.go:112-129 | delete succeeds iff the DELETE succeeded and a poll answered 404 after only polls that still found it; a failed DELETE returns its error without polling |
| `Lifecycle.ReadAttempts` | output/speechandtextanalytics_dictionaryfeedback/resource_genesyscloud_speechandtextanalytics_dictionaryfeedback.go:70-77 | one read decision per GET response, in order |
| `Lifecycle.ReadSpecIsRetried` | output/genesyscloud/speechandtextanalytics_topics/resource_genesyscloud_speechandtextanalytics_topics.go:70-93 | the read callback's diagnostics are the retry loop's; the attributes change only by the setters of the first record found |
| `Lifecycle.ResourceData.constructor` | output/genesyscloud/speechandtextanalytics_topics/resource_genesyscloud_speechandtextanalytics_topics.go:45-60 | new resource data has no ID |
| `Lifecycle.ResourceData.Read` | output/genesyscloud/languageunderstanding_miners/resource_genesyscloud_languageunderstanding_miners.go:63-103 | the read loop leaves the diagnostics and attributes of the read specification, and keeps the ID |
| `Lifecycle.ResourceData.Create` | output/organization_presence_definition/resource_genesyscloud_organization_presence_definition.go:52-59 | a failed POST returns its error with ID and attributes untouched; a successful one sets the ID to the created Id, then reads |
| `Lifecycle.ResourceData.CreateWithNoOpRead` | output/genesyscloud/speechandtextanalytics_sentimentfeedback/resource_genesyscloud_speechandtextanalytics_sentimentfeedback.go:52-59 | the ID is set only after a successful POST, and the no-op read then succeeds |
| `Lifecycle.ResourceData.Update` | output/genesyscloud/speechandtextanalytics_categories/resource_genesyscloud_speechandtextanalytics_categories.go:97-103 | a failed PUT returns its error without reading; a successful one reads; the ID never changes |
| `Lifecycle.ResourceData.DataSourceRead` | output/languageunderstanding_miners/data_source_genesyscloud_languageunderstanding_miners.go:22-42 | with a fresh proxy and the cached one untouched, the data source leaves the outcome of the data-source specification |
| `Lifecycle.NoOp` | output/genesyscloud/recording_settings/resource_genesyscloud_recording_settings.go:27-29 | a no-op callback succeeds without any call |
| `Lifecycle.DataSourceAttempt` | output/genesyscloud/speechandtextanalytics_dictionaryfeedback/data_source_genesyscloud_speechandtextanalytics_dictionaryfeedback.go:31-40 | an error that is not retryable stops; retryable retries with or without an error; otherwise the ID is set to the found Id |
| `Lifecycle.DataSourceAfterLookup` | output/speechandtextanalytics_topics/data_source_genesyscloud_speechandtextanalytics_topics.go:29-40 | an attempt stops iff the list call failed, and finds an Id iff some listed entity has the name, the first one's |
| `Lifecycle.DataSourceFindsNamed` | output/organization_presence_definition/data_source_genesyscloud_organization_presence_definition.go:28-41 | a successful data source's ID is the Id of a listed entity with exactly that name; otherwise the ID is unchanged |
| `Lifecycle.GetAllAuth` | output/organization_presence_definition/resource_genesyscloud_organization_presence_definition.go:28-42 | the exporter's map is the export specification of the list a fresh proxy's getAll returns; a list error gives no map |
| `Lifecycle.ExportOfKeys` | output/genesyscloud/speechandtextanalytics_topics/resource_genesyscloud_speechandtextanalytics_topics.go:37-39 | the exported Ids are exactly the listed Ids |
| `Lifecycle.ExportOfLast` | output/speechandtextanalytics_dictionaryfeedback/resource_genesyscloud_speechandtextanalytics_dictionaryfeedback.go:37-39 | an Id maps to the Name of the last listed entity with that Id |

## Left out

- The SDK and HTTP, authentication and the consistency checker are outside the model. Each SDK call's result is a parameter, and `cc.CheckState` is taken to pass.
- `util.WithRetries` and `util.WithRetriesForRead` are modelled as a loop over the responses received before the timeout. Wall-clock timeouts, sleeps, and the removal of the resource from state when a read times out are not modelled.
- Logging and diagnostic message text are not modelled, and neither are the nil-pointer panics in the log lines and the code around them. In each case below, Go panics where the model succeeds:
  - The log lines of the sentiment feedback create and of both settings updates dereference a `Name` that the request body never sets. Whether the SDK record even has such a field cannot be seen from this source.
  - Every read callback logs `*….Name` of the record it received: topics line 92, categories 84, programs 88, miners 100, presence definition 85, dictionary feedback 86, recording settings 54 and settings 53. `Lifecycle.ResourceData.Read` also succeeds for a record whose name is nil.
  - Every create dereferences `*….Id` of the created record, for `d.SetId` and for its log line (lines 57-58). The POST outcome of `Lifecycle.ResourceData.Create` always carries an Id.
  - Every proxy's page loop dereferences `*….PageCount` (line 115 of each proxy). `Proxy.PageResponse.pageCount` is an `int` and is never nil.
- The unsynchronised assignment of the package's proxy is modelled sequentially.
- Floating point: `conversation_percent` is a `real`, because only its presence matters.
- Integers are unbounded. No converter does arithmetic, so no width is modelled.
- `d.Get(key).(T)` is modelled as the zero value for an unset attribute. The schema guarantees the type, so the panic of a failed assertion is not modelled. Inside list elements, the converters' unconditional assertions are preconditions (`…Ready`).
- The first, field-less definitions of `buildOperands`/`flattenOperands` and `buildDrafts`/`flattenDrafts` are duplicate Go definitions and do not compile. Only the full definitions are modelled.
- The converters call single-record functions that are not defined in the source. Each is modelled by the slice converter of the same record, so the field it fills is a `SlicePtr`:
  - categories: `buildOperand` (utils line 21) and `flattenOperand` (resource line 82) for the category's `criteria`; `buildTerm`/`flattenTerm` (132/252), `buildOperandPosition`/`flattenOperandPosition` (134-135/254-255) and `buildInfixOperator`/`flattenInfixOperator` (136/256) for an operand's `term`, positions and `infix_operator`; `buildOperatorPosition`/`flattenOperatorPosition` (95/215) for an infix operator's `operator_position`.
  - miners: `buildMinerErrorInfo`/`flattenMinerErrorInfo` (utils lines 27-28, 97-98 and 235-236; resource lines 88-89) for `error_info` and `warning_info`; `buildDraft`/`flattenDraft` (34, 104, 242; resource line 95) for `latest_draft_version`; `buildMiner`/`flattenMiner` (145, 169, 283, 307) for the `miner` of a draft and of a topic.
  - topics, programs and settings: `buildAddressableEntityRef` and `flattenAddressableEntityRef` for `published_by`, `topic_links_job` and `default_program`.
- The dictionary feedback's request mapping and its `flattenDictionaryFeedbackExamplePhrases` are not part of this model. Only its callbacks' control flow is modelled. The sentiment feedback delete poll calls a `…ById` that its proxy does not define; the model uses the generic poll.
- The `resourcedata` helpers are modelled with this contract, which every round trip through the resource data rests on (`CategoryRoundTrip`, `MinerRoundTripThroughResourceData`, `TopicRoundTripThroughResourceData`, `ProgramRoundTripThroughResourceData`, `SettingsRoundTripThroughResourceData`, `PresenceDefinitionRoundTrip`, `RecordingSettingsRoundTrip`). Their Go bodies are not part of this model.
  - `BuildSDKStringValueIfNotNil` (`Attributes.StringField`) sets the field iff the key holds a string, the empty string included. An absent key, or one holding another type, leaves the field nil.
  - A `SetNillable…` setter (`Attributes.Overwrite`) stores a set field's value and clears the attribute for a nil field.
  - The resource data hands nested list elements back exactly as the setters wrote them. Terraform's `d.Get` fills the unset keys of a schema with zero values, and that filling is not modelled.
- `Proxy.IdByName`: the lookup reads only the first page of the list, as the source does. Entities with a nil `Name` or `Id` would panic in Go; the model's entities always have both.
- The schema and registrar files, the tests, and the thin settings and recording-settings proxies hold no logic of their own.

## Findings

| source | as written | input that shows it | evidently intended | confidence | as-written member | corrected member |
|---|---|---|---|---|---|---|
| output/genesyscloud/speechandtextanalytics_dictionaryfeedback/genesyscloud_speechandtextanalytics_dictionaryfeedback_proxy.go:115-116 | every later call of the page loop is the same request, with no page number, so the declared `pageSize` is never used (the same in all seven proxies) | 101 entities, one server page of 100, PageCount = 2: the result is the first 100 entities twice, and entity 101 is missing | the call for `pageNum` requests page `pageNum` (of size 100), so every entity is listed once | medium; not executed; it assumes the endpoint answers a request without a page number with page 1 | `Proxy.GetAllAsWrittenRepeats` | `Proxy.GetAllByPageNumberListsAll` |
