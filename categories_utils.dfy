/**
 * Converters of the speech-and-text-analytics categories package: a category's
 * `criteria` is a tree of operands, each of which may hold terms, positions,
 * infix operators and further operands.
 */
module CategoriesUtils {
  import opened Wrappers
  import opened Attributes

  // ---------------------------------------------------------------------------
  // SDK records
  // ---------------------------------------------------------------------------

  datatype Term = Term(word: Option<string>, participantType: Option<string>)

  datatype OperandPosition = OperandPosition(
    startingPositionValue: Option<int>,
    startingPositionDirection: Option<string>,
    endingPositionValue: Option<int>,
    endingPositionDirection: Option<string>)

  datatype OperatorPosition = OperatorPosition(voiceSecondsPosition: Option<int>, digitalWordsPosition: Option<int>)

  datatype InfixOperator = InfixOperator(operatorType: Option<string>, operatorPosition: SlicePtr<OperatorPosition>)

  datatype Operand = Operand(
    operandType: Option<string>,
    occurrence: Option<int>,
    inverted: Option<bool>,
    term: SlicePtr<Term>,
    topicId: Option<string>,
    voiceSecondsPosition: SlicePtr<OperandPosition>,
    digitalWordsPosition: SlicePtr<OperandPosition>,
    infixOperator: SlicePtr<InfixOperator>,
    operands: SlicePtr<Operand>)

  datatype Stacategory = Stacategory(
    name: Option<string>,
    description: Option<string>,
    interactionType: Option<string>,
    criteria: SlicePtr<Operand>)

  // ---------------------------------------------------------------------------
  // Element converters, Terraform map -> SDK record
  // ---------------------------------------------------------------------------

  function TermOf(m: Fields): Term
  {
    Term(StringField(m, "word"), StringField(m, "participant_type"))
  }

  /** The two position values are asserted to be ints without a check. */
  predicate OperandPositionReady(m: Fields)
  {
    HasInt(m, "starting_position_value") && HasInt(m, "ending_position_value")
  }

  function OperandPositionOf(m: Fields): OperandPosition
    requires OperandPositionReady(m)
  {
    OperandPosition(
      Some(IntAt(m, "starting_position_value")),
      StringField(m, "starting_position_direction"),
      Some(IntAt(m, "ending_position_value")),
      StringField(m, "ending_position_direction"))
  }

  predicate OperatorPositionReady(m: Fields)
  {
    HasInt(m, "voice_seconds_position") && HasInt(m, "digital_words_position")
  }

  function OperatorPositionOf(m: Fields): OperatorPosition
    requires OperatorPositionReady(m)
  {
    OperatorPosition(Some(IntAt(m, "voice_seconds_position")), Some(IntAt(m, "digital_words_position")))
  }

  ghost predicate InfixOperatorReady(m: Fields)
  {
    NestedAccepts(m, "operator_position", OperatorPositionOf)
  }

  function InfixOperatorOf(m: Fields): InfixOperator
    requires InfixOperatorReady(m)
  {
    InfixOperator(StringField(m, "operator_type"), Nested(m, "operator_position", OperatorPositionOf))
  }

  /** Every map element of an operand list, and of every list nested in it, can be converted. */
  ghost predicate OperandsReady(xs: seq<Value>)
    decreases VList(xs), 0
  {
    forall i :: 0 <= i < |MapElements(xs)| ==> OperandReady(MapElements(xs)[i])
  }

  /** `occurrence` and `inverted` are asserted without a check; nested lists must be convertible. */
  ghost predicate OperandReady(m: Fields)
    decreases VMap(m), 1
  {
    && HasInt(m, "occurrence")
    && HasBool(m, "inverted")
    && NestedAccepts(m, "voice_seconds_position", OperandPositionOf)
    && NestedAccepts(m, "digital_words_position", OperandPositionOf)
    && NestedAccepts(m, "infix_operator", InfixOperatorOf)
    && (HasList(m, "operands") ==> OperandsReady(m["operands"].items))
  }

  /** buildOperands: one operand per map element, nested operands built the same way. */
  function BuildOperands(xs: seq<Value>): seq<Operand>
    requires OperandsReady(xs)
    decreases VList(xs), 0
  {
    var ms := MapElements(xs);
    seq(|ms|, i requires 0 <= i < |ms| => OperandOf(ms[i]))
  }

  function OperandOf(m: Fields): Operand
    requires OperandReady(m)
    decreases VMap(m), 1
  {
    Operand(
      StringField(m, "type"),
      Some(IntAt(m, "occurrence")),
      Some(BoolAt(m, "inverted")),
      Nested(m, "term", TermOf),
      StringField(m, "topic_id"),
      Nested(m, "voice_seconds_position", OperandPositionOf),
      Nested(m, "digital_words_position", OperandPositionOf),
      Nested(m, "infix_operator", InfixOperatorOf),
      if HasList(m, "operands") then Ptr(BuildOperands(m["operands"].items)) else Nil)
  }

  // ---------------------------------------------------------------------------
  // Element converters, SDK record -> Terraform map
  // ---------------------------------------------------------------------------

  function TermMap(t: Term): Fields
  {
    PutString(PutString(map[], "word", t.word), "participant_type", t.participantType)
  }

  function OperandPositionMap(p: OperandPosition): Fields
  {
    var m0 := PutInt(map[], "starting_position_value", p.startingPositionValue);
    var m1 := PutString(m0, "starting_position_direction", p.startingPositionDirection);
    var m2 := PutInt(m1, "ending_position_value", p.endingPositionValue);
    PutString(m2, "ending_position_direction", p.endingPositionDirection)
  }

  function OperatorPositionMap(p: OperatorPosition): Fields
  {
    PutInt(PutInt(map[], "voice_seconds_position", p.voiceSecondsPosition), "digital_words_position", p.digitalWordsPosition)
  }

  function InfixOperatorMap(x: InfixOperator): Fields
  {
    PutList(PutString(map[], "operator_type", x.operatorType),
      "operator_position", FlattenedField(x.operatorPosition, OperatorPositionMap))
  }

  /** flattenOperands: nil for no operands, else one map per operand, nested operands flattened the same way. */
  function FlattenOperands(ops: seq<Operand>): Option<seq<Fields>>
  {
    Flattened(ops, OperandMap)
  }

  const OperandKeys: set<string> :=
    {"type", "occurrence", "inverted", "term", "topic_id", "voice_seconds_position",
     "digital_words_position", "infix_operator", "operands"}

  /** One operand's map: every set field under its key, and nothing else. */
  function OperandMap(o: Operand): Fields
    decreases o, 2
  {
    map k | k in OperandKeys && OperandEntry(o, k).Some? :: OperandEntry(o, k).value
  }

  /** The value SetMapValueIfNotNil / SetMapInterfaceArrayWithFuncIfNotNil writes under `key`, if any. */
  function OperandEntry(o: Operand, key: string): Option<Value>
    decreases o, 1
  {
    if key == "type" then StringOf(o.operandType)
    else if key == "occurrence" then IntOf(o.occurrence)
    else if key == "inverted" then BoolOf(o.inverted)
    else if key == "term" then ListOf(FlattenedField(o.term, TermMap))
    else if key == "topic_id" then StringOf(o.topicId)
    else if key == "voice_seconds_position" then ListOf(FlattenedField(o.voiceSecondsPosition, OperandPositionMap))
    else if key == "digital_words_position" then ListOf(FlattenedField(o.digitalWordsPosition, OperandPositionMap))
    else if key == "infix_operator" then ListOf(FlattenedField(o.infixOperator, InfixOperatorMap))
    else if key == "operands" then ListOf(if o.operands.Ptr? then Some(FlattenedChildren(o)) else None)
    else None
  }

  /** The nested `operands` of an operand, flattened as FlattenOperands does. */
  function FlattenedChildren(o: Operand): Option<seq<Fields>>
    requires o.operands.Ptr?
    decreases o, 0
  {
    var cs := o.operands.elems;
    if |cs| == 0 then None else Some(seq(|cs|, i requires 0 <= i < |cs| => OperandMap(cs[i])))
  }

  // ---------------------------------------------------------------------------
  // The list converters, as the package names them
  // ---------------------------------------------------------------------------

  function BuildTerms(terms: seq<Value>): seq<Term>
  {
    Built(terms, TermOf)
  }

  function BuildOperandPositions(xs: seq<Value>): seq<OperandPosition>
    requires Accepts(xs, OperandPositionOf)
  {
    Built(xs, OperandPositionOf)
  }

  function BuildOperatorPositions(xs: seq<Value>): seq<OperatorPosition>
    requires Accepts(xs, OperatorPositionOf)
  {
    Built(xs, OperatorPositionOf)
  }

  function BuildInfixOperators(xs: seq<Value>): seq<InfixOperator>
    requires Accepts(xs, InfixOperatorOf)
  {
    Built(xs, InfixOperatorOf)
  }

  function FlattenTerms(ts: seq<Term>): Option<seq<Fields>>
  {
    Flattened(ts, TermMap)
  }

  function FlattenOperandPositions(ps: seq<OperandPosition>): Option<seq<Fields>>
  {
    Flattened(ps, OperandPositionMap)
  }

  function FlattenOperatorPositions(ps: seq<OperatorPosition>): Option<seq<Fields>>
  {
    Flattened(ps, OperatorPositionMap)
  }

  function FlattenInfixOperators(xs: seq<InfixOperator>): Option<seq<Fields>>
  {
    Flattened(xs, InfixOperatorMap)
  }

  // ---------------------------------------------------------------------------
  // Terraform side: flattening what was built keeps exactly the handled keys
  // ---------------------------------------------------------------------------

  function TermKept(m: Fields): Fields
  {
    Kept(m, {"word", "participant_type"}, {}, {})
  }

  /**
   * Flattening built terms gives one map per map element of the input, in order,
   * holding that element's string-valued `word` and `participant_type` and no
   * other key; no map element at all gives nil.
   */
  lemma TermsFlattenAfterBuild(xs: seq<Value>)
    ensures FlattenTerms(BuildTerms(xs)) == Flattened(MapElements(xs), TermKept)
  {
    forall m: Fields ensures TermMap(TermOf(m)) == TermKept(m) {
      assert TermMap(TermOf(m)).Keys == TermKept(m).Keys;
    }
    FlattenAfterBuild(xs, TermOf, TermMap, TermKept);
  }

  function OperandPositionKept(m: Fields): Fields
  {
    Kept(m, {"starting_position_direction", "ending_position_direction"}, {"starting_position_value", "ending_position_value"}, {})
  }

  /** The position values are written back under the keys they were read from; directions only when they were strings. */
  lemma OperandPositionsFlattenAfterBuild(xs: seq<Value>)
    requires Accepts(xs, OperandPositionOf)
    ensures FlattenOperandPositions(BuildOperandPositions(xs)) == Flattened(MapElements(xs), OperandPositionKept)
  {
    forall m: Fields | OperandPositionReady(m) ensures OperandPositionMap(OperandPositionOf(m)) == OperandPositionKept(m) {
      assert OperandPositionMap(OperandPositionOf(m)).Keys == OperandPositionKept(m).Keys;
    }
    FlattenAfterBuild(xs, OperandPositionOf, OperandPositionMap, OperandPositionKept);
  }

  function OperatorPositionKept(m: Fields): Fields
  {
    Kept(m, {}, {"voice_seconds_position", "digital_words_position"}, {})
  }

  lemma OperatorPositionsFlattenAfterBuild(xs: seq<Value>)
    requires Accepts(xs, OperatorPositionOf)
    ensures FlattenOperatorPositions(BuildOperatorPositions(xs)) == Flattened(MapElements(xs), OperatorPositionKept)
  {
    forall m: Fields | OperatorPositionReady(m) ensures OperatorPositionMap(OperatorPositionOf(m)) == OperatorPositionKept(m) {
      assert OperatorPositionMap(OperatorPositionOf(m)).Keys == OperatorPositionKept(m).Keys;
    }
    FlattenAfterBuild(xs, OperatorPositionOf, OperatorPositionMap, OperatorPositionKept);
  }

  // ---------------------------------------------------------------------------
  // SDK side: building what was flattened gives back the records
  // ---------------------------------------------------------------------------

  /** An operand position the builder can read back: both values are set. */
  predicate OperandPositionComplete(p: OperandPosition)
  {
    p.startingPositionValue.Some? && p.endingPositionValue.Some?
  }

  predicate OperatorPositionComplete(p: OperatorPosition)
  {
    p.voiceSecondsPosition.Some? && p.digitalWordsPosition.Some?
  }

  predicate InfixOperatorComplete(x: InfixOperator)
  {
    x.operatorPosition.Ptr? ==> forall p :: p in x.operatorPosition.elems ==> OperatorPositionComplete(p)
  }

  /** An operand tree the builder can read back: every operand sets `occurrence` and `inverted`. */
  predicate OperandComplete(o: Operand)
    decreases o
  {
    && o.occurrence.Some? && o.inverted.Some?
    && (o.voiceSecondsPosition.Ptr? ==> forall p :: p in o.voiceSecondsPosition.elems ==> OperandPositionComplete(p))
    && (o.digitalWordsPosition.Ptr? ==> forall p :: p in o.digitalWordsPosition.elems ==> OperandPositionComplete(p))
    && (o.infixOperator.Ptr? ==> forall x :: x in o.infixOperator.elems ==> InfixOperatorComplete(x))
    && (o.operands.Ptr? ==> forall c :: c in o.operands.elems ==> OperandComplete(c))
  }

  /** A nested field survives being flattened into a key and built back from it. */
  lemma NestedRoundTrip<T>(m: Fields, key: string, o: SlicePtr<T>, g: T -> Fields, f: Fields --> T)
    requires o.Ptr? ==> forall i :: 0 <= i < |o.elems| ==> f.requires(g(o.elems[i])) && f(g(o.elems[i])) == o.elems[i]
    ensures NestedAccepts(PutList(m - {key}, key, FlattenedField(o, g)), key, f)
    ensures Nested(PutList(m - {key}, key, FlattenedField(o, g)), key, f) == o
  {
    if o.Ptr? {
      BuildAfterFlatten(o.elems, g, f, t => t);
    }
  }

  lemma TermsBuildAfterFlatten(ts: seq<Term>)
    ensures BuildTerms(ListItems(FlattenTerms(ts))) == ts
  {
    BuildAfterFlatten(ts, TermMap, TermOf, t => t);
  }

  lemma OperandPositionsBuildAfterFlatten(ps: seq<OperandPosition>)
    requires forall p :: p in ps ==> OperandPositionComplete(p)
    ensures Accepts(ListItems(FlattenOperandPositions(ps)), OperandPositionOf)
    ensures BuildOperandPositions(ListItems(FlattenOperandPositions(ps))) == ps
  {
    forall i | 0 <= i < |ps|
      ensures OperandPositionReady(OperandPositionMap(ps[i])) && OperandPositionOf(OperandPositionMap(ps[i])) == ps[i]
    {
      assert ps[i] in ps;
    }
    BuildAfterFlatten(ps, OperandPositionMap, OperandPositionOf, p => p);
  }

  lemma OperatorPositionsBuildAfterFlatten(ps: seq<OperatorPosition>)
    requires forall p :: p in ps ==> OperatorPositionComplete(p)
    ensures Accepts(ListItems(FlattenOperatorPositions(ps)), OperatorPositionOf)
    ensures BuildOperatorPositions(ListItems(FlattenOperatorPositions(ps))) == ps
  {
    forall i | 0 <= i < |ps|
      ensures OperatorPositionReady(OperatorPositionMap(ps[i])) && OperatorPositionOf(OperatorPositionMap(ps[i])) == ps[i]
    {
      assert ps[i] in ps;
    }
    BuildAfterFlatten(ps, OperatorPositionMap, OperatorPositionOf, p => p);
  }

  lemma InfixOperatorsBuildAfterFlatten(xs: seq<InfixOperator>)
    requires forall x :: x in xs ==> InfixOperatorComplete(x)
    ensures Accepts(ListItems(FlattenInfixOperators(xs)), InfixOperatorOf)
    ensures BuildInfixOperators(ListItems(FlattenInfixOperators(xs))) == xs
  {
    forall i | 0 <= i < |xs|
      ensures InfixOperatorReady(InfixOperatorMap(xs[i])) && InfixOperatorOf(InfixOperatorMap(xs[i])) == xs[i]
    {
      var x := xs[i];
      assert x in xs;
      if x.operatorPosition.Ptr? {
        OperatorPositionsBuildAfterFlatten(x.operatorPosition.elems);
      }
    }
    BuildAfterFlatten(xs, InfixOperatorMap, InfixOperatorOf, x => x);
  }

  /** buildOperands is the generic build loop over OperandOf. */
  lemma BuildOperandsIsBuilt(xs: seq<Value>)
    requires OperandsReady(xs)
    ensures Accepts(xs, OperandOf) && BuildOperands(xs) == Built(xs, OperandOf)
  {
  }

  /**
   * Building an operand tree from its flattened form gives back the same tree,
   * at every depth.
   */
  lemma {:induction false} OperandRoundTrip(o: Operand)
    requires OperandComplete(o)
    ensures OperandReady(OperandMap(o)) && OperandOf(OperandMap(o)) == o
    decreases o, 1
  {
    OperandMapEntries(o);
    var m := OperandMap(o);
    if o.term.Ptr? {
      TermsBuildAfterFlatten(o.term.elems);
    }
    if o.voiceSecondsPosition.Ptr? {
      OperandPositionsBuildAfterFlatten(o.voiceSecondsPosition.elems);
    }
    if o.digitalWordsPosition.Ptr? {
      OperandPositionsBuildAfterFlatten(o.digitalWordsPosition.elems);
    }
    if o.infixOperator.Ptr? {
      InfixOperatorsBuildAfterFlatten(o.infixOperator.elems);
    }
    if o.operands.Ptr? {
      ChildrenRoundTrip(o);
    }
    assert OperandReady(m);
    assert OperandOf(m).term == o.term;
    assert OperandOf(m).voiceSecondsPosition == o.voiceSecondsPosition;
    assert OperandOf(m).digitalWordsPosition == o.digitalWordsPosition;
    assert OperandOf(m).infixOperator == o.infixOperator;
    assert OperandOf(m).operands == o.operands;
  }

  /** Where each field of an operand lands in its flattened map. */
  lemma OperandMapEntries(o: Operand)
    ensures var m := OperandMap(o);
      && StringField(m, "type") == o.operandType
      && (o.occurrence.Some? ==> HasInt(m, "occurrence") && m["occurrence"].i == o.occurrence.value)
      && (o.inverted.Some? ==> HasBool(m, "inverted") && m["inverted"].b == o.inverted.value)
      && StringField(m, "topic_id") == o.topicId
      && (HasList(m, "term") <==> o.term.Ptr?)
      && (o.term.Ptr? ==> m["term"] == ListValue(Flattened(o.term.elems, TermMap)))
      && (HasList(m, "voice_seconds_position") <==> o.voiceSecondsPosition.Ptr?)
      && (o.voiceSecondsPosition.Ptr? ==> m["voice_seconds_position"] == ListValue(Flattened(o.voiceSecondsPosition.elems, OperandPositionMap)))
      && (HasList(m, "digital_words_position") <==> o.digitalWordsPosition.Ptr?)
      && (o.digitalWordsPosition.Ptr? ==> m["digital_words_position"] == ListValue(Flattened(o.digitalWordsPosition.elems, OperandPositionMap)))
      && (HasList(m, "infix_operator") <==> o.infixOperator.Ptr?)
      && (o.infixOperator.Ptr? ==> m["infix_operator"] == ListValue(Flattened(o.infixOperator.elems, InfixOperatorMap)))
      && (HasList(m, "operands") <==> o.operands.Ptr?)
      && (o.operands.Ptr? ==> m["operands"] == ListValue(FlattenedChildren(o)))
  {
  }

  lemma {:induction false} ChildrenRoundTrip(o: Operand)
    requires o.operands.Ptr? && OperandComplete(o)
    ensures OperandsReady(ListItems(FlattenedChildren(o)))
    ensures BuildOperands(ListItems(FlattenedChildren(o))) == o.operands.elems
    decreases o, 0
  {
    var cs := o.operands.elems;
    forall i | 0 <= i < |cs|
      ensures OperandReady(OperandMap(cs[i])) && OperandOf(OperandMap(cs[i])) == cs[i]
    {
      OperandRoundTrip(cs[i]);
    }
    if |cs| > 0 {
      MapElementsOfMaps(FlattenedChildren(o).value);
    }
  }

  lemma OperandsBuildAfterFlatten(ops: seq<Operand>)
    requires forall o :: o in ops ==> OperandComplete(o)
    ensures OperandsReady(ListItems(FlattenOperands(ops)))
    ensures BuildOperands(ListItems(FlattenOperands(ops))) == ops
  {
    forall i | 0 <= i < |ops|
      ensures OperandReady(OperandMap(ops[i])) && OperandOf(OperandMap(ops[i])) == ops[i]
    {
      OperandRoundTrip(ops[i]);
    }
    BuildAfterFlatten(ops, OperandMap, OperandOf, o => o);
    var xs := ListItems(FlattenOperands(ops));
    assert OperandsReady(xs);
    BuildOperandsIsBuilt(xs);
    assert Built(xs, OperandOf) == ops;
  }

  // ---------------------------------------------------------------------------
  // The category as a whole
  // ---------------------------------------------------------------------------

  /** getSpeechandtextanalyticsCategoriesFromResourceData: the request body sent on create and update. */
  function CategoryFromResourceData(d: Fields): Stacategory
    requires OperandsReady(GetList(d, "criteria"))
  {
    Stacategory(
      Some(GetString(d, "name")),
      Some(GetString(d, "description")),
      Some(GetString(d, "interaction_type")),
      Ptr(BuildOperands(GetList(d, "criteria"))))
  }

  /** The setters of the read callback: each field, or a cleared attribute for a nil field. */
  function CategoryReadBack(d: Fields, c: Stacategory): Fields
  {
    var d1 := SetNillable(d, "name", StringOf(c.name));
    var d2 := SetNillable(d1, "description", StringOf(c.description));
    var d3 := SetNillable(d2, "interaction_type", StringOf(c.interactionType));
    SetNillable(d3, "criteria", ListOf(FlattenedField(c.criteria, OperandMap)))
  }

  /**
   * A category read into the resource data and sent back as a request body is the
   * category that was read, when every field it reads back is set.
   */
  lemma CategoryRoundTrip(d: Fields, c: Stacategory)
    requires c.name.Some? && c.description.Some? && c.interactionType.Some? && c.criteria.Ptr?
    requires forall o :: o in c.criteria.elems ==> OperandComplete(o)
    ensures OperandsReady(GetList(CategoryReadBack(d, c), "criteria"))
    ensures CategoryFromResourceData(CategoryReadBack(d, c)) == c
  {
    var r := CategoryReadBack(d, c);
    OperandsBuildAfterFlatten(c.criteria.elems);
    assert GetList(r, "criteria") == ListItems(FlattenOperands(c.criteria.elems));
  }
}
