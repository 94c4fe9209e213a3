/**
 * The untyped side of every generated converter: Terraform hands a nested block
 * to the provider as `[]interface{}` whose elements are `map[string]interface{}`,
 * and the provider hands back values of the same shape.
 *
 * This module holds that value type, the reading and writing helpers of the
 * provider's `resourcedata` package as the converters use them, and the one loop
 * every `build…` and `flatten…` converter runs.
 */
module Attributes {
  import opened Wrappers

  /** A Terraform attribute value as an `interface{}` holds it. */
  datatype Value =
    | VString(s: string)
    | VInt(i: int)
    | VBool(b: bool)
    | VFloat(f: real)
    | VList(items: seq<Value>)
    | VMap(fields: map<string, Value>)

  /** One element of a nested block: `map[string]interface{}`. */
  type Fields = map<string, Value>

  // ---------------------------------------------------------------------------
  // The type assertion `elem.(map[string]interface{})` of every build loop
  // ---------------------------------------------------------------------------

  /** The elements of a list that are maps, in list order; every other element is skipped. */
  function MapElements(xs: seq<Value>): (r: seq<Fields>)
    ensures |r| <= |xs|
    ensures forall i :: 0 <= i < |r| ==> VMap(r[i]) in xs
  {
    if xs == [] then [] else (if xs[0].VMap? then [xs[0].fields] else []) + MapElements(xs[1..])
  }

  /** Skipping elements commutes with concatenation: the kept maps keep their relative order. */
  lemma {:induction false} MapElementsAppend(xs: seq<Value>, ys: seq<Value>)
    ensures MapElements(xs + ys) == MapElements(xs) + MapElements(ys)
  {
    if xs == [] {
      assert xs + ys == ys;
    } else {
      assert (xs + ys)[1..] == xs[1..] + ys;
      MapElementsAppend(xs[1..], ys);
    }
  }

  /** A list that holds only maps loses nothing. */
  lemma {:induction false} MapElementsOfMaps(ms: seq<Fields>)
    ensures MapElements(Maps(ms)) == ms
  {
    if ms != [] {
      assert Maps(ms)[1..] == Maps(ms[1..]);
      MapElementsOfMaps(ms[1..]);
    }
  }

  /** Map elements as list elements: what `[]interface{}` of flattened maps holds. */
  function Maps(ms: seq<Fields>): (r: seq<Value>)
    ensures |r| == |ms|
  {
    seq(|ms|, i requires 0 <= i < |ms| => VMap(ms[i]))
  }

  /** The list a flatten result becomes once it is stored: a nil result is an empty list. */
  function ListItems(o: Option<seq<Fields>>): seq<Value>
  {
    if o.None? then [] else Maps(o.value)
  }

  function ListValue(o: Option<seq<Fields>>): Value
  {
    VList(ListItems(o))
  }

  // ---------------------------------------------------------------------------
  // Reading one element (resourcedata.BuildSDK…IfNotNil and direct assertions)
  // ---------------------------------------------------------------------------

  predicate HasString(m: Fields, key: string) { key in m && m[key].VString? }
  predicate HasInt(m: Fields, key: string) { key in m && m[key].VInt? }
  predicate HasBool(m: Fields, key: string) { key in m && m[key].VBool? }
  predicate HasList(m: Fields, key: string) { key in m && m[key].VList? }

  /** BuildSDKStringValueIfNotNil: the field is set only when the key holds a string. */
  function StringField(m: Fields, key: string): Option<string>
  {
    if HasString(m, key) then Some(m[key].s) else None
  }

  /** A list of strings; any other element makes the whole value unusable. */
  predicate IsStringList(v: Value)
  {
    v.VList? && forall i :: 0 <= i < |v.items| ==> v.items[i].VString?
  }

  function Strings(v: Value): seq<string>
    requires IsStringList(v)
  {
    seq(|v.items|, i requires 0 <= i < |v.items| => v.items[i].s)
  }

  /** BuildSDKStringArrayValueIfNotNil: set only when the key holds a list of strings. */
  function StringsField(m: Fields, key: string): SlicePtr<string>
  {
    if key in m && IsStringList(m[key]) then Ptr(Strings(m[key])) else Nil
  }

  /** The unconditional assertion `m[key].(int)`, which panics unless the key holds an int. */
  function IntAt(m: Fields, key: string): int
    requires HasInt(m, key)
  {
    m[key].i
  }

  /** The unconditional assertion `m[key].(bool)`. */
  function BoolAt(m: Fields, key: string): bool
    requires HasBool(m, key)
  {
    m[key].b
  }

  /** `m[key].([]interface{})` guarded by the `ok` of the assertion. */
  function ListField(m: Fields, key: string): Option<seq<Value>>
  {
    if HasList(m, key) then Some(m[key].items) else None
  }

  // ---------------------------------------------------------------------------
  // Writing one element (resourcedata.SetMap…IfNotNil): a nil field writes no key
  // ---------------------------------------------------------------------------

  function PutString(m: Fields, key: string, o: Option<string>): Fields
  {
    if o.Some? then m[key := VString(o.value)] else m
  }

  function PutInt(m: Fields, key: string, o: Option<int>): Fields
  {
    if o.Some? then m[key := VInt(o.value)] else m
  }

  function PutBool(m: Fields, key: string, o: Option<bool>): Fields
  {
    if o.Some? then m[key := VBool(o.value)] else m
  }

  function PutFloat(m: Fields, key: string, o: Option<real>): Fields
  {
    if o.Some? then m[key := VFloat(o.value)] else m
  }

  function StringValues(ss: seq<string>): (r: Value)
    ensures IsStringList(r) && Strings(r) == ss
  {
    VList(seq(|ss|, i requires 0 <= i < |ss| => VString(ss[i])))
  }

  /** SetMapStringArrayValueIfNotNil. */
  function PutStrings(m: Fields, key: string, o: SlicePtr<string>): Fields
  {
    if o.Ptr? then m[key := StringValues(o.elems)] else m
  }

  /**
   * SetMapInterfaceArrayWithFuncIfNotNil: when the field is set, the key gets the
   * flattened list, which is empty when the flatten function returned nil.
   */
  function PutList(m: Fields, key: string, o: Option<Option<seq<Fields>>>): Fields
  {
    if o.Some? then m[key := ListValue(o.value)] else m
  }

  /**
   * The entries of m at the given keys whose values have the type the converter
   * expects there: what survives a build followed by a flatten.
   */
  function Kept(m: Fields, strings: set<string>, ints: set<string>, bools: set<string>): Fields
  {
    map k | k in m && ((k in strings && m[k].VString?) || (k in ints && m[k].VInt?) || (k in bools && m[k].VBool?)) :: m[k]
  }

  // ---------------------------------------------------------------------------
  // Nested blocks inside one element
  // ---------------------------------------------------------------------------

  /** A nested list, when the key holds one, meets the element converter's precondition. */
  ghost predicate NestedAccepts<T>(m: Fields, key: string, f: Fields --> T)
  {
    HasList(m, key) ==> Accepts(m[key].items, f)
  }

  /** BuildSDKInterfaceArrayValueIfNotNil: the field is set only when the key holds a list. */
  function Nested<T>(m: Fields, key: string, f: Fields --> T): SlicePtr<T>
    requires NestedAccepts(m, key, f)
  {
    if HasList(m, key) then Ptr(Built(m[key].items, f)) else Nil
  }

  /** The argument SetMapInterfaceArrayWithFuncIfNotNil passes on: nothing for a nil field. */
  function FlattenedField<T>(o: SlicePtr<T>, g: T -> Fields): Option<Option<seq<Fields>>>
  {
    if o.Ptr? then Some(Flattened(o.elems, g)) else None
  }

  // ---------------------------------------------------------------------------
  // The resource data `d`: d.Get and the resourcedata.SetNillable… setters
  // ---------------------------------------------------------------------------

  /** `d.Get(key).(string)`: an unset attribute reads as the zero value. */
  function GetString(d: Fields, key: string): string
  {
    if HasString(d, key) then d[key].s else ""
  }

  function GetInt(d: Fields, key: string): int
  {
    if HasInt(d, key) then d[key].i else 0
  }

  function GetBool(d: Fields, key: string): bool
  {
    if HasBool(d, key) then d[key].b else false
  }

  /** `d.Get(key).([]interface{})` of a list attribute: unset reads as the empty list. */
  function GetList(d: Fields, key: string): seq<Value>
  {
    if HasList(d, key) then d[key].items else []
  }

  /** SetNillableValue and its variants: a nil field clears the attribute. */
  function SetNillable(d: Fields, key: string, o: Option<Value>): Fields
  {
    if o.Some? then d[key := o.value] else d - {key}
  }

  function StringOf(o: Option<string>): Option<Value>
  {
    if o.Some? then Some(VString(o.value)) else None
  }

  function IntOf(o: Option<int>): Option<Value>
  {
    if o.Some? then Some(VInt(o.value)) else None
  }

  function BoolOf(o: Option<bool>): Option<Value>
  {
    if o.Some? then Some(VBool(o.value)) else None
  }

  function FloatOf(o: Option<real>): Option<Value>
  {
    if o.Some? then Some(VFloat(o.value)) else None
  }

  function StringsOf(o: SlicePtr<string>): Option<Value>
  {
    if o.Ptr? then Some(StringValues(o.elems)) else None
  }

  /**
   * A record's fields written as a whole: each key of `keys` holds the value its
   * field gives, and a key whose field is nil is absent. Used both for a flattened
   * map (from the empty map) and for the read callback's run of SetNillable…
   * setters (from the resource data, whose other attributes stay untouched).
   */
  function Overwrite(d: Fields, keys: set<string>, entry: string -> Option<Value>): Fields
  {
    map k | k in d.Keys + keys && (k in keys ==> entry(k).Some?) :: if k in keys then entry(k).value else d[k]
  }

  /** SetNillableValueWithInterfaceArrayWithFunc: a set field stores its flattened list. */
  function ListOf(o: Option<Option<seq<Fields>>>): Option<Value>
  {
    if o.Some? then Some(ListValue(o.value)) else None
  }

  // ---------------------------------------------------------------------------
  // The two loops every converter runs
  // ---------------------------------------------------------------------------

  /** Every map element of the list meets the converter's precondition. */
  ghost predicate Accepts<T>(xs: seq<Value>, f: Fields --> T)
  {
    forall i :: 0 <= i < |MapElements(xs)| ==> f.requires(MapElements(xs)[i])
  }

  /** What a `build…` converter returns: one record per map element, in order. */
  function Built<T>(xs: seq<Value>, f: Fields --> T): seq<T>
    requires Accepts(xs, f)
  {
    var ms := MapElements(xs);
    seq(|ms|, i requires 0 <= i < |ms| => f(ms[i]))
  }

  /** What a `flatten…` converter returns: nil for an empty input, else one map per record. */
  function Flattened<T>(ts: seq<T>, g: T -> Fields): Option<seq<Fields>>
  {
    if |ts| == 0 then None else Some(seq(|ts|, i requires 0 <= i < |ts| => g(ts[i])))
  }

  /**
   * The loop of every `build…` converter: start from an empty, non-nil slice and
   * append the conversion of each element that is a map.
   */
  method BuildEach<T>(xs: seq<Value>, f: Fields --> T) returns (r: seq<T>)
    requires Accepts(xs, f)
    ensures r == Built(xs, f)
  {
    r := [];
    var n := 0;
    while n < |xs|
      invariant 0 <= n <= |xs|
      invariant Accepts(xs[..n], f)
      invariant r == Built(xs[..n], f)
    {
      BuiltSnoc(xs, n, f);
      if xs[n].VMap? {
        r := r + [f(xs[n].fields)];
      }
      n := n + 1;
    }
    assert xs[..n] == xs;
  }

  /** One step of the build loop: the prefix grows by one element. */
  lemma BuiltSnoc<T>(xs: seq<Value>, n: nat, f: Fields --> T)
    requires n < |xs|
    requires Accepts(xs, f)
    ensures Accepts(xs[..n + 1], f)
    ensures Accepts(xs[..n], f)
    ensures xs[n].VMap? ==> f.requires(xs[n].fields)
    ensures Built(xs[..n + 1], f) == Built(xs[..n], f) + (if xs[n].VMap? then [f(xs[n].fields)] else [])
  {
    var a, b, c := xs[..n], [xs[n]], xs[n + 1..];
    assert xs[..n + 1] == a + b;
    assert xs == a + b + c;
    MapElementsAppend(a, b);
    MapElementsAppend(a + b, c);
    assert b[1..] == [];
    assert MapElements(b) == (if xs[n].VMap? then [xs[n].fields] else []);
    var all := MapElements(xs);
    assert all == MapElements(a) + MapElements(b) + MapElements(c);
    assert forall i :: 0 <= i < |MapElements(a + b)| ==> MapElements(a + b)[i] == all[i];
    assert forall i :: 0 <= i < |MapElements(a)| ==> MapElements(a)[i] == all[i];
    if xs[n].VMap? {
      assert all[|MapElements(a)|] == xs[n].fields;
    }
  }

  /**
   * The loop of every `flatten…` converter: an empty input returns nil at once;
   * otherwise each record's map is appended in order.
   */
  method FlattenEach<T>(ts: seq<T>, g: T -> Fields) returns (r: Option<seq<Fields>>)
    ensures r == Flattened(ts, g)
  {
    if |ts| == 0 {
      return None;
    }
    var out: seq<Fields> := [];
    var n := 0;
    while n < |ts|
      invariant 0 <= n <= |ts|
      invariant out == seq(n, i requires 0 <= i < n => g(ts[i]))
    {
      out := out + [g(ts[n])];
      n := n + 1;
    }
    r := Some(out);
  }

  // ---------------------------------------------------------------------------
  // Properties of the two loops
  // ---------------------------------------------------------------------------

  /** A flattened list holds exactly as many maps as there were records, and is nil iff there were none. */
  lemma FlattenedShape<T>(ts: seq<T>, g: T -> Fields)
    ensures Flattened(ts, g).None? <==> |ts| == 0
    ensures |ListItems(Flattened(ts, g))| == |ts|
    ensures forall i :: 0 <= i < |ts| ==> ListItems(Flattened(ts, g))[i] == VMap(g(ts[i]))
  {
  }

  /**
   * Building what was flattened gives back each record, up to the normalisation n
   * that the element converters apply (the fields they drop).
   */
  lemma BuildAfterFlatten<T>(ts: seq<T>, g: T -> Fields, f: Fields --> T, n: T -> T)
    requires forall i :: 0 <= i < |ts| ==> f.requires(g(ts[i])) && f(g(ts[i])) == n(ts[i])
    ensures Accepts(ListItems(Flattened(ts, g)), f)
    ensures Built(ListItems(Flattened(ts, g)), f) == seq(|ts|, i requires 0 <= i < |ts| => n(ts[i]))
  {
    if |ts| > 0 {
      MapElementsOfMaps(Flattened(ts, g).value);
    }
  }

  /**
   * Flattening what was built gives one map per map element of the input, each
   * reduced to what the element converters keep, and nil when there was none.
   */
  lemma FlattenAfterBuild<T>(xs: seq<Value>, f: Fields --> T, g: T -> Fields, keep: Fields -> Fields)
    requires Accepts(xs, f)
    requires forall i :: 0 <= i < |MapElements(xs)| ==> g(f(MapElements(xs)[i])) == keep(MapElements(xs)[i])
    ensures Flattened(Built(xs, f), g) == Flattened(MapElements(xs), keep)
  {
    var ms := MapElements(xs);
    var bs := Built(xs, f);
    if |ms| > 0 {
      forall i | 0 <= i < |ms|
        ensures Flattened(bs, g).value[i] == Flattened(ms, keep).value[i]
      {
        assert bs[i] == f(ms[i]);
      }
      assert |bs| == |ms|;
      assert Flattened(bs, g).value == Flattened(ms, keep).value;
    }
  }
}
