/**
 * The `buildAddressableEntityRefs` / `flattenAddressableEntityRefs` pair that the
 * topics, programs and settings packages each carry an identical copy of. Neither
 * direction copies a field: only the number of map elements survives.
 */
module EntityRefs {
  import opened Wrappers
  import opened Attributes

  datatype AddressableEntityRef = AddressableEntityRef(id: Option<string>, selfUri: Option<string>)

  /** The record every map element becomes: nothing is read from the map. */
  const BlankRef := AddressableEntityRef(None, None)

  function AddressableEntityRefOf(m: Fields): AddressableEntityRef
  {
    BlankRef
  }

  function AddressableEntityRefMap(r: AddressableEntityRef): Fields
  {
    map[]
  }

  /** buildAddressableEntityRefs: one blank reference per map element; non-map elements are skipped. */
  function BuildAddressableEntityRefs(xs: seq<Value>): (r: seq<AddressableEntityRef>)
    ensures |r| == |MapElements(xs)|
    ensures forall i :: 0 <= i < |r| ==> r[i] == BlankRef
  {
    Built(xs, AddressableEntityRefOf)
  }

  /** flattenAddressableEntityRefs: nil for no references, else one empty map per reference. */
  function FlattenAddressableEntityRefs(rs: seq<AddressableEntityRef>): (r: Option<seq<Fields>>)
    ensures r.None? <==> |rs| == 0
    ensures r.Some? ==> |r.value| == |rs| && forall i :: 0 <= i < |r.value| ==> r.value[i] == map[]
  {
    Flattened(rs, AddressableEntityRefMap)
  }

  /** As many blank references as `n`. */
  function BlankRefs(n: nat): (r: seq<AddressableEntityRef>)
    ensures |r| == n
  {
    seq(n, i => BlankRef)
  }

  /** A pointer to references with every reference blanked. */
  function BlankedRefs(o: SlicePtr<AddressableEntityRef>): SlicePtr<AddressableEntityRef>
  {
    if o.Nil? then Nil else Ptr(BlankRefs(|o.elems|))
  }

  /** References survive a flatten and a build in number only. */
  lemma AddressableEntityRefsRoundTrip(rs: seq<AddressableEntityRef>)
    ensures BuildAddressableEntityRefs(ListItems(FlattenAddressableEntityRefs(rs))) == BlankRefs(|rs|)
  {
    BuildAfterFlatten(rs, AddressableEntityRefMap, AddressableEntityRefOf, r => BlankRef);
  }

  /** Maps survive a build and a flatten in number only; none at all gives nil. */
  lemma AddressableEntityRefsFlattenAfterBuild(xs: seq<Value>)
    ensures FlattenAddressableEntityRefs(BuildAddressableEntityRefs(xs)) == Flattened(MapElements(xs), m => map[])
  {
    FlattenAfterBuild(xs, AddressableEntityRefOf, AddressableEntityRefMap, m => map[]);
  }

  /** A reference pointer flattened under a key and built back from it keeps its length. */
  lemma NestedRefs(m: Fields, key: string, o: SlicePtr<AddressableEntityRef>)
    requires HasList(m, key) <==> o.Ptr?
    requires o.Ptr? ==> m[key] == ListValue(Flattened(o.elems, AddressableEntityRefMap))
    ensures Nested(m, key, AddressableEntityRefOf) == BlankedRefs(o)
  {
    if o.Ptr? {
      AddressableEntityRefsRoundTrip(o.elems);
    }
  }
}
