/**
 * The CRUD and data-source callbacks every resource package repeats: what one
 * attempt of a retry closure decides, the retry loop over the responses the
 * attempts receive before the timeout, and the changes to the resource data.
 * Each SDK call's result is given as a parameter.
 */
module Lifecycle {
  import opened Wrappers
  import opened Attributes
  import opened Proxy

  /** The result of one SDK call: its value, or an error whose response may be a 404. */
  datatype ApiOutcome<T> = Ok(value: T) | Failed(err: ApiError)

  /** util.IsStatus404 on the response of a failed call. */
  predicate Is404<T>(o: ApiOutcome<T>)
  {
    o.Failed? && o.err == HttpError(404)
  }

  /** What a retry closure returns: nil, a RetryableError or a NonRetryableError. */
  datatype Attempt = Done | Retry | Fatal(err: ApiError)

  /** The diagnostics a callback returns: none, an API error, or a timeout of the retry helper. */
  datatype Diagnostics = NoDiagnostics | Failure(err: ApiError) | TimedOut

  // ---------------------------------------------------------------------------
  // One attempt
  // ---------------------------------------------------------------------------

  /** An attempt of the read closure: found is done, 404 retries, any other error is fatal. */
  function ReadAttempt<T>(o: ApiOutcome<T>): (a: Attempt)
    ensures a.Done? <==> o.Ok?
    ensures a.Retry? <==> Is404(o)
    ensures a.Fatal? <==> (o.Failed? && !Is404(o))
    ensures a.Fatal? ==> a.err == o.err
  {
    if o.Ok? then Done else if Is404(o) then Retry else Fatal(o.err)
  }

  /** An attempt of the delete poll: 404 means deleted, another error is fatal, still found retries. */
  function DeletePollAttempt<T>(o: ApiOutcome<T>): (a: Attempt)
    ensures a.Done? <==> Is404(o)
    ensures a.Retry? <==> o.Ok?
    ensures a.Fatal? <==> (o.Failed? && !Is404(o))
    ensures a.Fatal? ==> a.err == o.err
  {
    if Is404(o) then Done else if o.Failed? then Fatal(o.err) else Retry
  }

  // ---------------------------------------------------------------------------
  // The retry loop
  // ---------------------------------------------------------------------------

  /**
   * util.WithRetries over the attempts made before the timeout: the first attempt
   * that does not ask for a retry decides; if every one retries, it times out.
   */
  function Retried(attempts: seq<Attempt>): Diagnostics
  {
    if attempts == [] then TimedOut
    else if attempts[0].Retry? then Retried(attempts[1..])
    else if attempts[0].Done? then NoDiagnostics
    else Failure(attempts[0].err)
  }

  /** The retry helper as a loop. */
  method Poll(attempts: seq<Attempt>) returns (diags: Diagnostics)
    ensures diags == Retried(attempts)
  {
    var i := 0;
    while i < |attempts|
      invariant 0 <= i <= |attempts|
      invariant Retried(attempts[i..]) == Retried(attempts)
    {
      var a := attempts[i];
      if a.Done? {
        return NoDiagnostics;
      }
      if a.Fatal? {
        return Failure(a.err);
      }
      assert attempts[i..][1..] == attempts[i + 1..];
      i := i + 1;
    }
    return TimedOut;
  }

  /** The index of the first attempt that does not retry, or |attempts|. */
  function FirstDecided(attempts: seq<Attempt>): (i: nat)
    ensures i <= |attempts|
    ensures forall j :: 0 <= j < i ==> attempts[j].Retry?
    ensures i < |attempts| ==> !attempts[i].Retry?
  {
    if attempts == [] || !attempts[0].Retry? then 0 else 1 + FirstDecided(attempts[1..])
  }

  /** The retry loop's outcome is the first deciding attempt's. */
  lemma {:induction false} RetriedIsFirstDecided(attempts: seq<Attempt>)
    ensures var i := FirstDecided(attempts);
      Retried(attempts) == if i == |attempts| then TimedOut
        else if attempts[i].Done? then NoDiagnostics else Failure(attempts[i].err)
  {
    if attempts != [] && attempts[0].Retry? {
      RetriedIsFirstDecided(attempts[1..]);
    }
  }

  /** The loop succeeds exactly when some attempt is done and every earlier one retried; it times out exactly when all retry. */
  lemma RetriedOutcomes(attempts: seq<Attempt>)
    ensures Retried(attempts) == NoDiagnostics <==>
      exists i :: 0 <= i < |attempts| && attempts[i].Done? && forall j :: 0 <= j < i ==> attempts[j].Retry?
    ensures Retried(attempts) == TimedOut <==> forall j :: 0 <= j < |attempts| ==> attempts[j].Retry?
    ensures Retried(attempts).Failure? ==>
      exists i :: 0 <= i < |attempts| && attempts[i] == Fatal(Retried(attempts).err)
  {
    RetriedIsFirstDecided(attempts);
    var k := FirstDecided(attempts);
    forall i | 0 <= i < |attempts| && !attempts[i].Retry? && (forall j :: 0 <= j < i ==> attempts[j].Retry?)
      ensures i == k
    {
    }
  }

  // ---------------------------------------------------------------------------
  // Delete
  // ---------------------------------------------------------------------------

  function DeletePollAttempts<T>(polls: seq<ApiOutcome<T>>): (r: seq<Attempt>)
    ensures |r| == |polls| && forall i :: 0 <= i < |polls| ==> r[i] == DeletePollAttempt(polls[i])
  {
    seq(|polls|, i requires 0 <= i < |polls| => DeletePollAttempt(polls[i]))
  }

  /**
   * The delete callback: a failed DELETE returns its error without polling;
   * otherwise the entity is polled until a GET answers 404.
   */
  function DeleteSpec<T>(del: ApiOutcome<bool>, polls: seq<ApiOutcome<T>>): Diagnostics
  {
    if del.Failed? then Failure(del.err) else Retried(DeletePollAttempts(polls))
  }

  method Delete<T>(del: ApiOutcome<bool>, polls: seq<ApiOutcome<T>>) returns (diags: Diagnostics)
    ensures diags == DeleteSpec(del, polls)
  {
    if del.Failed? {
      return Failure(del.err);
    }
    diags := Poll(DeletePollAttempts(polls));
  }

  /**
   * Delete succeeds exactly when the DELETE succeeded and some poll answered 404
   * while every earlier poll still found the entity.
   */
  lemma DeleteSucceeds<T>(del: ApiOutcome<bool>, polls: seq<ApiOutcome<T>>)
    ensures DeleteSpec(del, polls) == NoDiagnostics <==>
      del.Ok? && exists i :: 0 <= i < |polls| && Is404(polls[i]) && forall j :: 0 <= j < i ==> polls[j].Ok?
    ensures del.Failed? ==> DeleteSpec(del, polls) == Failure(del.err)
  {
    var attempts := DeletePollAttempts(polls);
    RetriedOutcomes(attempts);
    if del.Ok? && Retried(attempts) == NoDiagnostics {
      var i :| 0 <= i < |attempts| && attempts[i].Done? && forall j :: 0 <= j < i ==> attempts[j].Retry?;
      assert Is404(polls[i]);
    }
    if del.Ok? && exists i :: 0 <= i < |polls| && Is404(polls[i]) && forall j :: 0 <= j < i ==> polls[j].Ok? {
      var i :| 0 <= i < |polls| && Is404(polls[i]) && forall j :: 0 <= j < i ==> polls[j].Ok?;
      assert attempts[i].Done?;
    }
  }

  // ---------------------------------------------------------------------------
  // Read, create and update
  // ---------------------------------------------------------------------------

  /** The outcome of the read callback: its diagnostics and the resource data's attributes. */
  datatype ReadOutcome = ReadOutcome(diags: Diagnostics, attrs: Fields)

  /**
   * util.WithRetriesForRead around the read closure, given the responses of its
   * successive GETs: the first found record is written by the setters.
   */
  function ReadSpec<T>(d: Fields, gets: seq<ApiOutcome<T>>, setters: (Fields, T) -> Fields): ReadOutcome
  {
    if gets == [] then ReadOutcome(TimedOut, d)
    else
      var a := ReadAttempt(gets[0]);
      if a.Retry? then ReadSpec(d, gets[1..], setters)
      else if a.Done? then ReadOutcome(NoDiagnostics, setters(d, gets[0].value))
      else ReadOutcome(Failure(a.err), d)
  }

  function ReadAttempts<T>(gets: seq<ApiOutcome<T>>): (r: seq<Attempt>)
    ensures |r| == |gets| && forall i :: 0 <= i < |gets| ==> r[i] == ReadAttempt(gets[i])
  {
    seq(|gets|, i requires 0 <= i < |gets| => ReadAttempt(gets[i]))
  }

  /**
   * The read callback's diagnostics are the retry loop's over its attempts, and
   * the attributes change only by the setters of the first record found, when a
   * record is found before any other error.
   */
  lemma {:induction false} ReadSpecIsRetried<T>(d: Fields, gets: seq<ApiOutcome<T>>, setters: (Fields, T) -> Fields)
    ensures ReadSpec(d, gets, setters).diags == Retried(ReadAttempts(gets))
    ensures var i := FirstDecided(ReadAttempts(gets));
      ReadSpec(d, gets, setters).attrs == if i < |gets| && gets[i].Ok? then setters(d, gets[i].value) else d
  {
    if gets != [] {
      assert ReadAttempts(gets)[1..] == ReadAttempts(gets[1..]);
      if Is404(gets[0]) {
        ReadSpecIsRetried(d, gets[1..], setters);
      }
    }
  }

  /** The resource data handed to a callback: its ID and its attributes. */
  class ResourceData {
    var id: string
    var attrs: Fields

    constructor(attrs0: Fields)
      ensures id == "" && attrs == attrs0
    {
      id := "";
      attrs := attrs0;
    }

    /** The read callback. */
    method Read<T>(gets: seq<ApiOutcome<T>>, setters: (Fields, T) -> Fields) returns (diags: Diagnostics)
      modifies this
      ensures ReadOutcome(diags, attrs) == ReadSpec(old(attrs), gets, setters)
      ensures id == old(id)
    {
      var i := 0;
      while i < |gets|
        invariant 0 <= i <= |gets|
        invariant ReadSpec(old(attrs), gets[i..], setters) == ReadSpec(old(attrs), gets, setters)
        invariant attrs == old(attrs) && id == old(id)
      {
        var a := ReadAttempt(gets[i]);
        if a.Done? {
          attrs := setters(attrs, gets[i].value);
          return NoDiagnostics;
        }
        if a.Fatal? {
          return Failure(a.err);
        }
        assert gets[i..][1..] == gets[i + 1..];
        i := i + 1;
      }
      return TimedOut;
    }

    /**
     * The create callback: a failed POST returns its error and leaves the ID
     * unset; a successful one sets the ID to the created Id and then reads.
     */
    method Create<T>(post: ApiOutcome<string>, gets: seq<ApiOutcome<T>>, setters: (Fields, T) -> Fields)
      returns (diags: Diagnostics)
      modifies this
      ensures post.Failed? ==> diags == Failure(post.err) && id == old(id) && attrs == old(attrs)
      ensures post.Ok? ==> id == post.value && ReadOutcome(diags, attrs) == ReadSpec(old(attrs), gets, setters)
    {
      if post.Failed? {
        return Failure(post.err);
      }
      id := post.value;
      diags := Read(gets, setters);
    }

    /** Create where the read callback is a no-op (sentiment feedback). */
    method CreateWithNoOpRead(post: ApiOutcome<string>) returns (diags: Diagnostics)
      modifies this
      ensures post.Failed? ==> diags == Failure(post.err) && id == old(id)
      ensures post.Ok? ==> diags == NoDiagnostics && id == post.value
      ensures attrs == old(attrs)
    {
      if post.Failed? {
        return Failure(post.err);
      }
      id := post.value;
      diags := NoOp();
    }

    /** The update callback: a failed PUT returns its error without reading; a successful one reads. */
    method Update<T, U>(put: ApiOutcome<U>, gets: seq<ApiOutcome<T>>, setters: (Fields, T) -> Fields)
      returns (diags: Diagnostics)
      modifies this
      ensures put.Failed? ==> diags == Failure(put.err) && attrs == old(attrs)
      ensures put.Ok? ==> ReadOutcome(diags, attrs) == ReadSpec(old(attrs), gets, setters)
      ensures id == old(id)
    {
      if put.Failed? {
        return Failure(put.err);
      }
      diags := Read(gets, setters);
    }

    /**
     * The data-source read: with a freshly built proxy (the package's cached one
     * is not touched), the name is looked up once per attempt until a lookup is
     * fatal or finds an Id, which becomes the data source's ID.
     */
    method DataSourceRead(config: Configuration, cache: ProxyCache, responses: seq<PageResponse<Entity>>, name: string)
      returns (diags: Diagnostics)
      modifies this
      ensures DataSourceOutcome(diags, id) == DataSourceSpec(old(id), responses, name)
      ensures attrs == old(attrs)
    {
      var proxy := new ApiProxy(config);
      var i := 0;
      while i < |responses|
        invariant 0 <= i <= |responses|
        invariant DataSourceSpec(old(id), responses[i..], name) == DataSourceSpec(old(id), responses, name)
        invariant id == old(id) && attrs == old(attrs)
      {
        var foundId, retryable, err := IdByName(responses[i], name);
        var step := DataSourceAttempt(Lookup(foundId, retryable, err));
        if step.Stop? {
          return Failure(step.err);
        }
        if step.Found? {
          id := step.id;
          return NoDiagnostics;
        }
        assert responses[i..][1..] == responses[i + 1..];
        i := i + 1;
      }
      return TimedOut;
    }
  }

  /** A callback that does nothing: the no-op create, read, update and delete callbacks. */
  method NoOp() returns (diags: Diagnostics)
    ensures diags == NoDiagnostics
  {
    diags := NoDiagnostics;
  }

  // ---------------------------------------------------------------------------
  // The data source
  // ---------------------------------------------------------------------------

  /** What one attempt of the data-source closure does with the lookup triple. */
  datatype DataSourceStep = Stop(err: ApiError) | Again | Found(id: string)

  /**
   * An error that is not retryable stops the loop; a retryable lookup retries,
   * with or without an error; anything else sets the ID.
   */
  function DataSourceAttempt(l: Lookup): (s: DataSourceStep)
    ensures s.Stop? <==> l.err.Some? && !l.retryable
    ensures s.Stop? ==> s.err == l.err.value
    ensures s.Again? <==> l.retryable
    ensures s.Found? <==> l.err.None? && !l.retryable
    ensures s.Found? ==> s.id == l.id
  {
    if l.err.Some? && !l.retryable then Stop(l.err.value)
    else if l.retryable then Again
    else Found(l.id)
  }

  /** One data-source attempt after one name lookup. */
  lemma DataSourceAfterLookup(r: PageResponse<Entity>, name: string)
    ensures var s := DataSourceAttempt(IdByNameSpec(r, name));
      && (s.Stop? <==> r.PageError?)
      && (s.Stop? ==> s.err == r.err)
      && (s.Found? <==> r.Page? && exists e :: e in Got(r) && e.name == name)
      && (s.Found? ==> s.id == Got(r)[FirstNamed(Got(r), name)].id)
  {
    IdByNameOutcomes(r, name);
    IdByNameFound(r, name);
  }

  datatype DataSourceOutcome = DataSourceOutcome(diags: Diagnostics, id: string)

  /** The data-source read given the list responses its successive lookups receive. */
  function DataSourceSpec(id0: string, responses: seq<PageResponse<Entity>>, name: string): DataSourceOutcome
  {
    if responses == [] then DataSourceOutcome(TimedOut, id0)
    else
      var s := DataSourceAttempt(IdByNameSpec(responses[0], name));
      if s.Again? then DataSourceSpec(id0, responses[1..], name)
      else if s.Stop? then DataSourceOutcome(Failure(s.err), id0)
      else DataSourceOutcome(NoDiagnostics, s.id)
  }

  /**
   * A data source that succeeds has the Id of an entity with that exact name as
   * its ID; one that does not keeps the ID it had.
   */
  lemma {:induction false} DataSourceFindsNamed(id0: string, responses: seq<PageResponse<Entity>>, name: string)
    ensures var o := DataSourceSpec(id0, responses, name);
      o.diags == NoDiagnostics ==>
        exists k, e :: 0 <= k < |responses| && e in Got(responses[k]) && e.name == name && e.id == o.id
    ensures var o := DataSourceSpec(id0, responses, name);
      o.diags != NoDiagnostics ==> o.id == id0
  {
    if responses != [] {
      var r := responses[0];
      DataSourceAfterLookup(r, name);
      var s := DataSourceAttempt(IdByNameSpec(r, name));
      if s.Again? {
        DataSourceFindsNamed(id0, responses[1..], name);
        var o := DataSourceSpec(id0, responses, name);
        if o.diags == NoDiagnostics {
          var k, e :| 0 <= k < |responses[1..]| && e in Got(responses[1..][k]) && e.name == name && e.id == o.id;
          assert responses[k + 1] == responses[1..][k];
        }
      } else if s.Found? {
        var es := Got(r);
        assert es[FirstNamed(es, name)] in es;
      }
    }
  }

  // ---------------------------------------------------------------------------
  // Export
  // ---------------------------------------------------------------------------

  /** The exporter's resourceExporter.ResourceMeta: the label it gives a resource (its Name). */
  datatype ResourceMeta = ResourceMeta(blockLabel: string)

  /** The `resources` map after listing `es`: a later entity with the same Id overwrites an earlier one. */
  function ExportOf(es: seq<Entity>): map<string, ResourceMeta>
  {
    if es == [] then map[] else ExportOf(es[..|es| - 1])[es[|es| - 1].id := ResourceMeta(es[|es| - 1].name)]
  }

  /** getAllAuth…: a listing error gives no map at all. */
  function ExportSpec(listing: ListResult<Entity>): Option<map<string, ResourceMeta>>
  {
    if listing.ListErr? then None else Some(ExportOf(listing.items))
  }

  /** getAllAuth…, with a freshly built proxy, given the responses of the list endpoint. */
  method GetAllAuth(config: Configuration, api: nat -> PageResponse<Entity>)
    returns (resources: Option<map<string, ResourceMeta>>)
    ensures resources == ExportSpec(GetAllSpec(api).result)
  {
    var proxy := new ApiProxy(config);
    var listing, calls := GetAll(api);
    if listing.ListErr? {
      return None;
    }
    var es := listing.items;
    var m := map[];
    var i := 0;
    while i < |es|
      invariant 0 <= i <= |es|
      invariant m == ExportOf(es[..i])
    {
      assert es[..i + 1][..i] == es[..i];
      m := m[es[i].id := ResourceMeta(es[i].name)];
      i := i + 1;
    }
    assert es[..|es|] == es;
    resources := Some(m);
  }

  /** Every listed Id, and only those, is exported. */
  lemma {:induction false} ExportOfKeys(es: seq<Entity>)
    ensures ExportOf(es).Keys == set e | e in es :: e.id
  {
    if es != [] {
      var init := es[..|es| - 1];
      ExportOfKeys(init);
      assert es == init + [es[|es| - 1]];
      assert (set e | e in es :: e.id) == (set e | e in init :: e.id) + {es[|es| - 1].id};
    }
  }

  /** An Id is exported with the Name of the last listed entity that has it. */
  lemma {:induction false} ExportOfLast(es: seq<Entity>, i: nat)
    requires i < |es|
    requires forall j :: i < j < |es| ==> es[j].id != es[i].id
    ensures es[i].id in ExportOf(es) && ExportOf(es)[es[i].id] == ResourceMeta(es[i].name)
  {
    if i < |es| - 1 {
      var init := es[..|es| - 1];
      assert init[i] == es[i];
      ExportOfLast(init, i);
    }
  }
}
