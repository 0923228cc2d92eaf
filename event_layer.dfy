/**
 The event layer: a PHP array from event name to the entry
 `['data' => parameters, 'event_id' => eventId]`, updated in place.
 */
module EventLayers {
  import opened PhpArrays

  /** One tracked event: its parameters and an optional deduplication id. */
  datatype Entry = Entry(parameters: PhpArray, eventId: Option<string>)

  /** The PHP array `set` stores for an entry; a missing id is stored as null. */
  function EntryValue(e: Entry): (r: Value)
    ensures r != Null
    ensures AsEntry(r) == Some(e)
  {
    Arr(map["data" := Arr(e.parameters),
            "event_id" := if e.eventId.Some? then Str(e.eventId.value) else Null])
  }

  /** Reads a stored value back as an entry, when it has exactly the shape `set` writes. */
  function AsEntry(v: Value): (r: Option<Entry>) {
    match v
    case Arr(m) =>
      if m.Keys == {"data", "event_id"} && m["data"].Arr? && (m["event_id"].Null? || m["event_id"].Str?)
      then Some(Entry(m["data"].entries, if m["event_id"].Str? then Some(m["event_id"].s) else None))
      else None
    case _ => None
  }

  /** A value read back as an entry is exactly the value `set` would store for it. */
  lemma AsEntryInverse(v: Value)
    requires AsEntry(v).Some?
    ensures EntryValue(AsEntry(v).value) == v
  {
  }

  class EventLayer {
    var data: PhpArray

    /** A new layer holding `data`; a default-constructed layer is empty. */
    constructor (data: PhpArray := map[])
      ensures this.data == data
    {
      this.data := data;
    }

    /** Records `eventName` unless the layer already holds a non-null value for it. */
    method Set(eventName: string, parameters: PhpArray := map[], eventId: Option<string> := None)
      requires IsPlainKey(eventName)
      modifies this
      ensures data == Add(old(data), eventName, EntryValue(Entry(parameters, eventId)))
    {
      data := Add(data, eventName, EntryValue(Entry(parameters, eventId)));
    }

    /** Shallow union with `newData`, whose entries win. */
    method Merge(newData: PhpArray)
      modifies this
      ensures data == ArrayMerge(old(data), newData)
    {
      data := ArrayMerge(data, newData);
    }

    method Clear()
      modifies this
      ensures data == map[]
    {
      data := map[];
    }

    /** The entries, as a value: later changes to the layer do not reach it. */
    function ToArray(): (r: PhpArray)
      reads this
      ensures r == data
    {
      data
    }
  }

  /** One call `set(eventName, parameters, eventId)`. */
  datatype SetCall = SetCall(eventName: string, parameters: PhpArray, eventId: Option<string>)

  predicate AllPlain(calls: seq<SetCall>) {
    forall i :: 0 <= i < |calls| ==> IsPlainKey(calls[i].eventName)
  }

  function Names(calls: seq<SetCall>): (r: set<string>) {
    set i | 0 <= i < |calls| :: calls[i].eventName
  }

  /** The entries of a layer holding `a` after the calls `calls`, made in order. */
  function ApplySets(a: PhpArray, calls: seq<SetCall>): (r: PhpArray)
    requires AllPlain(calls)
    decreases |calls|
  {
    if calls == [] then a
    else
      var last := calls[|calls| - 1];
      Add(ApplySets(a, calls[..|calls| - 1]), last.eventName, EntryValue(Entry(last.parameters, last.eventId)))
  }

  /** Set calls add exactly the names they mention, and never remove a key. */
  lemma {:induction false} ApplySetsKeys(a: PhpArray, calls: seq<SetCall>)
    requires AllPlain(calls)
    ensures ApplySets(a, calls).Keys == a.Keys + Names(calls)
    decreases |calls|
  {
    if calls != [] {
      var init := calls[..|calls| - 1];
      ApplySetsKeys(a, init);
      assert Names(calls) == Names(init) + {calls[|calls| - 1].eventName} by {
        forall n | n in Names(calls) ensures n in Names(init) + {calls[|calls| - 1].eventName} {
          var i :| 0 <= i < |calls| && calls[i].eventName == n;
          if i < |calls| - 1 { assert init[i] == calls[i]; }
        }
        forall n | n in Names(init) ensures n in Names(calls) {
          var i :| 0 <= i < |init| && init[i].eventName == n;
          assert calls[i] == init[i];
        }
      }
    }
  }

  /** A name no call mentions keeps its old state, present or absent. */
  lemma {:induction false} ApplySetsUntouched(a: PhpArray, calls: seq<SetCall>, name: string)
    requires AllPlain(calls)
    requires name !in Names(calls)
    ensures name in ApplySets(a, calls) <==> name in a
    ensures name in a ==> ApplySets(a, calls)[name] == a[name]
    decreases |calls|
  {
    if calls != [] {
      var init := calls[..|calls| - 1];
      assert calls[|calls| - 1].eventName != name;
      forall j | 0 <= j < |init| ensures init[j].eventName != name {
        assert init[j] == calls[j];
      }
      ApplySetsUntouched(a, init, name);
    }
  }

  /** A name that already holds a non-null value is never changed by set calls. */
  lemma {:induction false} ApplySetsKeepsPresent(a: PhpArray, calls: seq<SetCall>, name: string)
    requires AllPlain(calls)
    requires name in a && a[name] != Null
    ensures name in ApplySets(a, calls) && ApplySets(a, calls)[name] == a[name]
    decreases |calls|
  {
    if calls != [] {
      ApplySetsKeepsPresent(a, calls[..|calls| - 1], name);
    }
  }

  /**
   For a name that is absent (or null) at the start, the entry after the
   calls is the one given by the FIRST call for that name; later calls for
   the same name do not overwrite it.
   */
  lemma {:induction false} ApplySetsFirstWins(a: PhpArray, calls: seq<SetCall>, i: nat)
    requires AllPlain(calls)
    requires i < |calls|
    requires forall j :: 0 <= j < i ==> calls[j].eventName != calls[i].eventName
    requires calls[i].eventName !in a || a[calls[i].eventName] == Null
    ensures calls[i].eventName in ApplySets(a, calls)
    ensures ApplySets(a, calls)[calls[i].eventName] == EntryValue(Entry(calls[i].parameters, calls[i].eventId))
    decreases |calls|
  {
    var name := calls[i].eventName;
    var init := calls[..|calls| - 1];
    var prior := ApplySets(a, init);
    if i == |calls| - 1 {
      forall j | 0 <= j < |init| ensures init[j].eventName != name {
        assert init[j] == calls[j];
      }
      ApplySetsUntouched(a, init, name);
      assert name !in prior || prior[name] == Null;
    } else {
      assert init[i] == calls[i];
      ApplySetsFirstWins(a, init, i);
      assert name in prior && prior[name] != Null;
    }
  }
}
