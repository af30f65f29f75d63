/** Resolving host futures: which outcomes a resume collects, and what is left for the next. */
module Futures {
  import opened Common
  import opened Wire

  datatype Outcome = Returned(value: nat) | Raised(error: nat)

  datatype Resolved = Resolved(id: U32, outcome: Outcome)

  ghost predicate DistinctIds(rs: seq<Resolved>)
  {
    forall i, j :: 0 <= i < j < |rs| ==> rs[i].id != rs[j].id
  }

  ghost function Ids(rs: seq<Resolved>): set<U32>
  {
    set r | r in rs :: r.id
  }

  /** Collected by the blocking wait, or found ready at one of its places in the request. */
  ghost predicate Collected(pending: seq<U32>, chosen: nat, ready: nat -> bool, id: U32)
  {
    exists k :: 0 <= k < |pending| && pending[k] == id && (k == chosen || ready(k))
  }

  datatype Waited = Cancelled | Chose(k: nat)

  /** The futures of a run: channels by call, each holding the outcome it delivers once. */
  class FutureTable {
    var futures: map<U32, Outcome>
    var cancelled: bool

    constructor (futures: map<U32, Outcome>)
      ensures this.futures == futures && !cancelled
    {
      this.futures, cancelled := futures, false;
    }

    /** Takes one more outcome out of the table; `all` is what was in it at first. */
    method Collect(id: U32, results: seq<Resolved>, ghost all: map<U32, Outcome>) returns (more: seq<Resolved>)
      requires id in futures && Delivered(results, all) && futures == all - Ids(results)
      modifies this`futures
      ensures futures == all - Ids(more)
      ensures more == results + [Resolved(id, all[id])]
      ensures Delivered(more, all) && Ids(more) == Ids(results) + {id}
    {
      more := results + [Resolved(id, futures[id])];
      futures := futures - {id};
      OneMore(results, id, all);
    }

    method AllKnown(pending: seq<U32>) returns (known: bool)
      ensures known <==> forall k :: 0 <= k < |pending| ==> pending[k] in futures
    {
      var i := 0;
      while i < |pending|
        invariant i <= |pending| && forall k :: 0 <= k < i ==> pending[k] in futures
      {
        if pending[i] !in futures {
          return false;
        }
        i := i + 1;
      }
      return true;
    }

    /** Takes the future the wait chose, then every other one that is already there. */
    method CollectReady(pending: seq<U32>, chosen: nat, ready: nat -> bool) returns (results: seq<Resolved>)
      requires chosen < |pending| && pending[chosen] in futures
      modifies this`futures
      ensures results != [] && Delivered(results, old(futures))
      ensures forall id :: id in Ids(results) <==> id in old(futures) && Collected(pending, chosen, ready, id)
      ensures futures == old(futures) - Ids(results)
    {
      hide Delivered, Ids, Collected, Taken;
      NoneYet(old(futures));
      results := Collect(pending[chosen], [], old(futures));
      TakenAtFirst(pending, chosen, ready);
      var i := 0;
      while i < |pending|
        invariant i <= |pending| && results != [] && Delivered(results, old(futures))
        invariant futures == old(futures) - Ids(results)
        invariant forall id :: id in Ids(results) <==> id in old(futures) && Taken(pending, i, chosen, ready, id)
      {
        var id := pending[i];
        TakenStep(pending, i, chosen, ready);
        if id in futures && ready(i) {
          results := Collect(id, results, old(futures));
        }
        i := i + 1;
      }
      TakenInTheEnd(pending, chosen, ready);
    }

    /**
     Waits for one requested future, then takes every other one that is already there. `waited` is
     what the blocking wait ends with; `ready` says which places of the request can be read at once.
     */
    method ResolveReady(pending: seq<U32>, waited: Waited, ready: nat -> bool) returns (r: Result<seq<Resolved>>)
      requires waited.Chose? ==> waited.k < |pending|
      modifies this
      ensures r.Ok? <==> pending != [] && waited.Chose? && forall k :: 0 <= k < |pending| ==> pending[k] in old(futures)
      ensures r.Err? ==> futures == old(futures)
      ensures cancelled == (old(cancelled) || (pending != [] && waited.Cancelled?
                                               && forall k :: 0 <= k < |pending| ==> pending[k] in old(futures)))
      ensures r.Ok? ==>
        && r.value != [] && Delivered(r.value, old(futures))
        && (forall id :: id in Ids(r.value) <==> Collected(pending, waited.k, ready, id))
        && futures == old(futures) - Ids(r.value)
    {
      hide Collected, Delivered;
      if pending == [] {
        return Err;
      }
      var known := AllKnown(pending);
      if !known {
        return Err;
      }
      if waited.Cancelled? {
        cancelled := true;
        return Err;
      }
      var results := CollectReady(pending, waited.k, ready);
      CollectedIsKnown(pending, waited.k, ready, old(futures));
      return Ok(results);
    }

    /**
     Resolves futures and builds the request that answers them. The outcomes have left the table
     before a value among them turns out not to encode, so a failed build loses all of them: of the
     futures known before exactly the collected ones are gone, whether or not there is a request.
     */
    method ResumeAuto(pending: seq<U32>, waited: Waited, ready: nat -> bool, encodes: nat -> bool)
      returns (r: Result<seq<Resolved>>)
      requires waited.Chose? ==> waited.k < |pending|
      modifies this
      ensures
        var waits := pending != [] && waited.Chose? && forall k :: 0 <= k < |pending| ==> pending[k] in old(futures);
        && (!waits ==> r.Err? && futures == old(futures))
        && (waits ==>
            && (r.Ok? <==> forall id :: id in old(futures) && Collected(pending, waited.k, ready, id) ==>
                Encodes(encodes, old(futures)[id]))
            && (forall id :: id in futures <==> id in old(futures) && !Collected(pending, waited.k, ready, id))
            && (forall id :: id in futures ==> futures[id] == old(futures)[id])
            && pending[waited.k] !in futures)
      ensures r.Ok? ==>
        && r.value != [] && Delivered(r.value, old(futures))
        && forall id :: id in Ids(r.value) <==> Collected(pending, waited.k, ready, id)
    {
      r := ResolveReady(pending, waited, ready);
      if r.Ok? {
        ghost var rs := r.value;
        var builds := Builds(r.value, encodes);
        forall id | id in Ids(rs) ensures exists i :: 0 <= i < |rs| && rs[i].id == id {
          var x :| x in rs && x.id == id;
        }
        assert forall i :: 0 <= i < |rs| ==> rs[i].id in Ids(rs);
        if !builds {
          return Err;
        }
      }
    }
  }

  /** Each outcome is the one its call's channel held, and no call is answered twice. */
  ghost predicate Delivered(rs: seq<Resolved>, futures: map<U32, Outcome>)
  {
    DistinctIds(rs) && forall i :: 0 <= i < |rs| ==> rs[i].id in futures && rs[i].outcome == futures[rs[i].id]
  }

  /** An exception always encodes; a value does if the host encoder accepts it. */
  predicate Encodes(encodes: nat -> bool, o: Outcome)
  {
    o.Returned? ==> encodes(o.value)
  }

  /** Encodes the outcomes in turn, up to the first that fails. */
  method Builds(rs: seq<Resolved>, encodes: nat -> bool) returns (ok: bool)
    ensures ok <==> forall i :: 0 <= i < |rs| ==> Encodes(encodes, rs[i].outcome)
  {
    var i := 0;
    while i < |rs|
      invariant i <= |rs| && forall j :: 0 <= j < i ==> Encodes(encodes, rs[j].outcome)
    {
      if !Encodes(encodes, rs[i].outcome) {
        return false;
      }
      i := i + 1;
    }
    return true;
  }

  lemma CollectedIsKnown(pending: seq<U32>, chosen: nat, ready: nat -> bool, futures: map<U32, Outcome>)
    requires forall k :: 0 <= k < |pending| ==> pending[k] in futures
    ensures forall id :: Collected(pending, chosen, ready, id) ==> id in futures
  {
  }

  /** Collected after the first n places have been looked at. */
  ghost predicate Taken(pending: seq<U32>, n: nat, chosen: nat, ready: nat -> bool, id: U32)
  {
    exists k :: 0 <= k < |pending| && pending[k] == id && (k == chosen || (k < n && ready(k)))
  }

  lemma NoneYet(all: map<U32, Outcome>)
    ensures Delivered([], all) && Ids([]) == {}
  {
  }

  lemma OneMore(rs: seq<Resolved>, id: U32, all: map<U32, Outcome>)
    requires Delivered(rs, all) && id in all && id !in Ids(rs)
    ensures
      var more := rs + [Resolved(id, all[id])];
      Delivered(more, all) && Ids(more) == Ids(rs) + {id} && (all - Ids(rs)) - {id} == all - Ids(more)
  {
    var more := rs + [Resolved(id, all[id])];
    assert forall i :: 0 <= i < |rs| ==> rs[i].id in Ids(rs);
    assert forall r :: r in more <==> r in rs || r == Resolved(id, all[id]);
  }

  lemma TakenAtFirst(pending: seq<U32>, chosen: nat, ready: nat -> bool)
    requires chosen < |pending|
    ensures forall id :: Taken(pending, 0, chosen, ready, id) <==> id == pending[chosen]
  {
  }

  lemma TakenInTheEnd(pending: seq<U32>, chosen: nat, ready: nat -> bool)
    ensures forall id :: Taken(pending, |pending|, chosen, ready, id) <==> Collected(pending, chosen, ready, id)
  {
  }

  lemma TakenStep(pending: seq<U32>, n: nat, chosen: nat, ready: nat -> bool)
    requires n < |pending|
    ensures forall id :: Taken(pending, n + 1, chosen, ready, id)
                    <==> Taken(pending, n, chosen, ready, id) || (id == pending[n] && ready(n))
  {
    forall id | Taken(pending, n + 1, chosen, ready, id)
      ensures Taken(pending, n, chosen, ready, id) || (id == pending[n] && ready(n))
    {
      var k :| 0 <= k < |pending| && pending[k] == id && (k == chosen || (k < n + 1 && ready(k)));
    }
  }

  // ---------------------------------------------------------------------------
  // The request

  /** One outcome, already encoded against the request's shared arena. */
  datatype Item = Item(id: U32, result: Bytes)

  function ItemBytes(x: Item): Bytes
  {
    Write([VarintField(1, x.id), LenField(2, x.result)])
  }

  function ItemFields(items: seq<Item>): seq<Field>
  {
    if items == [] then [] else [LenField(1, ItemBytes(items[0]))] + ItemFields(items[1..])
  }

  function RequestFields(items: seq<Item>, arena: Bytes): seq<Field>
  {
    ItemFields(items) + [LenField(2, arena)]
  }

  function ReadItem(data: Bytes): Item
  {
    var fs := Parse(data).fields;
    Item(VarintOf(fs, 1) % TWO32, BytesOf(fs, 2))
  }

  function ReadItems(datas: seq<Bytes>): seq<Item>
  {
    if datas == [] then [] else [ReadItem(datas[0])] + ReadItems(datas[1..])
  }

  lemma ItemRoundTrip(x: Item)
    requires |ItemBytes(x)| < TWO64
    ensures ReadItem(ItemBytes(x)) == x
  {
    hide Write, Parse, LastField;
    var fs := [VarintField(1, x.id), LenField(2, x.result)];
    assert AllShaped(fs) && Increasing(fs);
    ParseMessage(fs);
    LastFieldAt(fs, 0, 1);
    LastFieldAt(fs, 1, 2);
  }

  lemma {:induction false} ItemFieldsRead(items: seq<Item>)
    requires forall i :: 0 <= i < |items| ==> |ItemBytes(items[i])| < TWO64
    ensures AllShaped(ItemFields(items)) && ReadItems(AllBytesOf(ItemFields(items), 1)) == items
  {
    hide ItemBytes, ReadItem;
    if items != [] {
      ItemRoundTrip(items[0]);
      ItemFieldsRead(items[1..]);
      var fs := ItemFields(items);
      assert fs[1..] == ItemFields(items[1..]);
      var datas := AllBytesOf(fs, 1);
      assert datas[1..] == AllBytesOf(fs[1..], 1);
      assert [items[0]] + items[1..] == items;
    }
  }

  /** The worker reads from the request exactly the outcomes put in, in order, and the one arena. */
  lemma FuturesRequestRoundTrip(items: seq<Item>, arena: Bytes)
    requires |Write(RequestFields(items, arena))| < TWO64
    requires forall i :: 0 <= i < |items| ==> |ItemBytes(items[i])| < TWO64
    ensures
      var fs := Parse(Write(RequestFields(items, arena))).fields;
      ReadItems(AllBytesOf(fs, 1)) == items && BytesOf(fs, 2) == arena
  {
    hide Write, Parse, ItemBytes;
    ItemFieldsRead(items);
    var fs := RequestFields(items, arena);
    assert AllShaped(fs);
    ParseMessage(fs);
    hide ItemFields;
    AllBytesConcat(ItemFields(items), [LenField(2, arena)], 1);
    AllBytesAbsent([LenField(2, arena)], 1);
    assert AllBytesOf(ItemFields(items), 1) + [] == AllBytesOf(ItemFields(items), 1);
    assert fs[|fs| - 1] == LenField(2, arena);
  }
}
