/**
 * The pending store: transactions that passed authorization and await
 * settlement, keyed by approval code.
 *
 * The source keeps them in a module-level dictionary; Python dictionaries
 * list their keys in insertion order, so the store is an ordered key list
 * beside the map. Overwriting a key keeps its place; removing it drops it.
 */
module Datastore {
  import opened PyValues

  predicate NoDuplicates(s: seq<string>)
  {
    forall i, j :: 0 <= i < j < |s| ==> s[i] != s[j]
  }

  /** `order` without the keys in `gone`, the others kept in their order. */
  function Without(order: seq<string>, gone: set<string>): (r: seq<string>)
    ensures forall k :: k in r <==> k in order && k !in gone
    ensures NoDuplicates(order) ==> NoDuplicates(r)
  {
    if order == [] then []
    else
      var rest := Without(order[1..], gone);
      assert forall k :: k in order <==> k == order[0] || k in order[1..];
      if order[0] in gone then rest else [order[0]] + rest
  }

  /** Removing two sets of keys one after the other removes their union. */
  lemma {:induction false} WithoutWithout(order: seq<string>, a: set<string>, b: set<string>)
    ensures Without(Without(order, a), b) == Without(order, a + b)
  {
    if order != [] {
      WithoutWithout(order[1..], a, b);
    }
  }

  /** Removing keys that are not listed changes nothing. */
  lemma {:induction false} WithoutAbsent(order: seq<string>, gone: set<string>)
    requires forall k :: k in gone ==> k !in order
    ensures Without(order, gone) == order
  {
    if order != [] {
      WithoutAbsent(order[1..], gone);
    }
  }

  /** A list without duplicates has as many elements as the set of its elements. */
  lemma {:induction false} DistinctCount(order: seq<string>, keys: set<string>)
    requires NoDuplicates(order)
    requires forall k :: k in keys <==> k in order
    ensures |keys| == |order|
  {
    if order != [] {
      var rest := keys - {order[0]};
      forall k ensures k in rest <==> k in order[1..] {
        if k in order[1..] {
          var j :| 0 <= j < |order[1..]| && order[1..][j] == k;
          assert order[j + 1] == k;
        }
      }
      DistinctCount(order[1..], rest);
    }
  }

  /** What settling an unknown approval code returns. */
  function NotFound(): (r: TxData)
    ensures "failure_code" in r && r["failure_code"] == Int(404) && "approval_code" !in r
  {
    map["failure_code" := Int(404), "failure_message" := Str("No such unsettled transaction")]
  }

  class PendingStore {
    /** The approval codes, in the order they were first stored. */
    var order: seq<string>
    /** The transaction stored under each approval code. */
    var entries: map<string, TxData>

    ghost predicate Valid()
      reads this
    {
      NoDuplicates(order) && forall k :: k in entries <==> k in order
    }

    constructor ()
      ensures Valid() && order == [] && entries == map[]
    {
      order := [];
      entries := map[];
    }

    /**
     * Stores a transaction under its approval code, overwriting any earlier
     * one (last write wins, even for the empty code); a transaction without
     * the key is refused and nothing changes.
     */
    method Store(t: TxData) returns (ok: bool)
      requires Valid()
      requires "approval_code" in t ==> t["approval_code"].Str?
      modifies this
      ensures Valid()
      ensures ok <==> "approval_code" in t
      ensures !ok ==> entries == old(entries) && order == old(order)
      ensures ok ==> entries == old(entries)[t["approval_code"].s := t]
      ensures ok ==> order == if t["approval_code"].s in old(entries) then old(order)
                              else old(order) + [t["approval_code"].s]
      ensures ok ==> |entries| == |old(entries)| + if t["approval_code"].s in old(entries) then 0 else 1
    {
      ok := true;
      if "approval_code" in t {
        var code := t["approval_code"].s;
        if code !in entries {
          order := order + [code];
        }
        entries := entries[code := t];
      } else {
        ok := false;
      }
    }

    /**
     * Removes and returns the transaction stored under `code`; an unknown
     * code yields the 404 record and changes nothing.
     */
    method Settle(code: string) returns (r: TxData)
      requires Valid()
      modifies this
      ensures Valid()
      ensures r == if code in old(entries) then old(entries)[code] else NotFound()
      ensures code !in entries
      ensures entries == old(entries) - {code}
      ensures order == Without(old(order), {code})
      ensures code !in old(entries) ==> order == old(order) && entries == old(entries)
    {
      if code in entries {
        r := entries[code];
        entries := entries - {code};
      } else {
        r := NotFound();
        WithoutAbsent(order, {code});
      }
      order := Without(order, {code});
    }

    /** The number of transactions awaiting settlement. */
    function Size(): (n: nat)
      reads this
      requires Valid()
      ensures n == |order|
    {
      DistinctCount(order, entries.Keys);
      |entries|
    }

    /** The approval codes awaiting settlement, in insertion order. */
    method UnsettledKeys() returns (keys: seq<string>)
      requires Valid()
      ensures keys == order
      ensures |keys| == Size()
      ensures forall k :: k in keys <==> k in entries
    {
      keys := [];
      var i := 0;
      while i < |order|
        invariant 0 <= i <= |order|
        invariant keys == order[..i]
      {
        keys := keys + [order[i]];
        i := i + 1;
      }
    }

    /** The transactions awaiting settlement, the i-th stored under the i-th key. */
    method Unsettled() returns (values: seq<TxData>)
      requires Valid()
      ensures |values| == Size()
      ensures forall i :: 0 <= i < |values| ==> order[i] in entries && values[i] == entries[order[i]]
    {
      values := [];
      var i := 0;
      while i < |order|
        invariant 0 <= i <= |order|
        invariant |values| == i
        invariant forall j :: 0 <= j < i ==> order[j] in entries && values[j] == entries[order[j]]
      {
        values := values + [entries[order[i]]];
        i := i + 1;
      }
    }
  }
}
