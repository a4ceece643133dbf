/**
 * Settlement batches: a batch of authorized transactions is checked, the
 * approved ones are stamped with one settlement id and removed from the
 * pending store, and the rest are reported as unsettled.
 *
 * `check_transaction` never returns False: a transaction missing an
 * attribute makes its own error report fail (the report calls `to_json` on
 * a plain dictionary), so the batch raises instead of listing it as
 * unsettled. `from_json` replays a stored batch and replaces the batch it
 * has built so far whenever it meets a transaction without a settlement id.
 */
module Settlements {
  import opened PyValues
  import opened Datastore
  import opened Transactions

  /** The attributes `settle` asks `check_transaction` for. */
  const GeneralAttributes: seq<string> := ["approved", "approval_code"]
  const CardAttributes: seq<string> := ["type", "valid"]
  const MerchantAttributes: seq<string> := ["name", "network_id"]

  /** The batch id of a settlement that has accepted nothing yet. */
  const Pending: Value := Str("pending")

  /** The card and the merchant data are dictionaries when present. */
  predicate Checkable(d: TxData)
  {
    ("card" in d ==> d["card"].Dict?) && ("merchant_data" in d ==> d["merchant_data"].Dict?)
  }

  /** The shapes `settle` needs: checkable, and an approval code that is a string. */
  predicate SettleShaped(d: TxData)
  {
    Checkable(d) && ("approval_code" in d ==> d["approval_code"].Str?)
  }

  /** Every attribute of `attrs` is a key of `fields`. */
  predicate AllIn(attrs: seq<string>, fields: map<string, Value>)
  {
    forall i :: 0 <= i < |attrs| ==> attrs[i] in fields
  }

  /** No attribute is asked of the dictionary under `key`, or it holds all of them. */
  predicate Found(attrs: seq<string>, d: TxData, key: string)
    requires Checkable(d)
    requires key == "card" || key == "merchant_data"
  {
    attrs == [] || (key in d && AllIn(attrs, d[key].fields))
  }

  /**
   * What `check_transaction` does with a transaction whose data is `d`:
   * a missing card or merchant dictionary raises `KeyError` when attributes
   * are asked of it, a missing attribute makes the report raise
   * `AttributeError`, and otherwise the answer is True.
   */
  function CheckOutcome(d: TxData, g: seq<string>, c: seq<string>, m: seq<string>): (r: Result<bool>)
    requires Checkable(d)
    ensures r.Ok? ==> r.value
  {
    if c != [] && "card" !in d then Raise(KeyError("card"))
    else if m != [] && "merchant_data" !in d then Raise(KeyError("merchant_data"))
    else if Found(c, d, "card") && Found(m, d, "merchant_data") && AllIn(g, d) then Ok(true)
    else Raise(AttributeError("to_json"))
  }

  /**
   * The check passes exactly when every asked attribute is present, and
   * each `KeyError` names the dictionary that is missing.
   */
  lemma CheckOutcomeCases(d: TxData, g: seq<string>, c: seq<string>, m: seq<string>)
    requires Checkable(d)
    ensures CheckOutcome(d, g, c, m).Ok? <==> Found(c, d, "card") && Found(m, d, "merchant_data") && AllIn(g, d)
    ensures CheckOutcome(d, g, c, m) == Raise(KeyError("card")) <==> c != [] && "card" !in d
    ensures CheckOutcome(d, g, c, m) == Raise(KeyError("merchant_data"))
            <==> (c == [] || "card" in d) && m != [] && "merchant_data" !in d
  {
  }

  /** The check `settle` makes, with its own attribute lists. */
  function SettleCheck(d: TxData): (r: Result<bool>)
    requires Checkable(d)
    ensures r.Ok? <==> && "card" in d && "type" in d["card"].fields && "valid" in d["card"].fields
                       && "merchant_data" in d && "name" in d["merchant_data"].fields
                       && "network_id" in d["merchant_data"].fields
                       && "approved" in d && "approval_code" in d
    ensures r.Ok? ==> r.value
  {
    CheckOutcomeCases(d, GeneralAttributes, CardAttributes, MerchantAttributes);
    assert AllIn(GeneralAttributes, d) <==> "approved" in d && "approval_code" in d by {
      assert GeneralAttributes[0] == "approved" && GeneralAttributes[1] == "approval_code";
    }
    assert "card" in d ==> (AllIn(CardAttributes, d["card"].fields)
                            <==> "type" in d["card"].fields && "valid" in d["card"].fields) by {
      assert CardAttributes[0] == "type" && CardAttributes[1] == "valid";
    }
    assert "merchant_data" in d ==> (AllIn(MerchantAttributes, d["merchant_data"].fields)
                                     <==> "name" in d["merchant_data"].fields && "network_id" in d["merchant_data"].fields) by {
      assert MerchantAttributes[0] == "name" && MerchantAttributes[1] == "network_id";
    }

    CheckOutcome(d, GeneralAttributes, CardAttributes, MerchantAttributes)
  }

  /** The transaction passes the check and is approved with an approval code. */
  predicate Acceptable(d: TxData)
    requires Checkable(d)
    ensures Acceptable(d) ==> SettleCheck(d) == Ok(true) && Truthy(d["approved"]) && Truthy(d["approval_code"])
  {
    SettleCheck(d).Ok?
    && "approved" in d && Truthy(d["approved"])
    && "approval_code" in d && Truthy(d["approval_code"])
  }

  /** `d` stamped with the settlement id `id`. */
  function Stamped(d: TxData, id: Value): (e: TxData)
    ensures "settlement_id" in e && e["settlement_id"] == id
    ensures forall k :: k in d && k != "settlement_id" ==> k in e && e[k] == d[k]
  {
    d["settlement_id" := id]
  }

  /** Stamping changes neither the check, the acceptance nor the approval code. */
  lemma StampKeepsCheck(d: TxData, id: Value)
    requires SettleShaped(d)
    ensures SettleShaped(Stamped(d, id))
    ensures SettleCheck(Stamped(d, id)) == SettleCheck(d)
    ensures Acceptable(Stamped(d, id)) == Acceptable(d)
  {
    var e := Stamped(d, id);
    assert Found(CardAttributes, e, "card") == Found(CardAttributes, d, "card");
    assert Found(MerchantAttributes, e, "merchant_data") == Found(MerchantAttributes, d, "merchant_data");
    assert AllIn(GeneralAttributes, e) == AllIn(GeneralAttributes, d);
  }

  predicate AllSettleShaped(ds: seq<TxData>)
  {
    forall i :: 0 <= i < |ds| ==> SettleShaped(ds[i])
  }

  /** The position of the first transaction whose check raises, or `|ds|`. */
  function StopIndex(ds: seq<TxData>): (k: nat)
    requires AllSettleShaped(ds)
    ensures k <= |ds|
    ensures forall i :: 0 <= i < k ==> SettleCheck(ds[i]).Ok?
    ensures k < |ds| ==> SettleCheck(ds[k]).Raise?
  {
    if ds == [] then 0
    else if SettleCheck(ds[0]).Raise? then 0
    else 1 + StopIndex(ds[1..])
  }

  /** `StopIndex` is the first raising position. */
  lemma {:induction false} StopIndexAt(ds: seq<TxData>, i: nat)
    requires AllSettleShaped(ds)
    requires i < |ds|
    requires forall j :: 0 <= j < i ==> SettleCheck(ds[j]).Ok?
    requires SettleCheck(ds[i]).Raise?
    ensures StopIndex(ds) == i
  {
    if i > 0 {
      assert SettleCheck(ds[0]).Ok?;
      assert forall j :: 0 <= j < i - 1 ==> ds[1..][j] == ds[j + 1];
      StopIndexAt(ds[1..], i - 1);
    }
  }

  /** Some transaction among the first `i` is acceptable. */
  predicate AnyAccepted(ds: seq<TxData>, i: nat)
    requires AllSettleShaped(ds) && i <= |ds|
  {
    exists j :: 0 <= j < i && Acceptable(ds[j])
  }

  /** The batch id once the first `i` transactions are processed. */
  function IdUpTo(ds: seq<TxData>, i: nat, token: string): (id: Value)
    requires AllSettleShaped(ds) && i <= |ds|
    ensures id == Pending <==> !AnyAccepted(ds, i)
  {
    var settled := "settle_" + token;
    assert settled[0] != "pending"[0];
    if AnyAccepted(ds, i) then Str(settled) else Pending
  }

  /** The approval codes of the acceptable transactions among the first `i`. */
  function CodesUpTo(ds: seq<TxData>, i: nat): set<string>
    requires AllSettleShaped(ds) && i <= |ds|
  {
    if i == 0 then {}
    else CodesUpTo(ds, i - 1) + if Acceptable(ds[i - 1]) then {ds[i - 1]["approval_code"].s} else {}
  }

  /** The codes removed from the pending store are exactly those of the accepted transactions. */
  lemma {:induction false} CodesUpToMembers(ds: seq<TxData>, i: nat, c: string)
    requires AllSettleShaped(ds) && i <= |ds|
    ensures c in CodesUpTo(ds, i) <==> exists j :: 0 <= j < i && Acceptable(ds[j]) && ds[j]["approval_code"].s == c
  {
    if i > 0 {
      CodesUpToMembers(ds, i - 1, c);
    }
  }

  /** Which transactions of a batch `settle` accepts, position by position. */
  function Verdicts(ds: seq<TxData>): (flags: seq<bool>)
    requires AllSettleShaped(ds)
    ensures |flags| == |ds|
    ensures forall j :: 0 <= j < |ds| ==> flags[j] == Acceptable(ds[j])
  {
    if ds == [] then [] else [Acceptable(ds[0])] + Verdicts(ds[1..])
  }

  /** The transactions among the first `i` whose flag is `want`, in batch order. */
  function PartUpTo<T>(batch: seq<T>, flags: seq<bool>, i: nat, want: bool): seq<T>
    requires |batch| == |flags| && i <= |flags|
  {
    if i == 0 then []
    else PartUpTo(batch, flags, i - 1, want) + if flags[i - 1] == want then [batch[i - 1]] else []
  }

  /** One more position adds its transaction to exactly one of the two parts. */
  lemma PartStep<T>(batch: seq<T>, flags: seq<bool>, i: nat)
    requires |batch| == |flags| && 0 < i <= |flags|
    ensures multiset(PartUpTo(batch, flags, i, true)) + multiset(PartUpTo(batch, flags, i, false))
            == multiset(PartUpTo(batch, flags, i - 1, true)) + multiset(PartUpTo(batch, flags, i - 1, false))
               + multiset{batch[i - 1]}
  {
  }

  lemma PrefixStep<T>(s: seq<T>, i: nat)
    requires 0 < i <= |s|
    ensures multiset(s[..i]) == multiset(s[..i - 1]) + multiset{s[i - 1]}
  {
    assert s[..i] == s[..i - 1] + [s[i - 1]];
  }

  /** The settled and unsettled parts together are the batch, rearranged. */
  lemma {:induction false} PartsPartition<T>(batch: seq<T>, flags: seq<bool>, i: nat)
    requires |batch| == |flags| && i <= |flags|
    ensures multiset(PartUpTo(batch, flags, i, true)) + multiset(PartUpTo(batch, flags, i, false))
            == multiset(batch[..i])
  {
    if i == 0 {
      assert batch[..i] == [];
    } else {
      PartsPartition(batch, flags, i - 1);
      PartStep(batch, flags, i);
      PrefixStep(batch, i);
    }
  }

  /** A transaction is in a part exactly when some position of the batch holds it with that flag. */
  lemma {:induction false} PartMembers<T>(batch: seq<T>, flags: seq<bool>, i: nat, want: bool, t: T)
    requires |batch| == |flags| && i <= |flags|
    ensures t in PartUpTo(batch, flags, i, want) <==> exists j :: 0 <= j < i && batch[j] == t && flags[j] == want
  {
    if i > 0 {
      PartMembers(batch, flags, i - 1, want, t);
    }
  }

  /**
   * The data at position `j` of a batch once its first `i` transactions are
   * processed under the batch id `id`: stamped if it was accepted.
   */
  function Processed(ds: seq<TxData>, j: nat, i: nat, id: Value): TxData
    requires AllSettleShaped(ds) && j < |ds|
  {
    if j < i && Acceptable(ds[j]) then Stamped(ds[j], id) else ds[j]
  }

  /** Processing position `i` leaves every other position as it was. */
  lemma ProcessedStep(ds: seq<TxData>, i: nat, j: nat, token: string)
    requires AllSettleShaped(ds) && i < |ds| && j < |ds| && j != i
    ensures Processed(ds, j, i, IdUpTo(ds, i, token)) == Processed(ds, j, i + 1, IdUpTo(ds, i + 1, token))
  {
    if j < i && Acceptable(ds[j]) {
      assert AnyAccepted(ds, i) && AnyAccepted(ds, i + 1);
    }
  }

  /** What processing an accepted transaction at position `i` adds. */
  lemma AcceptedStep<T>(batch: seq<T>, ds: seq<TxData>, i: nat, token: string)
    requires |batch| == |ds| && AllSettleShaped(ds) && i < |ds| && Acceptable(ds[i])
    ensures CodesUpTo(ds, i + 1) == CodesUpTo(ds, i) + {ds[i]["approval_code"].s}
    ensures IdUpTo(ds, i + 1, token) == Str("settle_" + token)
    ensures IdUpTo(ds, i, token) != Pending ==> IdUpTo(ds, i, token) == IdUpTo(ds, i + 1, token)
    ensures PartUpTo(batch, Verdicts(ds), i + 1, true) == PartUpTo(batch, Verdicts(ds), i, true) + [batch[i]]
    ensures PartUpTo(batch, Verdicts(ds), i + 1, false) == PartUpTo(batch, Verdicts(ds), i, false)
    ensures Processed(ds, i, i + 1, IdUpTo(ds, i + 1, token)) == Stamped(ds[i], IdUpTo(ds, i + 1, token))
  {
    AcceptedId(ds, i, token);
    PartAppend(batch, Verdicts(ds), i);
  }

  lemma AcceptedId(ds: seq<TxData>, i: nat, token: string)
    requires AllSettleShaped(ds) && i < |ds| && Acceptable(ds[i])
    ensures IdUpTo(ds, i + 1, token) == Str("settle_" + token)
    ensures IdUpTo(ds, i, token) != Pending ==> IdUpTo(ds, i, token) == IdUpTo(ds, i + 1, token)
  {
    assert AnyAccepted(ds, i + 1);
  }

  /** One more position appends its transaction to the part its flag selects. */
  lemma PartAppend<T>(batch: seq<T>, flags: seq<bool>, i: nat)
    requires |batch| == |flags| && i < |flags|
    ensures PartUpTo(batch, flags, i + 1, flags[i]) == PartUpTo(batch, flags, i, flags[i]) + [batch[i]]
    ensures PartUpTo(batch, flags, i + 1, !flags[i]) == PartUpTo(batch, flags, i, !flags[i])
  {
  }

  /** Processing a transaction that is not accepted only lists it as unsettled. */
  lemma RejectedStep<T>(batch: seq<T>, ds: seq<TxData>, i: nat, token: string)
    requires |batch| == |ds| && AllSettleShaped(ds) && i < |ds| && !Acceptable(ds[i])
    ensures CodesUpTo(ds, i + 1) == CodesUpTo(ds, i)
    ensures IdUpTo(ds, i + 1, token) == IdUpTo(ds, i, token)
    ensures PartUpTo(batch, Verdicts(ds), i + 1, true) == PartUpTo(batch, Verdicts(ds), i, true)
    ensures PartUpTo(batch, Verdicts(ds), i + 1, false) == PartUpTo(batch, Verdicts(ds), i, false) + [batch[i]]
    ensures Processed(ds, i, i + 1, IdUpTo(ds, i + 1, token)) == ds[i]
  {
    assert !AnyAccepted(ds, i) ==> !AnyAccepted(ds, i + 1);
    PartAppend(batch, Verdicts(ds), i);
  }

  /** Removing two sets of keys from a map one after the other removes their union. */
  lemma MinusMinus<K, V>(m: map<K, V>, a: set<K>, b: set<K>)
    ensures (m - a) - b == m - (a + b)
  {
  }

  /** A stored transaction `from_json` can restore: its approval code, if any, is a string. */
  predicate Restorable(src: TxData)
  {
    "approval_code" in src ==> src["approval_code"].Str?
  }

  predicate AllRestorable(srcs: seq<TxData>)
  {
    forall i :: 0 <= i < |srcs| ==> Restorable(srcs[i])
  }

  /**
   * The state of `from_json` part way through a stored batch: the current
   * batch id, the data of its settled and unsettled transactions, the
   * approval codes settled so far, and the exception that ended it, if any.
   */
  datatype Replay = Replay(id: Value, settled: seq<TxData>, unsettled: seq<TxData>,
                           removed: set<string>, raised: Option<Raised>)

  /** A transaction the stored batch lists is restored by `from_dict` under `idToken`. */
  lemma RestoredShape(src: TxData, idToken: string)
    requires Restorable(src)
    ensures SettleShaped(Merged(src, idToken))
  {
  }

  /**
   * `settle` on a batch holding only the transaction `d`, replacing the
   * replay state `st`: a new batch, settled or unsettled, or the exception
   * the check raised.
   */
  function SettledAlone(st: Replay, d: TxData, settleToken: string): (next: Replay)
    requires SettleShaped(d)
  {
    match SettleCheck(d)
    case Raise(e) => st.(raised := Some(e))
    case Ok(_) =>
      if Acceptable(d) then
        var id := Str("settle_" + settleToken);
        Replay(id, [Stamped(d, id)], [], st.removed + {d["approval_code"].s}, None)
      else Replay(Pending, [], [d], st.removed, None)
  }

  /**
   * One restored transaction `d` of `from_json`: one without a settlement
   * id is settled on its own, in a new batch that replaces the one built so
   * far; one carrying the current batch id is kept; any other is skipped.
   */
  function ReplayStep(st: Replay, d: TxData, settleToken: string): (next: Replay)
    requires SettleShaped(d)
    ensures st.removed <= next.removed
    ensures "settlement_id" in d ==> next.raised == st.raised
  {
    if "settlement_id" !in d then SettledAlone(st, d, settleToken)
    else if d["settlement_id"] == st.id then st.(settled := st.settled + [d])
    else st
  }

  /** `from_json` on the restored transactions `ds`, starting from `st`; the first exception ends it. */
  function ReplayAll(st: Replay, ds: seq<TxData>, settleTokens: seq<string>): (r: Replay)
    requires |settleTokens| == |ds| && AllSettleShaped(ds)
    ensures st.removed <= r.removed
    ensures st.raised.Some? ==> r == st
    decreases |ds|
  {
    if ds == [] || st.raised.Some? then st
    else ReplayAll(ReplayStep(st, ds[0], settleTokens[0]), ds[1..], settleTokens[1..])
  }

  /** Every transaction a replay keeps as settled carries the batch id it ends with. */
  predicate CarriesId(st: Replay)
  {
    forall j :: 0 <= j < |st.settled| ==> "settlement_id" in st.settled[j] && st.settled[j]["settlement_id"] == st.id
  }

  lemma {:induction false} ReplayCarriesId(st: Replay, ds: seq<TxData>, settleTokens: seq<string>)
    requires |settleTokens| == |ds| && AllSettleShaped(ds)
    requires CarriesId(st)
    ensures CarriesId(ReplayAll(st, ds, settleTokens))
    decreases |ds|
  {
    if ds != [] && st.raised.None? {
      var next := ReplayStep(st, ds[0], settleTokens[0]);
      assert CarriesId(next);
      ReplayCarriesId(next, ds[1..], settleTokens[1..]);
    }
  }

  /** A replay lists at most one unsettled transaction: the one settled alone last, if it was refused. */
  lemma {:induction false} ReplayUnsettledAtMostOne(st: Replay, ds: seq<TxData>, settleTokens: seq<string>)
    requires |settleTokens| == |ds| && AllSettleShaped(ds)
    requires |st.unsettled| <= 1
    ensures |ReplayAll(st, ds, settleTokens).unsettled| <= 1
    decreases |ds|
  {
    if ds != [] && st.raised.None? {
      ReplayUnsettledAtMostOne(ReplayStep(st, ds[0], settleTokens[0]), ds[1..], settleTokens[1..]);
    }
  }

  /** What `from_dict` builds from each stored transaction, in order. */
  function RestoredAll(srcs: seq<TxData>, idTokens: seq<string>): (ds: seq<TxData>)
    requires |idTokens| == |srcs|
    ensures |ds| == |srcs|
    ensures forall j :: 0 <= j < |srcs| ==> ds[j] == Merged(srcs[j], idTokens[j])
    ensures AllRestorable(srcs) ==> AllSettleShaped(ds)
  {
    if srcs == [] then [] else [Merged(srcs[0], idTokens[0])] + RestoredAll(srcs[1..], idTokens[1..])
  }

  /**
   * A stored batch whose every transaction carries its batch id replays to
   * itself: each is kept, in order, and nothing is settled again.
   */
  lemma {:induction false} ReplayOfSettledBatch(st: Replay, ds: seq<TxData>, settleTokens: seq<string>)
    requires |settleTokens| == |ds| && AllSettleShaped(ds)
    requires st.raised.None?
    requires forall j :: 0 <= j < |ds| ==> "settlement_id" in ds[j] && ds[j]["settlement_id"] == st.id
    ensures ReplayAll(st, ds, settleTokens) == st.(settled := st.settled + ds)
    decreases |ds|
  {
    if ds == [] {
      assert st.settled + ds == st.settled;
    } else {
      var next := st.(settled := st.settled + [ds[0]]);
      assert ReplayStep(st, ds[0], settleTokens[0]) == next;
      ReplayOfSettledBatch(next, ds[1..], settleTokens[1..]);
      assert st.settled + [ds[0]] + ds[1..] == st.settled + ds;
    }
  }

  /**
   * Replaying a stored batch can lose transactions it already holds: one
   * kept under the batch id is dropped when a later one without a
   * settlement id is settled alone, since that builds a new batch.
   */
  lemma ReplayDropsKeptTransaction()
    ensures var card := Dict(map["type" := Str("visa"), "valid" := Bool(true)]);
            var merchant := Dict(map["name" := Str("shop"), "network_id" := Str("n1")]);
            var kept := map["card" := card, "merchant_data" := merchant, "approved" := Bool(true),
                            "approval_code" := Str("appr_1"), "settlement_id" := Str("settle_old")];
            var later := map["card" := card, "merchant_data" := merchant, "approved" := Bool(true),
                             "approval_code" := Str("appr_2")];
            AllSettleShaped([kept, later])
            && ReplayAll(Replay(Str("settle_old"), [], [], {}, None), [kept, later], ["t1", "t2"])
               == Replay(Str("settle_t2"), [Stamped(later, Str("settle_t2"))], [], {"appr_2"}, None)
  {
    var card := Dict(map["type" := Str("visa"), "valid" := Bool(true)]);
    var merchant := Dict(map["name" := Str("shop"), "network_id" := Str("n1")]);
    var kept := map["card" := card, "merchant_data" := merchant, "approved" := Bool(true),
                    "approval_code" := Str("appr_1"), "settlement_id" := Str("settle_old")];
    var later := map["card" := card, "merchant_data" := merchant, "approved" := Bool(true),
                     "approval_code" := Str("appr_2")];
    var start := Replay(Str("settle_old"), [], [], {}, None);
    var afterKept := ReplayStep(start, kept, "t1");
    assert afterKept == start.(settled := [kept]);
    assert AllIn(CardAttributes, card.fields) && AllIn(MerchantAttributes, merchant.fields);
    assert AllIn(GeneralAttributes, later);
    assert SettleCheck(later) == Ok(true);
    assert Acceptable(later);
    assert "settle_" + "t2" == "settle_t2";
    assert SettledAlone(afterKept, later, "t2")
           == Replay(Str("settle_t2"), [Stamped(later, Str("settle_t2"))], [], {"appr_2"}, None);
    assert ReplayStep(afterKept, later, "t2")
           == Replay(Str("settle_t2"), [Stamped(later, Str("settle_t2"))], [], {"appr_2"}, None);
    var final := Replay(Str("settle_t2"), [Stamped(later, Str("settle_t2"))], [], {"appr_2"}, None);
    assert [kept, later][1..] == [later] && ["t1", "t2"][1..] == ["t2"];
    assert [later][1..] == [] && ["t2"][1..] == [];
    assert ReplayAll(final, [], []) == final;
    assert ReplayAll(afterKept, [later], ["t2"]) == final;
  }

  /** `settle` on a batch of one transaction, position by position. */
  lemma SingleBatch<T>(t: T, d: TxData, token: string)
    requires SettleShaped(d)
    ensures SettleCheck(d).Raise? ==> StopIndex([d]) == 0 && CodesUpTo([d], 0) == {}
    ensures SettleCheck(d).Ok? ==>
              && StopIndex([d]) == 1
              && CodesUpTo([d], 1) == (if Acceptable(d) then {d["approval_code"].s} else {})
              && IdUpTo([d], 1, token) == (if Acceptable(d) then Str("settle_" + token) else Pending)
              && PartUpTo([t], Verdicts([d]), 1, true) == (if Acceptable(d) then [t] else [])
              && PartUpTo([t], Verdicts([d]), 1, false) == (if Acceptable(d) then [] else [t])
              && Processed([d], 0, 1, IdUpTo([d], 1, token))
                 == (if Acceptable(d) then Stamped(d, Str("settle_" + token)) else d)
  {
    assert [d][1..] == [] && [d][0] == d;
    if Acceptable(d) {
      assert Acceptable([d][0]);
    }
    assert AnyAccepted([d], 1) == Acceptable(d);
  }

  /** The data of the transactions of `batch`, in order. */
  function Datas(batch: seq<Transaction>): (ds: seq<TxData>)
    reads set t | t in batch
    ensures |ds| == |batch|
    ensures forall i :: 0 <= i < |batch| ==> ds[i] == batch[i].data
  {
    if batch == [] then [] else [batch[0].data] + Datas(batch[1..])
  }

  class Settlement {
    /** "pending" until a transaction is accepted, then "settle_" and a fresh token. */
    var settlementId: Value
    /** The accepted transactions, each stamped with `settlementId`. */
    var transactions: seq<Transaction>
    /** The transactions that were not accepted. */
    var unsettled: seq<Transaction>

    constructor ()
      ensures settlementId == Pending && transactions == [] && unsettled == []
    {
      settlementId := Pending;
      transactions := [];
      unsettled := [];
    }

    /**
     * Checks that the card holds every attribute of `c`, the merchant data
     * every attribute of `m` and the transaction every attribute of `g`.
     */
    static method CheckTransaction(t: Transaction, g: seq<string>, c: seq<string>, m: seq<string>)
      returns (r: Result<bool>)
      requires Checkable(t.data)
      ensures r == CheckOutcome(t.data, g, c, m)
    {
      var result := true;
      var message: seq<string> := [];
      var i := 0;
      while i < |c|
        invariant 0 <= i <= |c|
        invariant i > 0 ==> "card" in t.data
        invariant result == (|message| == 0)
        invariant result <==> forall j :: 0 <= j < i ==> c[j] in t.data["card"].fields
      {
        if "card" !in t.data {
          return Raise(KeyError("card"));
        }
        if c[i] !in t.data["card"].fields {
          message := message + [c[i] + " not found in card data"];
          result := false;
        }
        i := i + 1;
      }
      ghost var cardFound := result;
      assert cardFound == Found(c, t.data, "card");
      i := 0;
      while i < |m|
        invariant 0 <= i <= |m|
        invariant i > 0 ==> "merchant_data" in t.data
        invariant result == (|message| == 0)
        invariant result <==> cardFound && forall j :: 0 <= j < i ==> m[j] in t.data["merchant_data"].fields
      {
        if "merchant_data" !in t.data {
          return Raise(KeyError("merchant_data"));
        }
        if m[i] !in t.data["merchant_data"].fields {
          message := message + [m[i] + " not found in merchant data"];
          result := false;
        }
        i := i + 1;
      }
      ghost var merchantFound := Found(m, t.data, "merchant_data");
      assert result == (cardFound && merchantFound);
      i := 0;
      while i < |g|
        invariant 0 <= i <= |g|
        invariant result == (|message| == 0)
        invariant result <==> cardFound && merchantFound && forall j :: 0 <= j < i ==> g[j] in t.data
      {
        if g[i] !in t.data {
          message := message + [g[i] + " not found in transaction data"];
          result := false;
        }
        i := i + 1;
      }
      if |message| > 0 {
        // The report calls `to_json` on the transaction's dictionary.
        return Raise(AttributeError("to_json"));
      }
      r := Ok(result);
    }

    /**
     * Settles a batch: each transaction is checked in turn; the first
     * accepted one fixes the batch id "settle_" + `token`, and every accepted
     * one is stamped with it, listed as settled and removed from the pending
     * store under its approval code (an unknown code is ignored). A check
     * that raises ends the call, leaving the effects on the transactions
     * before it in place.
     */
    static method Settle(batch: seq<Transaction>, store: PendingStore, token: string)
      returns (r: Result<Settlement>)
      requires store.Valid()
      requires AllSettleShaped(Datas(batch))
      requires forall i, j :: 0 <= i < j < |batch| ==> batch[i] != batch[j]
      modifies store, set t | t in batch
      ensures store.Valid()
      ensures var ds := old(Datas(batch));
              var k := StopIndex(ds);
              && (r.Raise? <==> k < |ds|)
              && (r.Raise? ==> r.error == SettleCheck(ds[k]).error)
              && (r.Ok? ==> fresh(r.value)
                             && r.value.settlementId == IdUpTo(ds, |ds|, token)
                             && r.value.transactions == PartUpTo(batch, Verdicts(ds), |ds|, true)
                             && r.value.unsettled == PartUpTo(batch, Verdicts(ds), |ds|, false))
              && store.entries == old(store.entries) - CodesUpTo(ds, k)
              && store.order == Without(old(store.order), CodesUpTo(ds, k))
              && forall i :: 0 <= i < |batch| ==> batch[i].data == Processed(ds, i, k, IdUpTo(ds, k, token))
    {
      ghost var ds := Datas(batch);
      var result := new Settlement();
      Started(result, batch, store, token, ds);
      var i := 0;
      while i < |batch|
        invariant fresh(result)
        invariant Progress(result, batch, store, token, ds, i, old(store.entries), old(store.order))
      {
        var raised := SettleStep(result, batch, store, token, ds, i, old(store.entries), old(store.order));
        if raised.Some? {
          Finished(result, batch, store, token, ds, i, old(store.entries), old(store.order));
          return Raise(raised.value);
        }
        i := i + 1;
      }
      Finished(result, batch, store, token, ds, i, old(store.entries), old(store.order));
      r := Ok(result);
    }

    /** Before `settle` looks at any transaction, nothing has happened yet. */
    static lemma Started(result: Settlement, batch: seq<Transaction>, store: PendingStore, token: string, ds: seq<TxData>)
      requires ds == Datas(batch) && AllSettleShaped(ds) && store.Valid()
      requires result.settlementId == Pending && result.transactions == [] && result.unsettled == []
      ensures Progress(result, batch, store, token, ds, 0, store.entries, store.order)
    {
      WithoutAbsent(store.order, {});
      assert store.entries - {} == store.entries;
    }

    /** Where `settle` stops, `Progress` says what the call's outcome is. */
    static lemma Finished(result: Settlement, batch: seq<Transaction>, store: PendingStore, token: string,
                          ds: seq<TxData>, k: nat, entries0: map<string, TxData>, order0: seq<string>)
      requires Progress(result, batch, store, token, ds, k, entries0, order0)
      requires k == StopIndex(ds) || k == |ds|
      ensures k == StopIndex(ds)
      ensures store.Valid()
      ensures result.settlementId == IdUpTo(ds, k, token)
      ensures result.transactions == PartUpTo(batch, Verdicts(ds), k, true)
      ensures result.unsettled == PartUpTo(batch, Verdicts(ds), k, false)
      ensures store.entries == entries0 - CodesUpTo(ds, k)
      ensures store.order == Without(order0, CodesUpTo(ds, k))
      ensures forall j :: 0 <= j < |batch| ==> batch[j].data == Processed(ds, j, k, IdUpTo(ds, k, token))
    {
    }

    /**
     * `settle` has processed the first `i` transactions of `batch`, whose
     * data was `ds`, without raising; the pending store held `entries0` and
     * `order0` before.
     */
    static ghost predicate Progress(result: Settlement, batch: seq<Transaction>, store: PendingStore, token: string,
                                    ds: seq<TxData>, i: nat, entries0: map<string, TxData>, order0: seq<string>)
      reads result, store, set t | t in batch
    {
      && |ds| == |batch| && AllSettleShaped(ds) && i <= |batch|
      && i <= StopIndex(ds)
      && ResultAt(result, batch, token, ds, i)
      && StoreAt(store, ds, i, entries0, order0)
      && BatchAt(batch, token, ds, i)
    }

    /** The settlement after the first `i` transactions: its id and its two lists. */
    static ghost predicate ResultAt(result: Settlement, batch: seq<Transaction>, token: string, ds: seq<TxData>, i: nat)
      requires |ds| == |batch| && AllSettleShaped(ds) && i <= |batch|
      reads result
    {
      && result.settlementId == IdUpTo(ds, i, token)
      && result.transactions == PartUpTo(batch, Verdicts(ds), i, true)
      && result.unsettled == PartUpTo(batch, Verdicts(ds), i, false)
    }

    /** The pending store after the first `i` transactions: their accepted codes are gone. */
    static ghost predicate StoreAt(store: PendingStore, ds: seq<TxData>, i: nat,
                                   entries0: map<string, TxData>, order0: seq<string>)
      requires AllSettleShaped(ds) && i <= |ds|
      reads store
    {
      && store.Valid()
      && store.entries == entries0 - CodesUpTo(ds, i)
      && store.order == Without(order0, CodesUpTo(ds, i))
    }

    /** The transactions after the first `i`: the accepted ones among those are stamped. */
    static ghost predicate BatchAt(batch: seq<Transaction>, token: string, ds: seq<TxData>, i: nat)
      requires |ds| == |batch| && AllSettleShaped(ds) && i <= |batch|
      reads set t | t in batch
    {
      forall j :: 0 <= j < |batch| ==> batch[j].data == Processed(ds, j, i, IdUpTo(ds, i, token))
    }

    /**
     * One transaction of `settle`: the check, then either the settled path
     * or the unsettled one.
     */
    static method SettleStep(result: Settlement, batch: seq<Transaction>, store: PendingStore, token: string,
                             ghost ds: seq<TxData>, i: nat, ghost entries0: map<string, TxData>, ghost order0: seq<string>)
      returns (raised: Option<Raised>)
      requires Progress(result, batch, store, token, ds, i, entries0, order0)
      requires i < |batch|
      requires forall i, j :: 0 <= i < j < |batch| ==> batch[i] != batch[j]
      modifies result, batch[i], store
      ensures raised.Some? ==> StopIndex(ds) == i && raised.value == SettleCheck(ds[i]).error
      ensures raised.Some? ==> unchanged(result, batch[i], store)
      ensures raised.Some? ==> Progress(result, batch, store, token, ds, i, entries0, order0)
      ensures raised.None? ==> Progress(result, batch, store, token, ds, i + 1, entries0, order0)
    {
      var t := batch[i];
      assert t.data == ds[i];
      var outcome := CheckTransaction(t, GeneralAttributes, CardAttributes, MerchantAttributes);
      if outcome.Raise? {
        StopIndexAt(ds, i);
        return Some(outcome.error);
      }
      raised := None;
      assert SettleCheck(ds[i]) == outcome;
      Advance(result, batch, store, token, ds, i, entries0, order0);
    }

    /**
     * A transaction whose check passed: the settled path if it is approved
     * and carries an approval code, the unsettled path otherwise.
     */
    static method Advance(result: Settlement, batch: seq<Transaction>, store: PendingStore, token: string,
                          ghost ds: seq<TxData>, i: nat, ghost entries0: map<string, TxData>, ghost order0: seq<string>)
      requires Progress(result, batch, store, token, ds, i, entries0, order0)
      requires i < |batch| && SettleCheck(ds[i]).Ok?
      requires forall i, j :: 0 <= i < j < |batch| ==> batch[i] != batch[j]
      modifies result, batch[i], store
      ensures Progress(result, batch, store, token, ds, i + 1, entries0, order0)
    {
      assert i + 1 <= StopIndex(ds);
      var t := batch[i];
      assert t.data == ds[i];
      // The check never answers False, so its "not accepted" branch is unreachable.
      if "approved" in t.data && Truthy(t.data["approved"])
         && "approval_code" in t.data && Truthy(t.data["approval_code"]) {
        var code := t.data["approval_code"].s;
        SettleAccepted(result, batch, token, ds, i);
        AcceptedStep(batch, ds, i, token);
        SettleCode(store, code, entries0, order0, CodesUpTo(ds, i));
      } else {
        SettleRejected(result, batch, store, token, ds, i, entries0, order0);
      }
    }

    /** Processing position `i` moves every position of the batch one step on. */
    static lemma ProcessedAll(batch: seq<Transaction>, ds: seq<TxData>, i: nat, token: string)
      requires |ds| == |batch| && AllSettleShaped(ds) && i < |batch|
      requires forall j :: 0 <= j < |batch| && j != i ==> batch[j].data == Processed(ds, j, i, IdUpTo(ds, i, token))
      requires batch[i].data == Processed(ds, i, i + 1, IdUpTo(ds, i + 1, token))
      ensures forall j :: 0 <= j < |batch| ==> batch[j].data == Processed(ds, j, i + 1, IdUpTo(ds, i + 1, token))
    {
      forall j | 0 <= j < |batch| && j != i
        ensures batch[j].data == Processed(ds, j, i + 1, IdUpTo(ds, i + 1, token))
      {
        ProcessedStep(ds, i, j, token);
      }
    }

    /** The settled path of `settle`: fix the batch id, stamp and list; `Advance` then settles the code. */
    static method SettleAccepted(result: Settlement, batch: seq<Transaction>, token: string,
                                 ghost ds: seq<TxData>, i: nat)
      requires |ds| == |batch| && AllSettleShaped(ds) && i < |batch|
      requires Acceptable(ds[i])
      requires forall i, j :: 0 <= i < j < |batch| ==> batch[i] != batch[j]
      requires ResultAt(result, batch, token, ds, i)
      requires BatchAt(batch, token, ds, i)
      modifies result, batch[i]
      ensures ResultAt(result, batch, token, ds, i + 1)
      ensures BatchAt(batch, token, ds, i + 1)
    {
      AcceptedStep(batch, ds, i, token);
      var t := batch[i];
      if result.settlementId == Pending {
        result.settlementId := Str("settle_" + token);
      }
      Stamp(batch, token, ds, i, result.settlementId);
      result.transactions := result.transactions + [t];
    }

    /** Stamps the accepted transaction at position `i` with the batch id. */
    static method Stamp(batch: seq<Transaction>, token: string, ghost ds: seq<TxData>, i: nat, id: Value)
      requires |ds| == |batch| && AllSettleShaped(ds) && i < |batch| && Acceptable(ds[i])
      requires forall i, j :: 0 <= i < j < |batch| ==> batch[i] != batch[j]
      requires BatchAt(batch, token, ds, i) && id == IdUpTo(ds, i + 1, token)
      modifies batch[i]
      ensures batch[i].data == Stamped(old(batch[i].data), id)
      ensures BatchAt(batch, token, ds, i + 1)
    {
      AcceptedStep(batch, ds, i, token);
      batch[i].data := batch[i].data["settlement_id" := id];
      assert forall j :: 0 <= j < |batch| && j != i ==> batch[j].data == old(batch[j].data);
      ProcessedAll(batch, ds, i, token);
    }

    /** Removes one more approval code from the pending store; an unknown code is ignored. */
    static method SettleCode(store: PendingStore, code: string, ghost entries0: map<string, TxData>,
                             ghost order0: seq<string>, ghost codes: set<string>)
      requires store.Valid()
      requires store.entries == entries0 - codes && store.order == Without(order0, codes)
      modifies store
      ensures store.Valid()
      ensures store.entries == entries0 - (codes + {code})
      ensures store.order == Without(order0, codes + {code})
    {
      var _ := store.Settle(code);
      WithoutWithout(order0, codes, {code});
      MinusMinus(entries0, codes, {code});
    }

    /** The unsettled path of `settle`: list the transaction as unsettled. */
    static method SettleRejected(result: Settlement, batch: seq<Transaction>, store: PendingStore, token: string,
                                 ghost ds: seq<TxData>, i: nat, ghost entries0: map<string, TxData>, ghost order0: seq<string>)
      requires |ds| == |batch| && AllSettleShaped(ds) && i < |batch|
      requires !Acceptable(ds[i])
      requires ResultAt(result, batch, token, ds, i)
      requires StoreAt(store, ds, i, entries0, order0)
      requires BatchAt(batch, token, ds, i)
      modifies result
      ensures ResultAt(result, batch, token, ds, i + 1)
      ensures StoreAt(store, ds, i + 1, entries0, order0)
      ensures BatchAt(batch, token, ds, i + 1)
    {
      RejectedStep(batch, ds, i, token);
      ProcessedAll(batch, ds, i, token);
      result.unsettled := result.unsettled + [batch[i]];
    }

    /**
     * Restores a stored batch: `settlementId` and `txs` are what the stored
     * JSON holds under "settlement_id" and "transactions"; `idTokens[i]` is
     * the fresh token `from_dict` uses for the i-th transaction and
     * `settleTokens[i]` the one `settle` uses if that transaction is settled
     * again. Specified by `ReplayAll`.
     */
    static method FromJson(settlementId: Value, txs: seq<TxData>, idTokens: seq<string>, settleTokens: seq<string>,
                           store: PendingStore)
      returns (r: Result<Settlement>)
      requires |idTokens| == |txs| && |settleTokens| == |txs| && AllRestorable(txs)
      requires store.Valid()
      modifies store
      ensures store.Valid()
      ensures var rp := ReplayAll(Replay(settlementId, [], [], {}, None), RestoredAll(txs, idTokens), settleTokens);
              && (r.Raise? <==> rp.raised.Some?)
              && (r.Raise? ==> r.error == rp.raised.value)
              && (r.Ok? ==> fresh(r.value) && r.value.settlementId == rp.id
                            && Datas(r.value.transactions) == rp.settled
                            && Datas(r.value.unsettled) == rp.unsettled)
              && store.entries == old(store.entries) - rp.removed
              && store.order == Without(old(store.order), rp.removed)
    {
      ghost var start := Replay(settlementId, [], [], {}, None);
      ghost var all := RestoredAll(txs, idTokens);
      ghost var st := start;
      var result := new Settlement();
      result.settlementId := settlementId;
      WithoutAbsent(store.order, {});
      var i := 0;
      while i < |txs|
        invariant 0 <= i <= |txs|
        invariant st.raised.None?
        invariant ReplayAll(start, all, settleTokens) == ReplayAll(st, all[i..], settleTokens[i..])
        invariant fresh(result)
        invariant result.settlementId == st.id
        invariant Datas(result.transactions) == st.settled
        invariant Datas(result.unsettled) == st.unsettled
        invariant store.Valid()
        invariant store.entries == old(store.entries) - st.removed
        invariant store.order == Without(old(store.order), st.removed)
      {
        assert all[i..][0] == all[i] && all[i..][1..] == all[i + 1..];
        assert settleTokens[i..][0] == settleTokens[i] && settleTokens[i..][1..] == settleTokens[i + 1..];
        var next := RestoreOne(result, txs[i], idTokens[i], settleTokens[i], store, st,
                               old(store.entries), old(store.order));
        if next.Raise? {
          return Raise(next.error);
        }
        result := next.value;
        st := ReplayStep(st, all[i], settleTokens[i]);
        i := i + 1;
      }
      r := Ok(result);
    }

    /** One stored transaction of `from_json`, given the replay state `st` so far. */
    static method RestoreOne(result: Settlement, src: TxData, idToken: string, settleToken: string,
                             store: PendingStore, ghost st: Replay,
                             ghost entries0: map<string, TxData>, ghost order0: seq<string>)
      returns (r: Result<Settlement>)
      requires Restorable(src) && st.raised.None?
      requires store.Valid()
      requires result.settlementId == st.id
      requires Datas(result.transactions) == st.settled
      requires Datas(result.unsettled) == st.unsettled
      requires store.entries == entries0 - st.removed
      requires store.order == Without(order0, st.removed)
      modifies result, store
      ensures store.Valid()
      ensures var next := ReplayStep(st, Merged(src, idToken), settleToken);
              && (r.Raise? <==> next.raised.Some?)
              && (r.Raise? ==> r.error == next.raised.value)
              && (r.Ok? ==> (r.value == result || fresh(r.value))
                            && r.value.settlementId == next.id
                            && Datas(r.value.transactions) == next.settled
                            && Datas(r.value.unsettled) == next.unsettled)
              && store.entries == entries0 - next.removed
              && store.order == Without(order0, next.removed)
    {
      var t := Transaction.FromDict(src, idToken);
      RestoredShape(src, idToken);
      if "settlement_id" !in t.data {
        r := SettleAlone(t, settleToken, store, st, entries0, order0);
      } else if t.data["settlement_id"] == result.settlementId {
        ghost var d := t.data;
        result.transactions := result.transactions + [t];
        assert Datas(result.transactions) == st.settled + [d];
        r := Ok(result);
      } else {
        r := Ok(result);
      }
    }

    /** `settle([t])` inside `from_json`: a new batch holding `t` alone. */
    static method SettleAlone(t: Transaction, settleToken: string, store: PendingStore, ghost st: Replay,
                              ghost entries0: map<string, TxData>, ghost order0: seq<string>)
      returns (r: Result<Settlement>)
      requires SettleShaped(t.data) && st.raised.None?
      requires store.Valid()
      requires store.entries == entries0 - st.removed
      requires store.order == Without(order0, st.removed)
      modifies t, store
      ensures store.Valid()
      ensures var next := SettledAlone(st, old(t.data), settleToken);
              && (r.Raise? <==> next.raised.Some?)
              && (r.Raise? ==> r.error == next.raised.value)
              && (r.Ok? ==> fresh(r.value)
                            && r.value.settlementId == next.id
                            && Datas(r.value.transactions) == next.settled
                            && Datas(r.value.unsettled) == next.unsettled)
              && store.entries == entries0 - next.removed
              && store.order == Without(order0, next.removed)
    {
      ghost var d := t.data;
      assert Datas([t]) == [d];
      SingleBatch(t, d, settleToken);
      var settled := Settle([t], store, settleToken);
      ghost var codes := CodesUpTo([d], StopIndex([d]));
      WithoutWithout(order0, st.removed, codes);
      MinusMinus(entries0, st.removed, codes);
      assert st.removed + {} == st.removed;
      r := settled;
      if r.Ok? {
        assert Datas(r.value.transactions) == if Acceptable(d) then [t.data] else [];
        assert Datas(r.value.unsettled) == if Acceptable(d) then [] else [t.data];
      }
    }
  }
}
