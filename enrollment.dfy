/**
 * The enrollment table: the cards the service knows, loaded once from a list
 * of records and read by authorization.
 *
 * Each accepted record is stored twice in the same table, under its card id
 * and under its customer id; a later record overwrites an earlier one that
 * shares either key. The stored value is the raw record.
 */
module Enrollment {
  import opened PyValues
  import opened CardValidation

  /** The fields a record must carry, each with a truthy value, to be enrolled. */
  const RequiredFields: set<string> :=
    {"authorizing_bank", "card_code", "card_limit", "currency", "exp_month",
     "exp_year", "id", "name", "zip_code"}

  /** `field` is present and truthy (an empty string or 0 counts as missing). */
  predicate Present(card: TxData, field: string)
  {
    field in card && Truthy(card[field])
  }

  predicate HasRequiredFields(card: TxData)
  {
    forall f :: f in RequiredFields ==> Present(card, f)
  }

  /**
   * The types the table is built from: string card and customer ids, which
   * key the table, and codes that `str()` renders.
   */
  predicate RecordShaped(card: TxData)
  {
    && ("id" in card ==> card["id"].Str?)
    && ("customer_id" in card ==> card["customer_id"].Str?)
    && ("card_code" in card ==> !card["card_code"].Dict?)
  }

  /** A complete record whose card number and CVV pass, so that its expiry is checked. */
  predicate CardPasses(card: TxData)
    requires RecordShaped(card)
  {
    HasRequiredFields(card) && ValidateCard(card["id"].s, PyStr(card["card_code"])).valid
  }

  /** The expiry check of a record, which raises when its month or year cannot be converted. */
  function RecordExpiry(card: TxData, today: Date): Result<bool>
    requires RecordShaped(card) && CardPasses(card)
  {
    ExpiryCheck(card["exp_month"], card["exp_year"], today, DefaultMaxFutureYear)
  }

  /** A record the loader accepts: all fields there, a valid card number and CVV, an expiry in the window. */
  predicate Eligible(card: TxData, today: Date)
    requires RecordShaped(card)
  {
    CardPasses(card) && RecordExpiry(card, today) == Ok(true)
  }

  /** The table after loading, and the exception that stopped the load, if any. */
  datatype Loaded = Loaded(table: map<string, TxData>, raised: Option<Raised>)

  /**
   * Loading one record. A record lacking `id` raises KeyError when the
   * loader reports its missing field; a record whose card passes but whose
   * expiry cannot be converted raises in the expiry check; an accepted
   * record lacking `customer_id` raises after it was stored under its card id.
   */
  function LoadRecord(table: map<string, TxData>, card: TxData, today: Date): (r: Loaded)
    requires RecordShaped(card)
    ensures r.raised.Some? <==> RecordRaises(card, today)
    ensures CardPasses(card) && RecordExpiry(card, today).Raise? ==>
              r == Loaded(table, Some(RecordExpiry(card, today).error))
  {
    if !HasRequiredFields(card) then
      if "id" in card then Loaded(table, None) else Loaded(table, Some(KeyError("id")))
    else if !CardPasses(card) then Loaded(table, None)
    else if RecordExpiry(card, today).Raise? then Loaded(table, Some(RecordExpiry(card, today).error))
    else if !Eligible(card, today) then Loaded(table, None)
    else
      var withId := table[card["id"].s := card];
      if "customer_id" in card then Loaded(withId[card["customer_id"].s := card], None)
      else Loaded(withId, Some(KeyError("customer_id")))
  }

  /**
   * What loading one record does to the table: an ineligible record leaves it
   * as it was; an eligible one is stored under its card id and, when nothing
   * was raised, under its customer id, every other entry kept.
   */
  lemma LoadRecordEffect(table: map<string, TxData>, card: TxData, today: Date)
    requires RecordShaped(card) && "id" in card
    ensures !Eligible(card, today) ==> LoadRecord(table, card, today).table == table
    ensures Eligible(card, today) ==>
              var r := LoadRecord(table, card, today);
              var id := card["id"].s;
              && id in r.table && r.table[id] == card
              && (r.raised.None? ==> card["customer_id"].s in r.table && r.table[card["customer_id"].s] == card)
              && (forall k :: k in table ==> k in r.table)
              && (forall k :: k in r.table && k != id && (r.raised.None? ==> k != card["customer_id"].s)
                    ==> k in table && r.table[k] == table[k])
  {
  }

  /** Loading `card` raises, whatever the table holds. */
  predicate RecordRaises(card: TxData, today: Date)
    requires RecordShaped(card)
  {
    || "id" !in card
    || (CardPasses(card) && RecordExpiry(card, today).Raise?)
    || (Eligible(card, today) && "customer_id" !in card)
  }

  /** Loading records in order, stopping at the first exception: a load raises iff one of its records does. */
  function LoadAll(table: map<string, TxData>, cards: seq<TxData>, today: Date): (r: Loaded)
    requires forall i :: 0 <= i < |cards| ==> RecordShaped(cards[i])
    ensures r.raised.Some? <==> exists i :: 0 <= i < |cards| && RecordRaises(cards[i], today)
    decreases |cards|
  {
    if cards == [] then Loaded(table, None)
    else
      var first := LoadRecord(table, cards[0], today);
      if first.raised.Some? then first
      else
        var rest := LoadAll(first.table, cards[1..], today);
        assert forall i :: 1 <= i < |cards| ==> cards[i] == cards[1..][i - 1];
        rest
  }

  /** What the table holds for an enrolled card: the full record with its customer id. */
  predicate StoredRecord(rec: TxData)
  {
    HasRequiredFields(rec) && rec["id"].Str? && !rec["card_code"].Dict?
    && "customer_id" in rec && rec["customer_id"].Str?
  }

  /** Every entry is a stored record whose customer id is itself a key. */
  predicate ValidTable(t: map<string, TxData>)
  {
    forall k :: k in t ==> StoredRecord(t[k]) && t[k]["customer_id"].s in t
  }

  /** A load that raises nothing keeps the table's invariant. */
  lemma {:induction false} LoadAllKeepsValid(table: map<string, TxData>, cards: seq<TxData>, today: Date)
    requires forall i :: 0 <= i < |cards| ==> RecordShaped(cards[i])
    requires ValidTable(table)
    requires LoadAll(table, cards, today).raised.None?
    ensures ValidTable(LoadAll(table, cards, today).table)
    decreases |cards|
  {
    if cards != [] {
      var first := LoadRecord(table, cards[0], today);
      assert first.raised.None?;
      LoadRecordKeepsValid(table, cards[0], today);
      LoadAllKeepsValid(first.table, cards[1..], today);
    }
  }

  /** Enrolling one record without an exception keeps the table's invariant. */
  lemma LoadRecordKeepsValid(table: map<string, TxData>, card: TxData, today: Date)
    requires RecordShaped(card) && ValidTable(table)
    requires LoadRecord(table, card, today).raised.None?
    ensures ValidTable(LoadRecord(table, card, today).table)
  {
    var first := LoadRecord(table, card, today);
    assert "id" in card;
    LoadRecordEffect(table, card, today);
    if Eligible(card, today) {
      assert StoredRecord(card);
      var t := first.table;
      var id := card["id"].s;
      var customer := card["customer_id"].s;
      assert t == table[id := card][customer := card];
      forall k | k in t ensures StoredRecord(t[k]) && t[k]["customer_id"].s in t {
        if k != id && k != customer {
          assert t[k] == table[k];
        }
      }
    }
  }

  /** Records that are skipped or use other keys never touch `key`. */
  lemma {:induction false} LoadAllKeepsKey(table: map<string, TxData>, cards: seq<TxData>, today: Date, key: string)
    requires forall i :: 0 <= i < |cards| ==> RecordShaped(cards[i])
    requires LoadAll(table, cards, today).raised.None?
    requires key in table
    requires forall j :: 0 <= j < |cards| && Eligible(cards[j], today) ==>
               key != cards[j]["id"].s && ("customer_id" in cards[j] ==> key != cards[j]["customer_id"].s)
    ensures key in LoadAll(table, cards, today).table
    ensures LoadAll(table, cards, today).table[key] == table[key]
    decreases |cards|
  {
    if cards != [] {
      var first := LoadRecord(table, cards[0], today);
      if "id" in cards[0] {
        LoadRecordEffect(table, cards[0], today);
      }
      assert key in first.table && first.table[key] == table[key];
      forall j | 0 <= j < |cards[1..]| && Eligible(cards[1..][j], today)
        ensures key != cards[1..][j]["id"].s && ("customer_id" in cards[1..][j] ==> key != cards[1..][j]["customer_id"].s)
      {
        assert cards[1..][j] == cards[j + 1];
      }
      LoadAllKeepsKey(first.table, cards[1..], today, key);
    }
  }

  /**
   * After a load that raised nothing, an accepted record is found under its
   * card id and under its customer id, unless a later accepted record took
   * that key.
   */
  lemma {:induction false} LoadedUnderBothKeys(table: map<string, TxData>, cards: seq<TxData>, today: Date, i: nat, key: string)
    requires forall j :: 0 <= j < |cards| ==> RecordShaped(cards[j])
    requires LoadAll(table, cards, today).raised.None?
    requires i < |cards| && Eligible(cards[i], today)
    requires key == cards[i]["id"].s || ("customer_id" in cards[i] && key == cards[i]["customer_id"].s)
    requires forall j :: i < j < |cards| && Eligible(cards[j], today) ==>
               key != cards[j]["id"].s && ("customer_id" in cards[j] ==> key != cards[j]["customer_id"].s)
    ensures key in LoadAll(table, cards, today).table
    ensures LoadAll(table, cards, today).table[key] == cards[i]
    decreases i
  {
    var first := LoadAllStep(table, cards, today);
    if i == 0 {
      LoadRecordEffect(table, cards[0], today);
      NotOverwrittenLater(cards, today, key, 0);
      LoadAllKeepsKey(first.table, cards[1..], today, key);
    } else {
      NotOverwrittenLater(cards, today, key, i);
      assert cards[1..][i - 1] == cards[i];
      LoadedUnderBothKeys(first.table, cards[1..], today, i - 1, key);
    }
  }

  /** The first step of a load that raises nothing: the first record raises nothing either. */
  lemma LoadAllStep(table: map<string, TxData>, cards: seq<TxData>, today: Date) returns (first: Loaded)
    requires forall j :: 0 <= j < |cards| ==> RecordShaped(cards[j])
    requires LoadAll(table, cards, today).raised.None? && cards != []
    ensures first == LoadRecord(table, cards[0], today) && first.raised.None?
    ensures forall j :: 0 <= j < |cards[1..]| ==> RecordShaped(cards[1..][j])
    ensures LoadAll(table, cards, today) == LoadAll(first.table, cards[1..], today)
  {
    first := LoadRecord(table, cards[0], today);
  }

  /** No eligible record after position `i` overwrites `key`, seen from the rest of the sequence. */
  lemma NotOverwrittenLater(cards: seq<TxData>, today: Date, key: string, i: nat)
    requires forall j :: 0 <= j < |cards| ==> RecordShaped(cards[j])
    requires i < |cards|
    requires forall j :: i < j < |cards| && Eligible(cards[j], today) ==>
               key != cards[j]["id"].s && ("customer_id" in cards[j] ==> key != cards[j]["customer_id"].s)
    ensures forall j :: i <= j < |cards[1..]| && Eligible(cards[1..][j], today) ==>
              key != cards[1..][j]["id"].s && ("customer_id" in cards[1..][j] ==> key != cards[1..][j]["customer_id"].s)
  {
    forall j | i <= j < |cards[1..]| && Eligible(cards[1..][j], today)
      ensures key != cards[1..][j]["id"].s && ("customer_id" in cards[1..][j] ==> key != cards[1..][j]["customer_id"].s)
    {
      assert cards[1..][j] == cards[j + 1];
    }
  }


  class EnrollmentStore {
    /** Card records keyed both by card id and by customer id. */
    var table: map<string, TxData>

    ghost predicate Valid()
      reads this
    {
      ValidTable(table)
    }

    constructor ()
      ensures Valid() && table == map[]
    {
      table := map[];
    }

    /** A card id is enrolled iff it is a key of the table; its record then has every required field. */
    function Enrolled(cardId: string): (r: bool)
      reads this
      requires Valid()
      ensures r <==> cardId in table
      ensures r ==> HasRequiredFields(table[cardId])
    {
      cardId in table
    }

    /** The customer id of an enrolled card, nothing otherwise; the customer id is a key of the table too. */
    function CustomerId(cardId: string): (r: Option<string>)
      reads this
      requires Valid()
      ensures r.Some? <==> Enrolled(cardId)
      ensures r.Some? ==> r.value in table
    {
      if Enrolled(cardId) then Some(table[cardId]["customer_id"].s) else None
    }

    /** Whether the code stored in the record under `customerId` equals `code`; stored codes are never falsy. */
    function CheckCode(customerId: string, code: Value): (ok: bool)
      reads this
      requires customerId in table && HasRequiredFields(table[customerId])
      ensures ok ==> Truthy(code)
    {
      table[customerId]["card_code"] == code
    }

    /** The limit stored in the record under `customerId`; it is never falsy. */
    function Limit(customerId: string): (v: Value)
      reads this
      requires customerId in table && HasRequiredFields(table[customerId])
      ensures Truthy(v)
    {
      table[customerId]["card_limit"]
    }

    /** Enrolls one record if it is eligible; raises where reporting a missing field or the customer id fails. */
    method LoadCard(card: TxData, today: Date) returns (raised: Option<Raised>)
      requires RecordShaped(card)
      modifies this
      ensures Loaded(table, raised) == LoadRecord(old(table), card, today)
    {
      var valid;
      valid, raised := CheckFields(card);
      if raised.Some? {
        return;
      }
      if valid {
        if ValidateCard(card["id"].s, PyStr(card["card_code"])).valid {
          var expiry := ExpiryCheck(card["exp_month"], card["exp_year"], today, DefaultMaxFutureYear);
          if expiry.Raise? {
            return Some(expiry.error);
          }
          if expiry.value {
            table := table[card["id"].s := card];
            if "customer_id" !in card {
              return Some(KeyError("customer_id"));
            }
            table := table[card["customer_id"].s := card];
          }
        }
      }
    }

    /**
     * Looks for every required field; a missing one is reported by the
     * record's id, which raises when the id itself is missing.
     */
    static method CheckFields(card: TxData) returns (valid: bool, raised: Option<Raised>)
      ensures raised.Some? <==> "id" !in card
      ensures raised.Some? ==> raised.value == KeyError("id")
      ensures raised.None? ==> (valid <==> HasRequiredFields(card))
    {
      valid := true;
      raised := None;
      var fields := RequiredFields;
      while fields != {}
        invariant fields <= RequiredFields
        invariant valid <==> forall f :: f in RequiredFields && f !in fields ==> Present(card, f)
        invariant "id" !in fields ==> "id" in card
        decreases fields
      {
        var f :| f in fields;
        ghost var seen := valid;
        if !(f in card && Truthy(card[f])) {
          if "id" !in card {
            // reporting the missing field reads the absent id
            return valid, Some(KeyError("id"));
          }
          valid := false;
        }
        fields := fields - {f};
        assert valid <==> seen && Present(card, f);
      }
      assert valid <==> HasRequiredFields(card);
    }

    /**
     * Reads the records in order and enrolls each eligible one under its card
     * id and its customer id; stops at the first exception.
     */
    method LoadCards(cards: seq<TxData>, today: Date) returns (raised: Option<Raised>)
      requires forall i :: 0 <= i < |cards| ==> RecordShaped(cards[i])
      modifies this
      ensures Loaded(table, raised) == LoadAll(old(table), cards, today)
      ensures old(Valid()) && raised.None? ==> Valid()
    {
      var i := 0;
      while i < |cards|
        invariant 0 <= i <= |cards|
        invariant LoadAll(old(table), cards, today) == LoadAll(table, cards[i..], today)
      {
        var card := cards[i];
        assert cards[i..][0] == card && cards[i..][1..] == cards[i + 1..];
        raised := LoadCard(card, today);
        if raised.Some? {
          return;
        }
        i := i + 1;
      }
      raised := None;
      if old(Valid()) {
        LoadAllKeepsValid(old(table), cards, today);
      }
    }
  }
}
