/**
 * A card transaction: a dictionary holding the card, the amount, the
 * merchant and, as it goes through validation and authorization, the
 * verdicts stamped on it.
 *
 * The class keeps the dictionary in `data` and updates it in place; the
 * verdicts are computed by functions on the dictionary, so that the
 * properties of a transaction can be stated about values.
 */
module Transactions {
  import opened PyValues
  import opened CardValidation
  import opened Enrollment

  /** The fields every card record of a transaction starts with. */
  const CardKeys: set<string> := {"id", "name", "card_code", "currency", "exp_month", "exp_year"}

  /** The largest amount, in cents, validation lets through. */
  const MaxAmount := 500000

  function NewCard(name: Value, cc: Value, cvv: Value, expMonth: Value, expYear: Value, currency: Value): (c: TxData)
    ensures c.Keys == CardKeys
  {
    map["id" := cc, "name" := name, "card_code" := cvv, "currency" := currency,
        "exp_month" := expMonth, "exp_year" := expYear]
  }

  /**
   * The data of a new transaction; `token` stands for the random uuid in its
   * id. A new transaction has no merchant and a zero amount, so it is not
   * ready for a request.
   */
  function InitialData(name: Value, cc: Value, cvv: Value, expMonth: Value, expYear: Value,
                       currency: Value, token: string): (d: TxData)
    ensures d.Keys == {"card", "id", "currency", "amount"}
    ensures d["id"] == Str("auth_" + token) && d["amount"] == Int(0) && d["currency"] == currency
    ensures d["card"] == Dict(NewCard(name, cc, cvv, expMonth, expYear, currency))
    ensures WellFormed(d) && !ReadyForRequest(d)
  {
    map["card" := Dict(NewCard(name, cc, cvv, expMonth, expYear, currency)),
        "id" := Str("auth_" + token), "currency" := currency, "amount" := Int(0)]
  }

  /** The data of a transaction built with every argument left at its default. */
  function DefaultData(token: string): TxData
  {
    InitialData(Str(""), Str(""), Str(""), Int(0), Int(2000), Str("usd"), token)
  }

  /**
   * The shape every transaction object keeps: a card dictionary, an integer
   * amount, and a merchant dictionary when there is one.
   */
  predicate WellFormed(d: TxData)
  {
    && "card" in d && d["card"].Dict?
    && "amount" in d && d["amount"].Int?
    && ("merchant_data" in d ==> d["merchant_data"].Dict?)
  }

  /** The card holds a string number and a CVV that is not a dictionary, since `str()` is modelled on scalars only. */
  predicate CardReadable(d: TxData)
    requires WellFormed(d)
  {
    var card := d["card"].fields;
    "id" in card && card["id"].Str? && "card_code" in card && !card["card_code"].Dict?
  }

  /** When both expiry fields are there, `int()` turns them into a month and a year. */
  predicate ExpiryReadable(d: TxData)
    requires WellFormed(d)
  {
    var card := d["card"].fields;
    "exp_month" in card && "exp_year" in card ==> DateArgsValid(card["exp_month"], card["exp_year"])
  }

  /** The transaction names itself, carries a complete card and a complete merchant. */
  predicate HasRequestData(d: TxData)
    requires WellFormed(d)
  {
    && "id" in d
    && CardKeys <= d["card"].fields.Keys
    && "merchant_data" in d
    && "name" in d["merchant_data"].fields && "network_id" in d["merchant_data"].fields
  }

  /** Ready for a request: all the data is there and the amount is positive; the values are not checked. */
  predicate ReadyForRequest(d: TxData)
    requires WellFormed(d)
  {
    HasRequestData(d) && d["amount"].i > 0
  }

  /** The card verdict on a transaction's card number and CVV. */
  function CardCheckOf(d: TxData): CardCheck
    requires WellFormed(d) && CardReadable(d)
  {
    ValidateCard(d["card"].fields["id"].s, PyStr(d["card"].fields["card_code"]))
  }

  /** The vendor name stamped on a card, or `False` when no vendor pattern matched. */
  function TypeValue(r: CardCheck): (v: Value)
    ensures v.Str? <==> r.vendor.Some?
    ensures v.Str? ==> v.s == VendorName(r.vendor.value)
  {
    if r.vendor.Some? then Str(VendorName(r.vendor.value)) else Bool(false)
  }

  /**
   * The transaction after its card is checked: the card gains `valid` and
   * `type`; nothing else changes, so readiness and expiry are as before.
   */
  function WithCardCheck(d: TxData): (e: TxData)
    requires WellFormed(d) && CardReadable(d)
    ensures WellFormed(e) && CardReadable(e) && ExpiryReadable(e) == ExpiryReadable(d)
    ensures ReadyForRequest(e) == ReadyForRequest(d)
    ensures e.Keys == d.Keys && forall k :: k in d && k != "card" ==> e[k] == d[k]
    ensures e["card"].fields.Keys == d["card"].fields.Keys + {"valid", "type"}
    ensures e["card"].fields["valid"] == Bool(CardCheckOf(d).valid)
    ensures forall k :: k in d["card"].fields && k != "valid" && k != "type" ==> e["card"].fields[k] == d["card"].fields[k]
  {
    var r := CardCheckOf(d);
    d["card" := Dict(d["card"].fields["valid" := Bool(r.valid)]["type" := TypeValue(r)])]
  }

  /**
   * The expiry check: a card lacking either expiry field passes it;
   * otherwise `validate_date` decides, or raises on a month or year it
   * cannot convert.
   */
  function ExpiryOutcome(d: TxData, today: Date): (r: Result<bool>)
    requires WellFormed(d)
    ensures !("exp_month" in d["card"].fields && "exp_year" in d["card"].fields) ==> r == Ok(true)
    ensures r.Raise? <==> !ExpiryReadable(d)
  {
    var card := d["card"].fields;
    if "exp_month" in card && "exp_year" in card then
      ExpiryCheck(card["exp_month"], card["exp_year"], today, DefaultMaxFutureYear)
    else Ok(true)
  }

  /** Checking the card leaves the expiry fields, and so the expiry check, as they were. */
  lemma CardCheckKeepsExpiry(d: TxData, today: Date)
    requires WellFormed(d) && CardReadable(d)
    ensures ExpiryOutcome(WithCardCheck(d), today) == ExpiryOutcome(d, today)
  {
    var card := d["card"].fields;
    var card2 := WithCardCheck(d)["card"].fields;
    assert "exp_month" in card2 <==> "exp_month" in card;
    assert "exp_year" in card2 <==> "exp_year" in card;
    assert "exp_month" in card ==> card2["exp_month"] == card["exp_month"];
    assert "exp_year" in card ==> card2["exp_year"] == card["exp_year"];
  }

  /** An outcome recorded on a transaction: approved, or declined with a code and a message. */
  datatype Verdict = Approved | Declined(code: int, message: string)

  /** The checks before the expiry check all pass, so `validate_transaction` reads the expiry. */
  predicate ExpiryReached(d: TxData)
    requires WellFormed(d) && CardReadable(d)
  {
    CardCheckOf(d).valid && ReadyForRequest(d) && 0 <= d["amount"].i <= MaxAmount
  }

  /**
   * Validation: the first failing check decides, in the order card (401),
   * readiness (402), amount (405), expiry (408). Only the expiry check can
   * raise, so a transaction that fails an earlier check gets its verdict
   * whatever its expiry fields hold.
   */
  function ValidationVerdict(d: TxData, today: Date): (r: Result<Verdict>)
    requires WellFormed(d) && CardReadable(d)
    ensures r.Raise? ==> ExpiryReached(d) && !ExpiryReadable(d)
  {
    var e := WithCardCheck(d);
    if !CardCheckOf(d).valid then Ok(Declined(401, "Card is not valid"))
    else if !ReadyForRequest(e) then Ok(Declined(402, "Missing information for transaction approval"))
    else if e["amount"].i < 0 || e["amount"].i > MaxAmount then Ok(Declined(405, "Transaction amount threshold exceeded"))
    else
      match ExpiryOutcome(e, today)
      case Raise(err) => Raise(err)
      case Ok(ok) => if ok then Ok(Approved) else Ok(Declined(408, "Invalid expiration date"))
  }

  /** Recording a verdict leaves the card, the amount and the merchant alone. */
  lemma RecordedKeepsShape(d: TxData, v: Verdict)
    requires WellFormed(d)
    ensures WellFormed(Recorded(d, v))
    ensures CardReadable(Recorded(d, v)) == CardReadable(d)
    ensures ReadyForRequest(Recorded(d, v)) == ReadyForRequest(d)
  {
    var e := Recorded(d, v);
    assert e["card"] == d["card"] && e["amount"] == d["amount"];
    assert "merchant_data" in e <==> "merchant_data" in d;
    assert "merchant_data" in e ==> e["merchant_data"] == d["merchant_data"];
    assert "id" in e <==> "id" in d;
  }

  /**
   * The verdict of `validate_transaction`: approved exactly when the card is
   * valid, the transaction is ready, the amount is within bounds and the
   * expiry date is acceptable. Each failure, with its message, is given
   * exactly when every check before it passes and its own check fails. It
   * raises exactly when the earlier checks pass and the expiry check raises.
   */
  lemma ValidationVerdictMeaning(d: TxData, today: Date)
    requires WellFormed(d) && CardReadable(d)
    ensures var r := ValidationVerdict(d, today);
            && (r == Ok(Approved) <==> ExpiryReached(d) && ExpiryOutcome(d, today) == Ok(true))
            && (r.Raise? <==> ExpiryReached(d) && ExpiryOutcome(d, today).Raise?)
            && (r.Raise? ==> r.error == ExpiryOutcome(d, today).error)
            && (r.Ok? && r.value.Declined? ==> r.value.code in {401, 402, 405, 408})
            && (r == Ok(Declined(401, "Card is not valid")) <==> !CardCheckOf(d).valid)
            && (r == Ok(Declined(402, "Missing information for transaction approval")) <==>
                  CardCheckOf(d).valid && !ReadyForRequest(d))
            && (r == Ok(Declined(405, "Transaction amount threshold exceeded")) <==>
                  && CardCheckOf(d).valid && ReadyForRequest(d)
                  && (d["amount"].i < 0 || d["amount"].i > MaxAmount))
            && (r == Ok(Declined(408, "Invalid expiration date")) <==>
                  ExpiryReached(d) && ExpiryOutcome(d, today) == Ok(false))
  {
    CardCheckKeepsExpiry(d, today);
  }

  /**
   * A transaction built with every argument left at its default is declined
   * for its card, although its expiry month 0 would make the expiry check
   * raise: that check is never reached.
   */
  lemma DefaultTransactionDeclined(token: string, today: Date)
    ensures WellFormed(DefaultData(token)) && CardReadable(DefaultData(token))
    ensures ExpiryOutcome(DefaultData(token), today).Raise?
    ensures ValidationVerdict(DefaultData(token), today) == Ok(Declined(401, "Card is not valid"))
  {
    var d := DefaultData(token);
    assert d["card"].fields["id"] == Str("");
    assert d["card"].fields["exp_month"] == Int(0);
    assert VendorOf("") == None;
  }

  /** The transaction with a validation verdict recorded on it. */
  function Recorded(d: TxData, v: Verdict): (e: TxData)
    ensures e.Keys == d.Keys + {"approved", "failure_code", "failure_message"}
    ensures e["approved"] == Bool(v.Approved?)
    ensures v.Approved? <==> e["failure_code"] == Str("")
    ensures v.Approved? ==> e["failure_message"] == Str("")
    ensures v.Declined? ==> e["failure_code"] == Int(v.code) && e["failure_message"] == Str(v.message)
    ensures forall k :: k in d && k != "approved" && k != "failure_code" && k != "failure_message" ==> e[k] == d[k]
  {
    match v
    case Approved =>
      d["approved" := Bool(true)]["failure_code" := Str("")]["failure_message" := Str("")]
    case Declined(code, message) =>
      d["approved" := Bool(false)]["failure_code" := Int(code)]["failure_message" := Str(message)]
  }

  /** The card id is a key of the enrollment table. */
  predicate CardEnrolled(d: TxData, t: map<string, TxData>)
    requires WellFormed(d)
  {
    var card := d["card"].fields;
    "id" in card && card["id"].Str? && card["id"].s in t
  }

  /** The enrolled card's record names a customer id under which a complete record is stored. */
  predicate CustomerOnFile(d: TxData, t: map<string, TxData>)
    requires WellFormed(d) && CardEnrolled(d, t)
  {
    var rec := t[d["card"].fields["id"].s];
    && "customer_id" in rec && rec["customer_id"].Str? && rec["customer_id"].s in t
    && HasRequiredFields(t[rec["customer_id"].s])
  }

  /**
   * What authorization needs of the table for this transaction: an enrolled
   * card leads to a complete customer record. Every valid table provides it
   * (`ValidTableAuthorizable`).
   */
  predicate Authorizable(d: TxData, t: map<string, TxData>)
    requires WellFormed(d)
  {
    CardEnrolled(d, t) ==> CustomerOnFile(d, t)
  }

  /** A table that keeps the enrollment invariant serves every transaction. */
  lemma ValidTableAuthorizable(d: TxData, t: map<string, TxData>)
    requires WellFormed(d) && ValidTable(t)
    ensures Authorizable(d, t)
  {
  }

  /** The record stored under the customer id of an enrolled card. */
  function CustomerRecord(d: TxData, t: map<string, TxData>): (rec: TxData)
    requires WellFormed(d) && CardEnrolled(d, t) && CustomerOnFile(d, t)
    ensures HasRequiredFields(rec)
  {
    t[t[d["card"].fields["id"].s]["customer_id"].s]
  }

  /** The card's code equals the code in the customer's record. */
  predicate CodeMatches(d: TxData, t: map<string, TxData>)
    requires WellFormed(d) && CardEnrolled(d, t) && CustomerOnFile(d, t)
  {
    "card_code" in d["card"].fields && CustomerRecord(d, t)["card_code"] == d["card"].fields["card_code"]
  }

  /**
   * Authorization against the enrollment table. With the checks switched
   * off every transaction is approved. Otherwise the card must be enrolled
   * (401), the code must equal the one in the record stored under the card's
   * customer id (411), and the amount must lie below that record's limit
   * (405). A missing card id or code raises `KeyError` where it is read, a
   * dictionary as card id cannot be looked up, and the one limit that is
   * reached raises when `int()` cannot convert it.
   */
  function AuthorizationVerdict(d: TxData, t: map<string, TxData>, checksEnabled: bool): (r: Result<Verdict>)
    requires WellFormed(d) && Authorizable(d, t)
    ensures !checksEnabled ==> r == Ok(Approved)
    ensures r.Raise? ==> checksEnabled
    ensures r.Ok? && r.value.Declined? ==> r.value.code in {401, 405, 411}
  {
    var card := d["card"].fields;
    if !checksEnabled then Ok(Approved)
    else if "id" !in card then Raise(KeyError("id"))
    else if card["id"].Dict? then Raise(TypeError("hash"))
    else if !CardEnrolled(d, t) then Ok(Declined(401, "Credit card account not found"))
    else CustomerVerdict(d, CustomerRecord(d, t))
  }

  /**
   * The checks against the record `rec` stored under the customer id: the
   * code must equal the record's (411), and the amount must lie below the
   * record's limit, the one limit `int()` is asked to convert (405).
   */
  function CustomerVerdict(d: TxData, rec: TxData): (r: Result<Verdict>)
    requires WellFormed(d) && HasRequiredFields(rec)
    ensures r.Ok? && r.value.Declined? ==> r.value.code in {405, 411}
  {
    var card := d["card"].fields;
    if "card_code" !in card then Raise(KeyError("card_code"))
    else if rec["card_code"] != card["card_code"] then Ok(Declined(411, "Card code incorrect"))
    else
      var limit := rec["card_limit"];
      match ParseInt(limit)
      case None => Raise(IntError(limit))
      case Some(n) =>
        if d["amount"].i < n then Ok(Approved) else Ok(Declined(405, "Account threshold exceeded"))
  }

  /**
   * The verdict of `authorize_transaction`: with the checks off every
   * transaction is approved; with them on, each outcome is given exactly
   * when the checks before it pass and its own check fails, in the order
   * enrollment (401), code (411), limit (405).
   */
  lemma AuthorizationVerdictMeaning(d: TxData, t: map<string, TxData>, checksEnabled: bool)
    requires WellFormed(d) && Authorizable(d, t)
    ensures var r := AuthorizationVerdict(d, t, checksEnabled);
            var card := d["card"].fields;
            && (!checksEnabled ==> r == Ok(Approved))
            && (r == Ok(Declined(401, "Credit card account not found")) <==>
                  checksEnabled && "id" in card && !card["id"].Dict? && !CardEnrolled(d, t))
            && (r == Ok(Declined(411, "Card code incorrect")) <==>
                  checksEnabled && CardEnrolled(d, t) && "card_code" in card && !CodeMatches(d, t))
            && (r == Ok(Declined(405, "Account threshold exceeded")) <==>
                  && checksEnabled && CardEnrolled(d, t) && CodeMatches(d, t)
                  && ParseInt(CustomerRecord(d, t)["card_limit"]).Some?
                  && d["amount"].i >= ParseInt(CustomerRecord(d, t)["card_limit"]).value)
            && (checksEnabled ==>
                  (r == Ok(Approved) <==>
                     && CardEnrolled(d, t) && CodeMatches(d, t)
                     && ParseInt(CustomerRecord(d, t)["card_limit"]).Some?
                     && d["amount"].i < ParseInt(CustomerRecord(d, t)["card_limit"]).value))
            && (r.Raise? <==>
                  || (checksEnabled && ("id" !in card || card["id"].Dict?))
                  || (checksEnabled && CardEnrolled(d, t) && "card_code" !in card)
                  || (checksEnabled && CardEnrolled(d, t) && CodeMatches(d, t)
                      && ParseInt(CustomerRecord(d, t)["card_limit"]).None?))
  {
  }

  /**
   * Only the records under the card id and the customer id are read: any
   * other record's limit may hold anything truthy, even a value `int()`
   * rejects, without changing the verdict.
   */
  lemma OtherLimitIgnored(d: TxData, t: map<string, TxData>, k: string, limit: Value, checksEnabled: bool)
    requires WellFormed(d) && Authorizable(d, t) && k in t
    requires CardEnrolled(d, t) ==>
               k != d["card"].fields["id"].s && k != t[d["card"].fields["id"].s]["customer_id"].s
    ensures Authorizable(d, t[k := t[k]["card_limit" := limit]])
    ensures AuthorizationVerdict(d, t[k := t[k]["card_limit" := limit]], checksEnabled)
            == AuthorizationVerdict(d, t, checksEnabled)
  {
    var u := t[k := t[k]["card_limit" := limit]];
    assert CardEnrolled(d, u) <==> CardEnrolled(d, t);
    if CardEnrolled(d, t) {
      var id := d["card"].fields["id"].s;
      var customer := t[id]["customer_id"].s;
      assert u[id] == t[id] && u[customer] == t[customer];
      assert CustomerRecord(d, u) == CustomerRecord(d, t);
    }
  }

  /** The transaction with an authorization verdict recorded on it; `token` stands for the uuid of the approval code. */
  function Authorized(d: TxData, v: Verdict, token: string): (e: TxData)
    ensures "authorized" in e && e["authorized"] == Bool(v.Approved?)
    ensures v.Approved? ==> e.Keys == d.Keys + {"authorized", "approval_code"}
                            && e["approval_code"] == Str("appr_" + token)
    ensures v.Declined? ==> e.Keys == d.Keys + {"authorized", "failure_code", "failure_message"}
                            && e["failure_code"] == Int(v.code) && e["failure_message"] == Str(v.message)
    ensures v.Approved? ==> forall k :: k in d && k != "authorized" && k != "approval_code" ==> e[k] == d[k]
    ensures v.Declined? ==>
              forall k :: k in d && k != "authorized" && k != "failure_code" && k != "failure_message" ==> e[k] == d[k]
  {
    match v
    case Approved => d["authorized" := Bool(true)]["approval_code" := Str("appr_" + token)]
    case Declined(code, message) =>
      d["authorized" := Bool(false)]["failure_code" := Int(code)]["failure_message" := Str(message)]
  }

  /** Recording an authorization verdict keeps the card, the amount and the merchant. */
  lemma AuthorizedKeepsShape(d: TxData, v: Verdict, token: string)
    requires WellFormed(d)
    ensures WellFormed(Authorized(d, v, token))
  {
    var e := Authorized(d, v, token);
    assert e["card"] == d["card"] && e["amount"] == d["amount"];
    assert "merchant_data" in e ==> e["merchant_data"] == d["merchant_data"];
  }

  /** The entries of `src` whose keys are in `keys`. */
  function Restrict(src: map<string, Value>, keys: set<string>): (r: map<string, Value>)
    ensures r.Keys == src.Keys * keys
    ensures forall k :: k in r ==> r[k] == src[k]
  {
    map k | k in src && k in keys :: src[k]
  }

  /** The card fields a transaction built with default arguments starts with. */
  const DefaultCard: TxData := NewCard(Str(""), Str(""), Str(""), Int(0), Int(2000), Str("usd"))

  /** The entries `from_dict` copies as they are: all but the card and the merchant. */
  function Copied(src: TxData): map<string, Value>
  {
    map k | k in src && k != "card" && k != "merchant_data" :: src[k]
  }

  /** The card `from_dict` builds: the default card with a card dictionary's entries merged in. */
  function CardOf(src: TxData): Value
  {
    if "card" in src && src["card"].Dict? then Dict(DefaultCard + src["card"].fields) else Dict(DefaultCard)
  }

  /** Whether `from_dict` takes the merchant: only a dictionary with entries. */
  predicate HasMerchant(src: TxData)
  {
    "merchant_data" in src && src["merchant_data"].Dict? && |src["merchant_data"].fields| > 0
  }

  /**
   * A transaction built from a dictionary: a default transaction whose
   * entries the dictionary's overwrite, except that a card dictionary is
   * merged into the default card, a merchant dictionary is taken only when it
   * has entries, and a card or merchant that is not a dictionary is ignored.
   */
  function Merged(src: TxData, token: string): (d: TxData)
    ensures "card" in d && d["card"].Dict?
    ensures "merchant_data" in d ==> d["merchant_data"].Dict?
    ensures "approval_code" in d <==> "approval_code" in src
    ensures "approval_code" in d ==> d["approval_code"] == src["approval_code"]
    ensures "settlement_id" in d <==> "settlement_id" in src
    ensures "settlement_id" in d ==> d["settlement_id"] == src["settlement_id"]
  {
    var merged := WithoutMerchant(src, token);
    if HasMerchant(src) then merged["merchant_data" := src["merchant_data"]] else merged
  }

  /** Everything `from_dict` builds except the merchant. */
  function WithoutMerchant(src: TxData, token: string): (d: TxData)
    ensures "card" in d && d["card"].Dict? && "merchant_data" !in d
  {
    (DefaultData(token) + Copied(src))["card" := CardOf(src)]
  }

  /**
   * What `from_dict` keeps: every entry of the dictionary but the card and
   * the merchant, the default entries it does not override, a card holding
   * every default card field, and the merchant only when it is a dictionary
   * with entries. The result is well formed unless the dictionary's amount
   * is not an integer.
   */
  lemma MergedShape(src: TxData, token: string)
    ensures var d := Merged(src, token);
            && (forall k :: k in src && k != "card" && k != "merchant_data" ==> k in d && d[k] == src[k])
            && (forall k :: k in DefaultData(token) && k !in src ==> k in d && d[k] == DefaultData(token)[k])
            && CardKeys <= d["card"].fields.Keys
            && ("merchant_data" in d <==>
                  "merchant_data" in src && src["merchant_data"].Dict? && |src["merchant_data"].fields| > 0)
            && ("merchant_data" in d ==> d["merchant_data"] == src["merchant_data"])
            && (WellFormed(d) || ("amount" in src && !src["amount"].Int?))
  {
    MergedKeepsEntries(src, token);
    MergedKeepsDefaults(src, token);
    MergedCardComplete(src, token);
    MergedAmount(src, token);
  }

  lemma MergedKeepsEntries(src: TxData, token: string)
    ensures var d := Merged(src, token);
            forall k :: k in src && k != "card" && k != "merchant_data" ==> k in d && d[k] == src[k]
  {
    var w := WithoutMerchant(src, token);
    assert forall k :: k in Copied(src) ==> k in w && w[k] == src[k];
  }

  lemma MergedKeepsDefaults(src: TxData, token: string)
    ensures var d := Merged(src, token);
            forall k :: k in DefaultData(token) && k !in src ==> k in d && d[k] == DefaultData(token)[k]
  {
    var D := DefaultData(token);
    assert D.Keys == {"card", "id", "currency", "amount"} && D["card"] == Dict(DefaultCard);
  }

  lemma MergedCardComplete(src: TxData, token: string)
    ensures CardKeys <= Merged(src, token)["card"].fields.Keys
  {
    assert DefaultCard.Keys == CardKeys;
    assert Merged(src, token)["card"] == CardOf(src);
  }

  lemma MergedAmount(src: TxData, token: string)
    ensures var d := Merged(src, token);
            "amount" in d && (d["amount"] == if "amount" in src then src["amount"] else Int(0))
  {
    var D := DefaultData(token);
    assert "amount" in D && D["amount"] == Int(0);
  }

  /**
   * Building a transaction from the dictionary of a well-formed transaction
   * whose card is complete reproduces that dictionary: the conversion to a
   * dictionary and back loses nothing.
   */
  lemma MergedRoundTrip(d: TxData, token: string)
    requires WellFormed(d) && "id" in d && "currency" in d
    requires CardKeys <= d["card"].fields.Keys
    requires "merchant_data" in d ==> |d["merchant_data"].fields| > 0
    ensures Merged(d, token) == d
  {
    var m := Merged(d, token);
    var card := DefaultData(token)["card"].fields;
    assert card.Keys == CardKeys;
    assert card + d["card"].fields == d["card"].fields;
    assert m.Keys == d.Keys;
  }

  /** One dictionary entry handled by `from_dict`, leaving the others to later steps. */
  lemma MergedAddKey(src: TxData, done: set<string>, key: string, token: string)
    requires key in src && key !in done && key != "card" && key != "merchant_data"
    ensures Merged(Restrict(src, done + {key}), token) == Merged(Restrict(src, done), token)[key := src[key]]
  {
    var a := Restrict(src, done + {key});
    var b := Restrict(src, done);
    assert a == b[key := src[key]];
    WithoutMerchantAddKey(a, b, key, src[key], token);
    assert HasMerchant(a) == HasMerchant(b);
  }

  lemma WithoutMerchantAddKey(a: TxData, b: TxData, key: string, v: Value, token: string)
    requires a == b[key := v] && key != "card" && key != "merchant_data"
    ensures WithoutMerchant(a, token) == WithoutMerchant(b, token)[key := v]
  {
    CopiedAddKey(a, b, key, v);
    assert CardOf(a) == CardOf(b);
    var base := DefaultData(token) + Copied(b);
    UnionUpdate(DefaultData(token), Copied(b), key, v);
    UpdatesCommute(base, key, v, "card", CardOf(b));
  }

  lemma UnionUpdate<K, V>(m: map<K, V>, n: map<K, V>, key: K, v: V)
    ensures m + n[key := v] == (m + n)[key := v]
  {
  }

  lemma UpdatesCommute<K, V>(m: map<K, V>, k1: K, v1: V, k2: K, v2: V)
    requires k1 != k2
    ensures m[k1 := v1][k2 := v2] == m[k2 := v2][k1 := v1]
  {
  }

  lemma CopiedAddKey(a: TxData, b: TxData, key: string, v: Value)
    requires a == b[key := v] && key != "card" && key != "merchant_data"
    ensures Copied(a) == Copied(b)[key := v]
  {
  }

  /** A card or merchant entry that is not a dictionary is skipped. */
  lemma MergedSkip(src: TxData, done: set<string>, key: string, token: string)
    requires key in src && key !in done && (key == "card" || key == "merchant_data") && !src[key].Dict?
    ensures Merged(Restrict(src, done + {key}), token) == Merged(Restrict(src, done), token)
  {
    var a := Restrict(src, done + {key});
    var b := Restrict(src, done);
    assert Copied(a) == Copied(b);
    assert CardOf(a) == CardOf(b);
  }

  /** Copying one more entry into a dictionary under construction. */
  lemma RestrictStep(f: map<string, Value>, start: map<string, Value>, done: set<string>, k: string)
    requires k in f
    ensures start + Restrict(f, done + {k}) == (start + Restrict(f, done))[k := f[k]]
  {
    assert Restrict(f, done + {k}) == Restrict(f, done)[k := f[k]];
  }

  /** Setting the card of a source dictionary changes only the card `from_dict` builds. */
  lemma MergedSetCard(b: TxData, card: Value, token: string)
    ensures Merged(b["card" := card], token) == Merged(b, token)["card" := CardOf(b["card" := card])]
  {
    var a := b["card" := card];
    assert Copied(a) == Copied(b);
    assert HasMerchant(a) == HasMerchant(b);
  }

  /** A card dictionary is merged into the default card, which nothing before it has touched. */
  lemma MergedCardStep(src: TxData, done: set<string>, token: string, data: TxData)
    requires "card" in src && "card" !in done && src["card"].Dict?
    requires data == Merged(Restrict(src, done), token)
    ensures Merged(Restrict(src, done + {"card"}), token)
              == data["card" := Dict(data["card"].fields + src["card"].fields)]
  {
    var b := Restrict(src, done);
    assert Restrict(src, done + {"card"}) == b["card" := src["card"]];
    MergedSetCard(b, src["card"], token);
    assert data["card"] == Dict(DefaultCard);
  }

  /** A merchant dictionary is taken when it has entries; before it there is no merchant. */
  lemma MergedMerchantStep(src: TxData, done: set<string>, token: string, data: TxData)
    requires "merchant_data" in src && "merchant_data" !in done && src["merchant_data"].Dict?
    requires data == Merged(Restrict(src, done), token)
    ensures "merchant_data" !in data
    ensures Merged(Restrict(src, done + {"merchant_data"}), token)
              == if |src["merchant_data"].fields| > 0 then data["merchant_data" := Dict(src["merchant_data"].fields)]
                 else data
  {
    var a := Restrict(src, done + {"merchant_data"});
    var b := Restrict(src, done);
    assert Copied(a) == Copied(b);
    assert CardOf(a) == CardOf(b);
    assert WithoutMerchant(a, token) == WithoutMerchant(b, token);
    assert !HasMerchant(b);
  }

  /** Every amount from one cent to the limit passes the amount check; one cent more does not. */
  lemma AmountBoundaries(d: TxData, today: Date)
    requires WellFormed(d) && CardReadable(d)
    requires CardCheckOf(d).valid && HasRequestData(d)
    ensures 0 < d["amount"].i <= MaxAmount && ExpiryOutcome(d, today) == Ok(true)
            ==> ValidationVerdict(d, today) == Ok(Approved)
    ensures d["amount"].i > MaxAmount
            ==> ValidationVerdict(d, today) == Ok(Declined(405, "Transaction amount threshold exceeded"))
    ensures d["amount"].i <= 0
            ==> ValidationVerdict(d, today) == Ok(Declined(402, "Missing information for transaction approval"))
  {
    CardCheckKeepsExpiry(d, today);
  }

  /**
   * A transaction built from its card, given a positive amount and a
   * merchant, is ready for a request.
   */
  lemma SetupMakesReady(name: Value, cc: Value, cvv: Value, expMonth: Value, expYear: Value,
                        currency: Value, token: string, amount: int, merchantName: Value, merchantId: Value)
    requires amount > 0
    ensures var d := InitialData(name, cc, cvv, expMonth, expYear, currency, token)
                       ["amount" := Int(amount)]["currency" := currency]
                       ["merchant_data" := Dict(map["name" := merchantName, "network_id" := merchantId])];
            WellFormed(d) && ReadyForRequest(d)
  {
  }

  /**
   * The code is compared with the record stored under the customer id, which
   * is the customer's most recently loaded card: a card of a customer with two
   * enrolled cards is authorized with the other card's code.
   */
  lemma CodeCheckedAgainstCustomerRecord()
    ensures var t := SharedCustomerTable();
            var d := map["card" := Dict(map["id" := Str("first"), "card_code" := Str("222")]),
                         "amount" := Int(100)];
            Authorizable(d, t) && AuthorizationVerdict(d, t, true) == Ok(Approved)
  {
    var t := SharedCustomerTable();
    var d := map["card" := Dict(map["id" := Str("first"), "card_code" := Str("222")]),
                 "amount" := Int(100)];
    assert CardEnrolled(d, t);
    assert CustomerRecord(d, t) == t["cust"];
    assert CodeMatches(d, t);
    assert ParseInt(t["cust"]["card_limit"]) == Some(1000);
  }

  /**
   * Two cards of customer "cust", loaded in order, so the customer id maps
   * to the second card's record.
   */
  function SharedCustomerTable(): (t: map<string, TxData>)
    ensures t.Keys == {"first", "second", "cust"}
    ensures StoredRecord(t["first"]) && StoredRecord(t["cust"])
    ensures t["first"]["customer_id"] == Str("cust") && t["first"]["card_code"] == Str("111")
    ensures t["cust"]["card_code"] == Str("222") && t["cust"]["card_limit"] == Int(1000)
  {
    var first := EnrolledCard("first", "111", "cust");
    var second := EnrolledCard("second", "222", "cust");
    var t := map["first" := first, "second" := second, "cust" := second];
    assert t.Keys == {"first", "second", "cust"};
    t
  }

  /** The shared-customer table is one the loader can build. */
  lemma SharedCustomerTableValid()
    ensures ValidTable(SharedCustomerTable())
  {
    var t := SharedCustomerTable();
    assert t["second"]["customer_id"] == Str("cust");
  }

  /** An enrollment record of customer `customer` with the given card number and code. */
  function EnrolledCard(id: string, code: string, customer: string): (rec: TxData)
    requires |id| > 0 && |code| > 0
    ensures StoredRecord(rec) && rec["customer_id"] == Str(customer)
    ensures rec["card_code"] == Str(code) && rec["card_limit"] == Int(1000)
  {
    var rec := map["authorizing_bank" := Str("bank"), "card_code" := Str(code), "card_limit" := Int(1000),
        "currency" := Str("usd"), "exp_month" := Int(12), "exp_year" := Int(2030), "id" := Str(id),
        "name" := Str("holder"), "zip_code" := Str("00000"), "customer_id" := Str(customer)];
    assert Present(rec, "authorizing_bank") && Present(rec, "card_code") && Present(rec, "card_limit");
    assert Present(rec, "currency") && Present(rec, "exp_month") && Present(rec, "exp_year");
    assert Present(rec, "id") && Present(rec, "name") && Present(rec, "zip_code");
    rec
  }

  class Transaction {
    /** The transaction's dictionary. */
    var data: TxData

    ghost predicate Valid()
      reads this
    {
      WellFormed(data)
    }

    /** A new transaction for the given card; `token` stands for the uuid in its id. */
    constructor (name: Value, cc: Value, cvv: Value, expMonth: Value, expYear: Value,
                 currency: Value, token: string)
      ensures data == InitialData(name, cc, cvv, expMonth, expYear, currency, token)
      ensures Valid()
    {
      data := InitialData(name, cc, cvv, expMonth, expYear, currency, token);
    }

    /** Sets the amount, in cents, to `int(amount)`, and the currency. */
    method SetAmount(amount: Value, currency: Value)
      requires ParseInt(amount).Some?
      modifies this
      ensures data == old(data)["amount" := Int(ParseInt(amount).value)]["currency" := currency]
      ensures old(Valid()) ==> Valid()
    {
      data := data["amount" := Int(ParseInt(amount).value)];
      data := data["currency" := currency];
    }

    /** Sets the amount from dollars and cents, and the currency. */
    method SetAmountDc(dollars: int, cents: int, currency: Value)
      modifies this
      ensures data == old(data)["amount" := Int(dollars * 100 + cents)]["currency" := currency]
      ensures old(Valid()) ==> Valid()
    {
      data := data["amount" := Int(dollars * 100 + cents)];
      data := data["currency" := currency];
    }

    /** Replaces the merchant with one of the given name and network id. */
    method SetMerchantData(merchantName: Value, merchantId: Value)
      modifies this
      ensures data == old(data)["merchant_data" := Dict(map["name" := merchantName, "network_id" := merchantId])]
      ensures old(Valid()) ==> Valid()
    {
      data := data["merchant_data" := Dict(map["name" := merchantName, "network_id" := merchantId])];
    }

    /** Whether all the data a request needs is there and the amount is positive. */
    method IsReadyForRequest() returns (ready: bool)
      requires Valid()
      ensures ready == ReadyForRequest(data)
      ensures ready ==> "merchant_data" in data && data["amount"].i > 0
    {
      var hasCardholderInfo := "id" in data && "card" in data;
      var hasCardInfo := false;
      if hasCardholderInfo {
        var card := data["card"].fields;
        hasCardInfo := "id" in card && "name" in card && "currency" in card
                       && "exp_month" in card && "exp_year" in card && "card_code" in card;
      }
      var hasMerchantInfo := "merchant_data" in data && "name" in data["merchant_data"].fields
                             && "network_id" in data["merchant_data"].fields;
      ready := hasCardholderInfo && hasCardInfo && hasMerchantInfo && data["amount"].i > 0;
    }

    /** Checks the card number and CVV and stamps the verdict and vendor on the card. */
    method ValidateCard() returns (valid: bool)
      requires Valid() && CardReadable(data)
      modifies this
      ensures data == WithCardCheck(old(data))
      ensures valid == CardCheckOf(old(data)).valid
      ensures Valid()
    {
      var r := CardValidation.ValidateCard(data["card"].fields["id"].s, PyStr(data["card"].fields["card_code"]));
      data := data["card" := Dict(data["card"].fields["valid" := Bool(r.valid)])];
      data := data["card" := Dict(data["card"].fields["type" := TypeValue(r)])];
      valid := r.valid;
    }

    /** Checks the expiry date against `today`; a card without one passes, and an unconvertible one raises. */
    method ValidateDate(today: Date) returns (ok: Result<bool>)
      requires Valid()
      ensures ok == ExpiryOutcome(data, today)
    {
      var card := data["card"].fields;
      if "exp_month" in card && "exp_year" in card {
        ok := ExpiryCheck(card["exp_month"], card["exp_year"], today, DefaultMaxFutureYear);
        return;
      }
      ok := Ok(true);
    }

    /**
     * Validates the transaction and records the verdict on it. When the
     * expiry check raises, the card check stays stamped and nothing is
     * recorded.
     */
    method ValidateTransaction(today: Date) returns (status: Result<bool>)
      requires Valid() && CardReadable(data)
      modifies this
      ensures var r := ValidationVerdict(old(data), today);
              && data == (if r.Ok? then Recorded(WithCardCheck(old(data)), r.value) else WithCardCheck(old(data)))
              && status == (if r.Ok? then Ok(r.value.Approved?) else Raise(r.error))
      ensures Valid()
    {
      ghost var d0 := data;
      var cardOk := ValidateCard();
      var verdict := Judge(cardOk, today, d0);
      if verdict.Raise? {
        return Raise(verdict.error);
      }
      RecordedKeepsShape(data, verdict.value);
      data := Recorded(data, verdict.value);
      status := Ok(verdict.value.Approved?);
    }

    /** The checks of `validate_transaction` after the card check, in order; the first to fail decides. */
    method Judge(cardOk: bool, today: Date, ghost d0: TxData) returns (verdict: Result<Verdict>)
      requires WellFormed(d0) && CardReadable(d0)
      requires data == WithCardCheck(d0) && cardOk == CardCheckOf(d0).valid
      ensures verdict == ValidationVerdict(d0, today)
    {
      if !cardOk {
        return Ok(Declined(401, "Card is not valid"));
      }
      var ready := IsReadyForRequest();
      if !ready {
        return Ok(Declined(402, "Missing information for transaction approval"));
      }
      if data["amount"].i < 0 || data["amount"].i > MaxAmount {
        return Ok(Declined(405, "Transaction amount threshold exceeded"));
      }
      var expiry := ValidateDate(today);
      if expiry.Raise? {
        return Raise(expiry.error);
      }
      if !expiry.value {
        return Ok(Declined(408, "Invalid expiration date"));
      }
      return Ok(Approved);
    }

    /**
     * Authorizes the transaction against the enrollment table and records the
     * verdict; `token` stands for the uuid of the approval code. Every read
     * comes before the first write, so an exception leaves the data as it was.
     */
    method AuthorizeTransaction(checksEnabled: bool, store: EnrollmentStore, token: string)
      returns (status: Result<bool>)
      requires Valid() && store.Valid()
      modifies this
      ensures var r := AuthorizationVerdict(old(data), store.table, checksEnabled);
              && data == (if r.Ok? then Authorized(old(data), r.value, token) else old(data))
              && status == (if r.Ok? then Ok(r.value.Approved?) else Raise(r.error))
      ensures Valid()
    {
      var verdict := Decide(data, checksEnabled, store);
      if verdict.Raise? {
        return Raise(verdict.error);
      }
      AuthorizedKeepsShape(data, verdict.value, token);
      data := Authorized(data, verdict.value, token);
      status := Ok(verdict.value.Approved?);
    }

    /** The authorization checks, in the order the service makes them. */
    static method Decide(d: TxData, checksEnabled: bool, store: EnrollmentStore) returns (verdict: Result<Verdict>)
      requires WellFormed(d) && store.Valid()
      ensures verdict == AuthorizationVerdict(d, store.table, checksEnabled)
    {
      if !checksEnabled {
        return Ok(Approved);
      }
      var card := d["card"].fields;
      if "id" !in card {
        return Raise(KeyError("id"));
      }
      var cardId := card["id"];
      if cardId.Dict? {
        return Raise(TypeError("hash"));
      }
      if !(cardId.Str? && store.Enrolled(cardId.s)) {
        return Ok(Declined(401, "Credit card account not found"));
      }
      var customer := store.CustomerId(cardId.s).value;
      if "card_code" !in card {
        return Raise(KeyError("card_code"));
      }
      if !store.CheckCode(customer, card["card_code"]) {
        return Ok(Declined(411, "Card code incorrect"));
      }
      var limit := store.Limit(customer);
      var n := ParseInt(limit);
      if n.None? {
        return Raise(IntError(limit));
      }
      if d["amount"].i < n.value {
        verdict := Ok(Approved);
      } else {
        verdict := Ok(Declined(405, "Account threshold exceeded"));
      }
    }

    /**
     * A transaction built from a dictionary; `token` stands for the uuid the
     * default id is made from.
     */
    static method FromDict(src: TxData, token: string) returns (t: Transaction)
      ensures fresh(t)
      ensures t.data == Merged(src, token)
    {
      t := new Transaction(Str(""), Str(""), Str(""), Int(0), Int(2000), Str("usd"), token);
      assert Restrict(src, {}) == map[];
      var keys := src.Keys;
      ghost var done: set<string> := {};
      while keys != {}
        invariant keys + done == src.Keys && keys !! done
        invariant t.data == Merged(Restrict(src, done), token)
        decreases keys
      {
        var key :| key in keys;
        t.data := MergeEntry(t.data, src, key, done, token);
        keys := keys - {key};
        done := done + {key};
      }
      assert Restrict(src, done) == src;
    }

    /**
     * One entry of `from_dict`: a card or merchant dictionary is copied entry
     * by entry into the transaction's own, anything else under those keys is
     * skipped, and any other entry is copied as it is.
     */
    static method MergeEntry(data: TxData, src: TxData, key: string, ghost done: set<string>, token: string)
      returns (next: TxData)
      requires key in src && key !in done
      requires data == Merged(Restrict(src, done), token)
      ensures next == Merged(Restrict(src, done + {key}), token)
    {
      if key == "card" && src["card"].Dict? {
        MergedCardStep(src, done, token, data);
        next := MergeCard(data, src["card"].fields);
      } else if key == "merchant_data" && src["merchant_data"].Dict? {
        MergedMerchantStep(src, done, token, data);
        next := MergeMerchant(data, src["merchant_data"].fields);
      } else if key == "card" || key == "merchant_data" {
        MergedSkip(src, done, key, token);
        next := data;
      } else {
        MergedAddKey(src, done, key, token);
        next := data[key := src[key]];
      }
    }

    /** Merges a card dictionary's entries into the transaction's card, one by one. */
    static method MergeCard(data: TxData, entries: map<string, Value>) returns (next: TxData)
      requires "card" in data && data["card"].Dict?
      ensures next == data["card" := Dict(data["card"].fields + entries)]
    {
      next := data;
      if |entries| > 0 {
        var fields := CopyEntries(data["card"].fields, entries);
        next := data["card" := Dict(fields)];
      } else {
        // no entry is copied and the card stays as it was
        assert entries == map[];
        assert data["card"].fields + entries == data["card"].fields;
      }
    }

    /**
     * Copies a merchant dictionary's entries into the transaction, one by
     * one; the merchant is created empty before its first entry, so an empty
     * dictionary leaves the transaction without one.
     */
    static method MergeMerchant(data: TxData, entries: map<string, Value>) returns (next: TxData)
      requires "merchant_data" !in data
      ensures next == if |entries| > 0 then data["merchant_data" := Dict(entries)] else data
    {
      next := data;
      if |entries| > 0 {
        var fields := CopyEntries(map[], entries);
        assert fields == entries;
        next := data["merchant_data" := Dict(fields)];
      }
    }

    /** Copies the entries of a dictionary one by one into `start`, each overwriting what was there. */
    static method CopyEntries(start: map<string, Value>, entries: map<string, Value>) returns (fields: map<string, Value>)
      ensures fields == start + entries
    {
      fields := start;
      var inner := entries.Keys;
      ghost var innerDone: set<string> := {};
      assert Restrict(entries, {}) == map[];
      while inner != {}
        invariant inner + innerDone == entries.Keys && inner !! innerDone
        invariant fields == start + Restrict(entries, innerDone)
        decreases inner
      {
        var k :| k in inner;
        RestrictStep(entries, start, innerDone, k);
        fields := fields[k := entries[k]];
        inner := inner - {k};
        innerDone := innerDone + {k};
      }
      assert Restrict(entries, innerDone) == entries;
    }
  }
}
