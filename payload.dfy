/**
 * The request bodies the gateway sends: the charge payload, which charge
 * fills in place through its add_* steps, and the refund payload. Keys are
 * written as the strings the symbols stand for.
 */
module Payload {
  import opened Wrappers
  import opened Json
  import opened RubyValues

  /** The gateway's default currency, used when the options name none. */
  const DefaultCurrency := "USD"

  // ---------------------------------------------------------------------
  // Indexing with a Symbol key
  // ---------------------------------------------------------------------

  /**
   * `v[:key]`: a hash lookup (nil when absent); a string, an array or an
   * integer raises TypeError on a Symbol index, and nil, true and false
   * have no `[]`.
   */
  function SymbolField(v: Json, k: string): (r: Result<Json, Fault>)
    ensures v.JObject? ==> r == Success(Lookup(v.members, k))
    ensures r.Failure? <==> !v.JObject?
  {
    match v
    case JObject(members) => Success(Lookup(members, k))
    case JNull => Failure(NoMethodError("[]"))
    case JBool(_) => Failure(NoMethodError("[]"))
    case _ => Failure(TypeError("no implicit conversion of Symbol into Integer"))
  }

  // ---------------------------------------------------------------------
  // The steps of the charge payload, each as a function of the hash before it
  // ---------------------------------------------------------------------

  /** add_invoice's `amount_money`: the amount in cents and the options' currency or the default one. */
  function AmountMoney(money: int, options: seq<Member>): Json
  {
    var currency := Lookup(options, "currency");
    JObject([Member("amount", JInt(money)),
             Member("currency", if Truthy(currency) then currency else JString(DefaultCurrency))])
  }

  function InvoiceStep(h: seq<Member>, money: int, options: seq<Member>): seq<Member>
  {
    Set(h, "amount_money", AmountMoney(money, options))
  }

  /** add_payment: the card nonce, verbatim. */
  function PaymentStep(h: seq<Member>, payment: Json): seq<Member>
  {
    Set(h, "card_nonce", payment)
  }

  /** The address types add_address visits, in order. */
  const AddressTypes := ["billing_address", "shipping_address"]

  /** The fields of an ActiveMerchant address, in the order add_address reads them. */
  const AddressSourceKeys := ["address1", "address2", "city", "state", "zip", "country"]

  /** Square's name for each of them, in the same order. */
  const SquareAddressKeys := ["address_line_1", "address_line_2", "locality",
                              "administrative_district_level_1", "postal_code", "country"]

  /**
   * The renaming of one address into Square's field names; a value that
   * is not a hash raises at its first field.
   */
  function SquareAddress(address: Json): (r: Result<seq<Member>, Fault>)
    ensures r.Failure? <==> !address.JObject?
  {
    var _ :- SymbolField(address, AddressSourceKeys[0]);
    Success(seq(|SquareAddressKeys|, i requires 0 <= i < |SquareAddressKeys| =>
      Member(SquareAddressKeys[i], Lookup(address.members, AddressSourceKeys[i]))))
  }

  /** add_address over the address types still to visit. */
  function AddressStep(h: seq<Member>, options: seq<Member>, types: seq<string>): Result<seq<Member>, Fault>
    decreases |types|
  {
    if types == [] then Success(h)
    else
      var address := Lookup(options, types[0]);
      if !Truthy(address) then AddressStep(h, options, types[1..])
      else
        var fields :- SquareAddress(address);
        AddressStep(Set(h, types[0], JObject(fields)), options, types[1..])
  }

  /** add_customer_data: a present customer id, written out as a string; nothing otherwise. */
  function CustomerStep(h: seq<Member>, options: seq<Member>): seq<Member>
  {
    var customerId := Lookup(options, "customer_id");
    if Present(customerId) then Set(h, "customer_id", JString(ToS(customerId))) else h
  }

  function IdempotencyStep(h: seq<Member>, options: seq<Member>): seq<Member>
  {
    Set(h, "idempotency_key", Lookup(options, "idempotency_key"))
  }

  /** add_optional_data: four keys, each set even when the option is absent. */
  function OptionalStep(h: seq<Member>, options: seq<Member>): seq<Member>
  {
    SetAll(h, OptionalMembers(options))
  }

  function OptionalMembers(options: seq<Member>): seq<Member>
  {
    [Member("buyer_email_address", Lookup(options, "email")),
     Member("reference_id", Lookup(options, "reference_id")),
     Member("note", Lookup(options, "note")),
     Member("delay_capture", Lookup(options, "delay_capture"))]
  }

  /** The charge payload: the six steps, in charge's order, from an empty hash. */
  function ChargePayload(money: int, payment: Json, options: seq<Member>): Result<seq<Member>, Fault>
  {
    var h := PaymentStep(InvoiceStep([], money, options), payment);
    var h' :- AddressStep(h, options, AddressTypes);
    Success(OptionalStep(IdempotencyStep(CustomerStep(h', options), options), options))
  }

  /** refund's payload: idempotency key, tender id, reason, then the amount. */
  function RefundPayload(money: int, tenderId: Json, options: seq<Member>): seq<Member>
  {
    var h1 := Set([], "idempotency_key", Lookup(options, "idempotency_key"));
    var h2 := Set(h1, "tender_id", tenderId);
    var h3 := Set(h2, "reason", Lookup(options, "reason"));
    InvoiceStep(h3, money, options)
  }

  // ---------------------------------------------------------------------
  // The add_* steps, in place
  // ---------------------------------------------------------------------

  method AddInvoice(post: Hash, money: int, options: seq<Member>)
    modifies post
    ensures post.members == InvoiceStep(old(post.members), money, options)
  {
    post.Assign("amount_money", AmountMoney(money, options));
  }

  method AddPayment(post: Hash, payment: Json)
    modifies post
    ensures post.members == PaymentStep(old(post.members), payment)
  {
    post.Assign("card_nonce", payment);
  }

  /**
   * add_address: each address type whose option is set gets its renamed
   * address; a fault stops the loop with the hash as far as it got.
   */
  method AddAddress(post: Hash, options: seq<Member>) returns (fault: Option<Fault>)
    modifies post
    ensures fault.None? ==> AddressStep(old(post.members), options, AddressTypes) == Success(post.members)
    ensures fault.Some? ==> AddressStep(old(post.members), options, AddressTypes) == Failure(fault.value)
  {
    for i := 0 to |AddressTypes|
      invariant AddressStep(old(post.members), options, AddressTypes)
             == AddressStep(post.members, options, AddressTypes[i..])
    {
      assert AddressTypes[i..][0] == AddressTypes[i] && AddressTypes[i..][1..] == AddressTypes[i + 1..];
      var address := Lookup(options, AddressTypes[i]);
      if Truthy(address) {
        var fields := SquareAddress(address);
        if fields.Failure? {
          return Some(fields.error);
        }
        post.Assign(AddressTypes[i], JObject(fields.value));
      }
    }
    return None;
  }

  method AddCustomerData(post: Hash, options: seq<Member>)
    modifies post
    ensures post.members == CustomerStep(old(post.members), options)
  {
    var customerId := Lookup(options, "customer_id");
    if !Present(customerId) {
      return;
    }
    post.Assign("customer_id", JString(ToS(customerId)));
  }

  method AddIdempotencyKey(post: Hash, options: seq<Member>)
    modifies post
    ensures post.members == IdempotencyStep(old(post.members), options)
  {
    post.Assign("idempotency_key", Lookup(options, "idempotency_key"));
  }

  method AddOptionalData(post: Hash, options: seq<Member>)
    modifies post
    ensures post.members == OptionalStep(old(post.members), options)
  {
    var members := OptionalMembers(options);
    for i := 0 to |members|
      invariant OptionalStep(old(post.members), options) == SetAll(post.members, members[i..])
    {
      assert members[i..][1..] == members[i + 1..];
      post.Assign(members[i].key, members[i].value);
    }
  }

  /** charge's payload, built in place in a fresh hash by the add_* steps in order. */
  method BuildCharge(money: int, payment: Json, options: seq<Member>) returns (r: Result<seq<Member>, Fault>)
    ensures r == ChargePayload(money, payment, options)
  {
    var post := new Hash([]);
    AddInvoice(post, money, options);
    AddPayment(post, payment);
    var fault := AddAddress(post, options);
    if fault.Some? {
      return Failure(fault.value);
    }
    AddCustomerData(post, options);
    AddIdempotencyKey(post, options);
    AddOptionalData(post, options);
    return Success(post.members);
  }

  /** refund's payload, built in place in a fresh hash. */
  method BuildRefund(money: int, tenderId: Json, options: seq<Member>) returns (payload: seq<Member>)
    ensures payload == RefundPayload(money, tenderId, options)
  {
    var post := new Hash([]);
    post.Assign("idempotency_key", Lookup(options, "idempotency_key"));
    post.Assign("tender_id", tenderId);
    post.Assign("reason", Lookup(options, "reason"));
    AddInvoice(post, money, options);
    return post.members;
  }

  // ---------------------------------------------------------------------
  // Properties of the payloads
  // ---------------------------------------------------------------------

  /** The amount in cents, and the currency the options name or else the default one. */
  lemma AmountMoneyFields(money: int, options: seq<Member>)
    ensures AmountMoney(money, options).JObject?
    ensures Keys(AmountMoney(money, options).members) == ["amount", "currency"]
    ensures Lookup(AmountMoney(money, options).members, "amount") == JInt(money)
    ensures Truthy(Lookup(options, "currency")) ==>
      Lookup(AmountMoney(money, options).members, "currency") == Lookup(options, "currency")
    ensures !Truthy(Lookup(options, "currency")) ==>
      Lookup(AmountMoney(money, options).members, "currency") == JString("USD")
  {
  }

  /** Square's address field names are pairwise distinct. */
  lemma SquareAddressKeysDistinct()
    ensures forall i, j :: 0 <= i < j < |SquareAddressKeys| ==> SquareAddressKeys[i] != SquareAddressKeys[j]
  {
  }

  /**
   * An address hash becomes a Square address with exactly Square's six
   * fields, in order, each holding the value of the ActiveMerchant field
   * of the same meaning.
   */
  lemma AddressRenaming(address: seq<Member>)
    ensures SquareAddress(JObject(address)).Success?
    ensures var r := SquareAddress(JObject(address)).value;
      && Keys(r) == SquareAddressKeys
      && forall i :: 0 <= i < |SquareAddressKeys| ==>
           Lookup(r, SquareAddressKeys[i]) == Lookup(address, AddressSourceKeys[i])
  {
    var r := SquareAddress(JObject(address)).value;
    SquareAddressKeysDistinct();
    forall i | 0 <= i < |SquareAddressKeys|
      ensures Lookup(r, SquareAddressKeys[i]) == Lookup(address, AddressSourceKeys[i])
    {
      FindAt(r, i);
    }
  }

  /** Every address option is either unset (nil or false) or a hash. */
  predicate AddressesWellFormed(options: seq<Member>)
  {
    forall i :: 0 <= i < |AddressTypes| ==>
      !Truthy(Lookup(options, AddressTypes[i])) || Lookup(options, AddressTypes[i]).JObject?
  }

  /** The member add_address writes for one address type, when its option is set. */
  function AddressMember(options: seq<Member>, t: string): seq<Member>
  {
    var address := Lookup(options, t);
    if Truthy(address) && address.JObject? then [Member(t, JObject(SquareAddress(address).value))] else []
  }

  /** The member add_customer_data writes, when the customer id is present. */
  function CustomerMember(options: seq<Member>): seq<Member>
  {
    var customerId := Lookup(options, "customer_id");
    if Present(customerId) then [Member("customer_id", JString(ToS(customerId)))] else []
  }

  /** The members add_idempotency_key and add_optional_data write, always. */
  function TailMembers(options: seq<Member>): seq<Member>
  {
    [Member("idempotency_key", Lookup(options, "idempotency_key"))] + OptionalMembers(options)
  }

  /** The charge payload written out member by member, in charge's order. */
  function ChargeMembers(money: int, payment: Json, options: seq<Member>): seq<Member>
  {
    [Member("amount_money", AmountMoney(money, options)), Member("card_nonce", payment)]
    + AddressMember(options, "billing_address") + AddressMember(options, "shipping_address")
    + CustomerMember(options) + TailMembers(options)
  }

  /** Assigning a new key appends it, and the keys gain it at the end. */
  lemma AppendNew(h: seq<Member>, m: Member)
    requires !HasKey(h, m.key)
    ensures Set(h, m.key, m.value) == h + [m]
    ensures Keys(h + [m]) == Keys(h) + [m.key]
  {
    SetAppends(h, m.key, m.value);
    KeysConcat(h, [m]);
  }

  /** add_address on a hash holding neither address key appends the set addresses in order. */
  lemma AddressStepAppends(h: seq<Member>, options: seq<Member>)
    requires AddressesWellFormed(options)
    requires !HasKey(h, "billing_address") && !HasKey(h, "shipping_address")
    ensures AddressStep(h, options, AddressTypes)
         == Success(h + AddressMember(options, "billing_address") + AddressMember(options, "shipping_address"))
  {
    assert AddressTypes[0] == "billing_address" && AddressTypes[1] == "shipping_address";
    assert AddressTypes[1..] == ["shipping_address"] && AddressTypes[1..][1..] == [];
    var b := AddressMember(options, "billing_address");
    var h1 := h + b;
    if b != [] {
      AppendNew(h, b[0]);
    } else {
      assert h1 == h;
    }
    KeysConcat(h, b);
    assert AddressStep(h, options, AddressTypes) == AddressStep(h1, options, ["shipping_address"]);
    var sh := AddressMember(options, "shipping_address");
    if sh != [] {
      AppendNew(h1, sh[0]);
    } else {
      assert h1 + sh == h1;
    }
  }

  /** add_optional_data's four members append to a hash holding none of their keys. */
  lemma OptionalAppends(h: seq<Member>, email: Json, referenceId: Json, note: Json, delayCapture: Json)
    requires !HasKey(h, "buyer_email_address") && !HasKey(h, "reference_id")
    requires !HasKey(h, "note") && !HasKey(h, "delay_capture")
    ensures var o := [Member("buyer_email_address", email), Member("reference_id", referenceId),
                      Member("note", note), Member("delay_capture", delayCapture)];
      SetAll(h, o) == h + o
  {
    var o := [Member("buyer_email_address", email), Member("reference_id", referenceId),
              Member("note", note), Member("delay_capture", delayCapture)];
    forall i | 0 <= i < |o| ensures !HasKey(h, o[i].key) {
      if i == 0 {} else if i == 1 {} else if i == 2 {} else {}
    }
    SetAllAppends(h, o);
  }

  /** The last two steps append their five members to a hash holding none of their keys. */
  lemma TailStepsAppend(c: seq<Member>, options: seq<Member>)
    requires !HasKey(c, "idempotency_key") && !HasKey(c, "buyer_email_address")
    requires !HasKey(c, "reference_id") && !HasKey(c, "note") && !HasKey(c, "delay_capture")
    ensures OptionalStep(IdempotencyStep(c, options), options) == c + TailMembers(options)
  {
    var m0 := Member("idempotency_key", Lookup(options, "idempotency_key"));
    var h1 := c + [m0];
    assert IdempotencyStep(c, options) == h1 by {
      AppendNew(c, m0);
    }
    assert OptionalStep(h1, options) == h1 + OptionalMembers(options) by {
      assert !HasKey(h1, "buyer_email_address") && !HasKey(h1, "reference_id")
          && !HasKey(h1, "note") && !HasKey(h1, "delay_capture") by {
        AppendNew(c, m0);
        assert Keys([m0]) == ["idempotency_key"];
      }
      OptionalAppends(h1, Lookup(options, "email"), Lookup(options, "reference_id"),
                      Lookup(options, "note"), Lookup(options, "delay_capture"));
    }
    ConcatAssoc(c, [m0], OptionalMembers(options));
  }

  /** invoice and payment on an empty hash give the amount, then the nonce. */
  lemma HeadSteps(money: int, payment: Json, options: seq<Member>)
    ensures PaymentStep(InvoiceStep([], money, options), payment)
         == [Member("amount_money", AmountMoney(money, options)), Member("card_nonce", payment)]
  {
    var m0 := Member("amount_money", AmountMoney(money, options));
    assert InvoiceStep([], money, options) == [m0];
    assert Keys([m0]) == ["amount_money"];
    AppendNew([m0], Member("card_nonce", payment));
  }

  /** add_customer_data on a hash without a customer id appends the member it writes. */
  lemma CustomerStepAppends(h: seq<Member>, options: seq<Member>)
    requires !HasKey(h, "customer_id")
    ensures CustomerStep(h, options) == h + CustomerMember(options)
  {
    var cm := CustomerMember(options);
    if cm != [] {
      AppendNew(h, cm[0]);
    }
  }

  /** A member list of at most one member, under the given key. */
  predicate AtMostOne(m: seq<Member>, key: string)
  {
    |m| <= 1 && (m != [] ==> m[0].key == key)
  }

  /** Appending at most one member under another key keeps a key absent. */
  lemma AppendLacks(h: seq<Member>, m: seq<Member>, key: string, k: string)
    requires !HasKey(h, k) && AtMostOne(m, key) && (m != [] ==> k != key)
    ensures !HasKey(h + m, k)
  {
    KeysConcat(h, m);
    assert Keys(m) == if m == [] then [] else [key];
  }

  /** No key but the amount, the nonce and the two addresses is in the hash after add_address. */
  lemma AddressedLacks(head: seq<Member>, b: seq<Member>, sh: seq<Member>, k: string)
    requires Keys(head) == ["amount_money", "card_nonce"]
    requires AtMostOne(b, "billing_address") && AtMostOne(sh, "shipping_address")
    requires k != "amount_money" && k != "card_nonce"
    requires k != "billing_address" && k != "shipping_address"
    ensures !HasKey(head + b + sh, k)
  {
    AppendLacks(head, b, "billing_address", k);
    AppendLacks(head + b, sh, "shipping_address", k);
  }

  /** None of the keys the last two steps write is in the hash after add_customer_data. */
  lemma CustomerLacks(head: seq<Member>, b: seq<Member>, sh: seq<Member>, cm: seq<Member>)
    requires Keys(head) == ["amount_money", "card_nonce"]
    requires AtMostOne(b, "billing_address") && AtMostOne(sh, "shipping_address")
    requires AtMostOne(cm, "customer_id")
    ensures !HasKey(head + b + sh + cm, "idempotency_key")
    ensures !HasKey(head + b + sh + cm, "buyer_email_address")
    ensures !HasKey(head + b + sh + cm, "reference_id")
    ensures !HasKey(head + b + sh + cm, "note")
    ensures !HasKey(head + b + sh + cm, "delay_capture")
  {
    forall k | k in ["idempotency_key", "buyer_email_address", "reference_id", "note", "delay_capture"]
      ensures !HasKey(head + b + sh + cm, k)
    {
      AddressedLacks(head, b, sh, k);
      AppendLacks(head + b + sh, cm, "customer_id", k);
    }
  }

  /** The first three steps of the charge payload: amount, nonce, then the addresses given. */
  lemma AddressedPayload(money: int, payment: Json, options: seq<Member>)
    requires AddressesWellFormed(options)
    ensures AddressStep(PaymentStep(InvoiceStep([], money, options), payment), options, AddressTypes)
         == Success([Member("amount_money", AmountMoney(money, options)), Member("card_nonce", payment)]
                    + AddressMember(options, "billing_address") + AddressMember(options, "shipping_address"))
  {
    var head := [Member("amount_money", AmountMoney(money, options)), Member("card_nonce", payment)];
    HeadSteps(money, payment, options);
    assert Keys(head) == ["amount_money", "card_nonce"];
    AddressStepAppends(head, options);
  }

  /**
   * For options whose addresses are hashes or unset, the charge payload is
   * exactly: the amount, the nonce, each set address renamed, the
   * customer id when present, then the idempotency key and the four
   * optional fields, whatever their values.
   */
  lemma ChargePayloadShape(money: int, payment: Json, options: seq<Member>)
    requires AddressesWellFormed(options)
    ensures ChargePayload(money, payment, options) == Success(ChargeMembers(money, payment, options))
  {
    var head := [Member("amount_money", AmountMoney(money, options)), Member("card_nonce", payment)];
    var b, sh := AddressMember(options, "billing_address"), AddressMember(options, "shipping_address");
    var cm := CustomerMember(options);
    var r := head + b + sh;
    AddressedPayload(money, payment, options);
    assert CustomerStep(r, options) == r + cm by {
      AddressedLacks(head, b, sh, "customer_id");
      CustomerStepAppends(r, options);
    }
    assert OptionalStep(IdempotencyStep(r + cm, options), options) == r + cm + TailMembers(options) by {
      CustomerLacks(head, b, sh, cm);
      TailStepsAppend(r + cm, options);
    }
  }


  /** The keys add_idempotency_key and add_optional_data write, in order. */
  const TailKeys := ["idempotency_key", "buyer_email_address", "reference_id", "note", "delay_capture"]

  lemma TailKeysDistinct()
    ensures forall i, j :: 0 <= i < j < |TailKeys| ==> TailKeys[i] != TailKeys[j]
  {
  }

  lemma OptionalKeysOf(options: seq<Member>)
    ensures Keys(OptionalMembers(options)) == TailKeys[1..]
  {
    var o := OptionalMembers(options);
    assert Keys(o)[0] == TailKeys[1] && Keys(o)[1] == TailKeys[2];
    assert Keys(o)[2] == TailKeys[3] && Keys(o)[3] == TailKeys[4];
  }

  lemma TailKeysOf(options: seq<Member>)
    ensures Keys(TailMembers(options)) == TailKeys
    ensures UniqueKeys(TailMembers(options))
  {
    OptionalKeysOf(options);
    KeysConcat([Member("idempotency_key", Lookup(options, "idempotency_key"))], OptionalMembers(options));
    assert [TailKeys[0]] + TailKeys[1..] == TailKeys;
    TailKeysDistinct();
  }

  /** Appending at most one member under a new key keeps the keys unique. */
  lemma UniqueAppendOne(h: seq<Member>, m: seq<Member>, key: string)
    requires UniqueKeys(h) && AtMostOne(m, key) && !HasKey(h, key)
    ensures UniqueKeys(h + m)
  {
    if m == [] {
      assert h + m == h;
    } else {
      UniqueConcat(h, m);
    }
  }

  /** In a hash with unique keys every member is found under its own key. */
  lemma FindUnique(h: seq<Member>, i: nat)
    requires UniqueKeys(h) && i < |h|
    ensures Find(h, h[i].key) == Some(h[i].value)
  {
    var ks := Keys(h);
    forall j | 0 <= j < i ensures h[j].key != h[i].key {
      assert ks[j] != ks[i];
    }
    FindAt(h, i);
  }

  /** The stages of the charge payload: head, billing, shipping, customer, then the tail. */
  predicate Staged(head: seq<Member>, b: seq<Member>, sh: seq<Member>, cm: seq<Member>, tail: seq<Member>)
  {
    && Keys(head) == ["amount_money", "card_nonce"]
    && AtMostOne(b, "billing_address") && AtMostOne(sh, "shipping_address")
    && AtMostOne(cm, "customer_id")
    && Keys(tail) == TailKeys && UniqueKeys(tail)
  }

  lemma StagedUnique(head: seq<Member>, b: seq<Member>, sh: seq<Member>, cm: seq<Member>, tail: seq<Member>)
    requires Staged(head, b, sh, cm, tail)
    ensures UniqueKeys(head + b + sh + cm + tail)
  {
    assert UniqueKeys(head);
    UniqueAppendOne(head, b, "billing_address");
    AppendLacks(head, b, "billing_address", "shipping_address");
    UniqueAppendOne(head + b, sh, "shipping_address");
    AddressedLacks(head, b, sh, "customer_id");
    UniqueAppendOne(head + b + sh, cm, "customer_id");
    CustomerLacks(head, b, sh, cm);
    forall i | 0 <= i < |tail| ensures !HasKey(head + b + sh + cm, tail[i].key) {
      assert tail[i].key == TailKeys[i];
    }
    UniqueConcat(head + b + sh + cm, tail);
  }

  /** A key none of the stages writes is absent from the staged payload. */
  lemma StagedLacks(head: seq<Member>, b: seq<Member>, sh: seq<Member>, cm: seq<Member>, tail: seq<Member>, k: string)
    requires Staged(head, b, sh, cm, tail)
    requires k != "amount_money" && k != "card_nonce" && k !in TailKeys
    requires (b != [] ==> k != "billing_address") && (sh != [] ==> k != "shipping_address")
    requires cm != [] ==> k != "customer_id"
    ensures !HasKey(head + b + sh + cm + tail, k)
  {
    AppendLacks(head, b, "billing_address", k);
    AppendLacks(head + b, sh, "shipping_address", k);
    AppendLacks(head + b + sh, cm, "customer_id", k);
    KeysConcat(head + b + sh + cm, tail);
  }

  /** The keys of the staged payload, stage by stage. */
  lemma StagedKeys(head: seq<Member>, b: seq<Member>, sh: seq<Member>, cm: seq<Member>, tail: seq<Member>)
    requires Staged(head, b, sh, cm, tail)
    ensures Keys(head + b + sh + cm + tail)
         == ["amount_money", "card_nonce"]
          + (if b == [] then [] else ["billing_address"])
          + (if sh == [] then [] else ["shipping_address"])
          + (if cm == [] then [] else ["customer_id"])
          + TailKeys
  {
    KeysConcat(head, b);
    KeysConcat(head + b, sh);
    KeysConcat(head + b + sh, cm);
    KeysConcat(head + b + sh + cm, tail);
    assert Keys(b) == if b == [] then [] else ["billing_address"];
    assert Keys(sh) == if sh == [] then [] else ["shipping_address"];
    assert Keys(cm) == if cm == [] then [] else ["customer_id"];
  }

  /** An address type whose stage wrote nothing is absent from the staged payload. */
  lemma AddressAbsent(head: seq<Member>, b: seq<Member>, sh: seq<Member>, cm: seq<Member>, tail: seq<Member>, t: string)
    requires Staged(head, b, sh, cm, tail)
    requires t == "billing_address" || t == "shipping_address"
    requires (t == "billing_address" ==> b == []) && (t == "shipping_address" ==> sh == [])
    ensures !HasKey(head + b + sh + cm + tail, t)
  {
    StagedLacks(head, b, sh, cm, tail, t);
  }

  /** Without a customer stage, the customer id is absent from the staged payload. */
  lemma CustomerAbsent(head: seq<Member>, b: seq<Member>, sh: seq<Member>, tail: seq<Member>)
    requires Staged(head, b, sh, [], tail)
    ensures !HasKey(head + b + sh + [] + tail, "customer_id")
  {
    StagedLacks(head, b, sh, [], tail, "customer_id");
  }

  /** Every member of the staged payload is found under its key. */
  lemma StagedFind(head: seq<Member>, b: seq<Member>, sh: seq<Member>, cm: seq<Member>, tail: seq<Member>)
    requires Staged(head, b, sh, cm, tail)
    ensures var p := head + b + sh + cm + tail;
      && (forall i :: 0 <= i < |head| ==> Find(p, head[i].key) == Some(head[i].value))
      && (b != [] ==> Find(p, "billing_address") == Some(b[0].value))
      && (sh != [] ==> Find(p, "shipping_address") == Some(sh[0].value))
      && (cm != [] ==> Find(p, "customer_id") == Some(cm[0].value))
      && (forall i :: 0 <= i < |tail| ==> Find(p, tail[i].key) == Some(tail[i].value))
  {
    StagedUnique(head, b, sh, cm, tail);
    FindHeadPart(head, b, sh, cm, tail);
    if b != [] { FindBillingPart(head, b, sh, cm, tail); }
    if sh != [] { FindShippingPart(head, b, sh, cm, tail); }
    if cm != [] { FindCustomerPart(head, b, sh, cm, tail); }
    FindTailPart(head, b, sh, cm, tail);
  }

  /** In the staged payload with unique keys, the head members are found. */
  lemma FindHeadPart(head: seq<Member>, b: seq<Member>, sh: seq<Member>, cm: seq<Member>, tail: seq<Member>)
    requires UniqueKeys(head + b + sh + cm + tail)
    ensures forall i :: 0 <= i < |head| ==> Find(head + b + sh + cm + tail, head[i].key) == Some(head[i].value)
  {
    forall i | 0 <= i < |head| ensures Find(head + b + sh + cm + tail, head[i].key) == Some(head[i].value) {
      assert (head + b + sh + cm + tail)[i] == head[i];
      FindUnique(head + b + sh + cm + tail, i);
    }
  }

  /** In a hash with unique keys, the members of its second part are found. */
  lemma FindRight(x: seq<Member>, z: seq<Member>)
    requires UniqueKeys(x + z)
    ensures forall i :: 0 <= i < |z| ==> Find(x + z, z[i].key) == Some(z[i].value)
  {
    forall i | 0 <= i < |z| ensures Find(x + z, z[i].key) == Some(z[i].value) {
      assert (x + z)[|x| + i] == z[i];
      FindUnique(x + z, |x| + i);
    }
  }

  /** In the staged payload with unique keys, the tail members are found. */
  lemma FindTailPart(head: seq<Member>, b: seq<Member>, sh: seq<Member>, cm: seq<Member>, tail: seq<Member>)
    requires UniqueKeys(head + b + sh + cm + tail)
    ensures forall i :: 0 <= i < |tail| ==> Find(head + b + sh + cm + tail, tail[i].key) == Some(tail[i].value)
  {
    FindRight(head + b + sh + cm, tail);
  }

  /** In the staged payload with unique keys, the billing address is found. */
  lemma FindBillingPart(head: seq<Member>, b: seq<Member>, sh: seq<Member>, cm: seq<Member>, tail: seq<Member>)
    requires UniqueKeys(head + b + sh + cm + tail) && b != []
    ensures Find(head + b + sh + cm + tail, b[0].key) == Some(b[0].value)
  {
    assert (head + b + sh + cm + tail)[|head|] == b[0];
    FindUnique(head + b + sh + cm + tail, |head|);
  }

  /** In the staged payload with unique keys, the shipping address is found. */
  lemma FindShippingPart(head: seq<Member>, b: seq<Member>, sh: seq<Member>, cm: seq<Member>, tail: seq<Member>)
    requires UniqueKeys(head + b + sh + cm + tail) && sh != []
    ensures Find(head + b + sh + cm + tail, sh[0].key) == Some(sh[0].value)
  {
    assert (head + b + sh + cm + tail)[|head + b|] == sh[0];
    FindUnique(head + b + sh + cm + tail, |head + b|);
  }

  /** In the staged payload with unique keys, the customer id is found. */
  lemma FindCustomerPart(head: seq<Member>, b: seq<Member>, sh: seq<Member>, cm: seq<Member>, tail: seq<Member>)
    requires UniqueKeys(head + b + sh + cm + tail) && cm != []
    ensures Find(head + b + sh + cm + tail, cm[0].key) == Some(cm[0].value)
  {
    assert (head + b + sh + cm + tail)[|head + b + sh|] == cm[0];
    FindUnique(head + b + sh + cm + tail, |head + b + sh|);
  }

  /** The charge members are staged. */
  lemma ChargeStaged(money: int, payment: Json, options: seq<Member>)
    ensures Staged([Member("amount_money", AmountMoney(money, options)), Member("card_nonce", payment)],
                   AddressMember(options, "billing_address"), AddressMember(options, "shipping_address"),
                   CustomerMember(options), TailMembers(options))
  {
    TailKeysOf(options);
    assert Keys([Member("amount_money", AmountMoney(money, options)), Member("card_nonce", payment)])
        == ["amount_money", "card_nonce"];
  }

  /**
   * charge's payload holds the amount, the nonce verbatim, the idempotency
   * key and the four optional fields, each always present and each holding
   * the option it copies (nil when that option is absent); no key occurs
   * twice.
   */
  lemma ChargePayloadFields(money: int, payment: Json, options: seq<Member>)
    requires AddressesWellFormed(options)
    ensures ChargePayload(money, payment, options).Success?
    ensures var p := ChargePayload(money, payment, options).value;
      && UniqueKeys(p)
      && HasKey(p, "amount_money") && Lookup(p, "amount_money") == AmountMoney(money, options)
      && HasKey(p, "card_nonce") && Lookup(p, "card_nonce") == payment
      && HasKey(p, "idempotency_key") && Lookup(p, "idempotency_key") == Lookup(options, "idempotency_key")
      && HasKey(p, "buyer_email_address") && Lookup(p, "buyer_email_address") == Lookup(options, "email")
      && HasKey(p, "reference_id") && Lookup(p, "reference_id") == Lookup(options, "reference_id")
      && HasKey(p, "note") && Lookup(p, "note") == Lookup(options, "note")
      && HasKey(p, "delay_capture") && Lookup(p, "delay_capture") == Lookup(options, "delay_capture")
  {
    var head := [Member("amount_money", AmountMoney(money, options)), Member("card_nonce", payment)];
    var b, sh := AddressMember(options, "billing_address"), AddressMember(options, "shipping_address");
    var cm, tail := CustomerMember(options), TailMembers(options);
    ChargePayloadShape(money, payment, options);
    ChargeStaged(money, payment, options);
    StagedUnique(head, b, sh, cm, tail);
    StagedFind(head, b, sh, cm, tail);
    var p := head + b + sh + cm + tail;
    assert Find(p, head[0].key) == Some(head[0].value);
    assert Find(p, head[1].key) == Some(head[1].value);
    assert Find(p, tail[0].key) == Some(tail[0].value);
    assert Find(p, tail[1].key) == Some(tail[1].value);
    assert Find(p, tail[2].key) == Some(tail[2].value);
    assert Find(p, tail[3].key) == Some(tail[3].value);
    assert Find(p, tail[4].key) == Some(tail[4].value);
  }

  /** customer_id is in charge's payload exactly when the option is present, and then as a string. */
  lemma ChargePayloadCustomer(money: int, payment: Json, options: seq<Member>)
    requires AddressesWellFormed(options)
    ensures ChargePayload(money, payment, options).Success?
    ensures var p := ChargePayload(money, payment, options).value;
      var customerId := Lookup(options, "customer_id");
      && (HasKey(p, "customer_id") <==> Present(customerId))
      && (Present(customerId) ==> Lookup(p, "customer_id") == JString(ToS(customerId)))
  {
    var head := [Member("amount_money", AmountMoney(money, options)), Member("card_nonce", payment)];
    var b, sh := AddressMember(options, "billing_address"), AddressMember(options, "shipping_address");
    var cm, tail := CustomerMember(options), TailMembers(options);
    ChargePayloadShape(money, payment, options);
    ChargeStaged(money, payment, options);
    if cm != [] {
      StagedUnique(head, b, sh, cm, tail);
      FindCustomerPart(head, b, sh, cm, tail);
    } else {
      CustomerAbsent(head, b, sh, tail);
    }
  }

  /**
   * Each address type is in charge's payload exactly when its option is
   * set, and then holds that address renamed to Square's fields.
   */
  lemma ChargePayloadAddress(money: int, payment: Json, options: seq<Member>, t: string)
    requires AddressesWellFormed(options)
    requires t in AddressTypes
    ensures ChargePayload(money, payment, options).Success?
    ensures var p := ChargePayload(money, payment, options).value;
      var address := Lookup(options, t);
      && (HasKey(p, t) <==> Truthy(address))
      && (Truthy(address) ==> Lookup(p, t) == JObject(SquareAddress(address).value))
  {
    var head := [Member("amount_money", AmountMoney(money, options)), Member("card_nonce", payment)];
    var b, sh := AddressMember(options, "billing_address"), AddressMember(options, "shipping_address");
    var cm, tail := CustomerMember(options), TailMembers(options);
    ChargePayloadShape(money, payment, options);
    ChargeStaged(money, payment, options);
    assert Truthy(Lookup(options, AddressTypes[0])) ==> Lookup(options, AddressTypes[0]).JObject?;
    assert Truthy(Lookup(options, AddressTypes[1])) ==> Lookup(options, AddressTypes[1]).JObject?;
    if t == "billing_address" {
      if b != [] {
        StagedUnique(head, b, sh, cm, tail);
        FindBillingPart(head, b, sh, cm, tail);
      } else {
        AddressAbsent(head, b, sh, cm, tail, t);
      }
    } else {
      if sh != [] {
        StagedUnique(head, b, sh, cm, tail);
        FindShippingPart(head, b, sh, cm, tail);
      } else {
        AddressAbsent(head, b, sh, cm, tail, t);
      }
    }
  }

  /**
   * The keys of charge's payload, in order: the amount, the nonce, each set
   * address, the customer id when present, then the five keys always
   * written; there are no others.
   */
  lemma ChargePayloadKeys(money: int, payment: Json, options: seq<Member>)
    requires AddressesWellFormed(options)
    ensures ChargePayload(money, payment, options).Success?
    ensures Keys(ChargePayload(money, payment, options).value)
         == ["amount_money", "card_nonce"]
          + (if Truthy(Lookup(options, "billing_address")) then ["billing_address"] else [])
          + (if Truthy(Lookup(options, "shipping_address")) then ["shipping_address"] else [])
          + (if Present(Lookup(options, "customer_id")) then ["customer_id"] else [])
          + TailKeys
  {
    var head := [Member("amount_money", AmountMoney(money, options)), Member("card_nonce", payment)];
    var b, sh := AddressMember(options, "billing_address"), AddressMember(options, "shipping_address");
    var cm, tail := CustomerMember(options), TailMembers(options);
    ChargePayloadShape(money, payment, options);
    ChargeStaged(money, payment, options);
    assert Truthy(Lookup(options, AddressTypes[0])) ==> Lookup(options, AddressTypes[0]).JObject?;
    assert Truthy(Lookup(options, AddressTypes[1])) ==> Lookup(options, AddressTypes[1]).JObject?;
    StagedKeys(head, b, sh, cm, tail);
  }

  /** A billing address that is set but is not a hash makes charge raise at its first field. */
  lemma MalformedBillingRaises(money: int, payment: Json, options: seq<Member>)
    requires Truthy(Lookup(options, "billing_address")) && !Lookup(options, "billing_address").JObject?
    ensures ChargePayload(money, payment, options)
         == Failure(SymbolField(Lookup(options, "billing_address"), "address1").error)
  {
    assert AddressTypes[0] == "billing_address";
  }

  /** The keys refund writes, in order. */
  const RefundKeys := ["idempotency_key", "tender_id", "reason", "amount_money"]

  lemma RefundKeysDistinct()
    ensures forall i, j :: 0 <= i < j < |RefundKeys| ==> RefundKeys[i] != RefundKeys[j]
  {
  }

  /** The refund payload holds exactly the idempotency key, the tender id, the reason and the amount, in that order. */
  lemma RefundPayloadMembers(money: int, tenderId: Json, options: seq<Member>)
    ensures RefundPayload(money, tenderId, options)
         == [Member("idempotency_key", Lookup(options, "idempotency_key")),
             Member("tender_id", tenderId),
             Member("reason", Lookup(options, "reason")),
             Member("amount_money", AmountMoney(money, options))]
    ensures Keys(RefundPayload(money, tenderId, options)) == RefundKeys
    ensures UniqueKeys(RefundPayload(money, tenderId, options))
  {
    var m0 := Member("idempotency_key", Lookup(options, "idempotency_key"));
    var m1 := Member("tender_id", tenderId);
    var m2 := Member("reason", Lookup(options, "reason"));
    var m3 := Member("amount_money", AmountMoney(money, options));
    assert Set([], m0.key, m0.value) == [m0];
    assert Set([m0], m1.key, m1.value) == [m0, m1] by {
      assert Keys([m0]) == ["idempotency_key"];
      AppendNew([m0], m1);
    }
    assert Set([m0, m1], m2.key, m2.value) == [m0, m1, m2] by {
      assert Keys([m0, m1]) == ["idempotency_key", "tender_id"];
      AppendNew([m0, m1], m2);
    }
    assert Set([m0, m1, m2], m3.key, m3.value) == [m0, m1, m2, m3] by {
      assert Keys([m0, m1, m2]) == ["idempotency_key", "tender_id", "reason"];
      AppendNew([m0, m1, m2], m3);
    }
    assert Keys([m0, m1, m2, m3]) == RefundKeys;
    RefundKeysDistinct();
  }
}
