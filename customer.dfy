/**
 * Ashmont::Customer: a gateway customer identified by a token, with a
 * memoised copy of the remote customer, readers over its first credit card,
 * and `save`, which builds a gateway payload and adopts the gateway's answer.
 *
 * Gateway calls are not made here: what the gateway would answer is passed in
 * (`found` for a lookup, `response` for a create or update), and every call
 * the code would make is appended to the ghost log `calls`.
 */
module Customers {
  import opened Values
  import opened ErrorMessages

  const CreditCardAttributes: seq<string> := ["cardholder_name", "number", "cvv", "expiration_month", "expiration_year"]
  const AddressAttributes: seq<string> := ["street_address", "extended_address", "locality", "region", "postal_code", "country_name"]
  const BillingAttributes: seq<string> := CreditCardAttributes + AddressAttributes

  datatype Address = Address(
    streetAddress: Value, extendedAddress: Value, locality: Value,
    region: Value, postalCode: Value, countryName: Value)

  datatype CreditCard = CreditCard(
    token: Value, last4: Value, cardholderName: Value,
    expirationMonth: Value, expirationYear: Value, billingAddress: Address)

  datatype RemoteCustomer = RemoteCustomer(id: string, email: Value, creditCards: seq<CreditCard>)

  /** The gateway's answer to a customer create or update. */
  datatype CustomerResponse =
    | Succeeded(customer: RemoteCustomer)
    | Failed(verification: StatusReport, errors: seq<FieldError>)

  /** A call this class makes to the gateway. */
  datatype GatewayCall =
    | FindCustomer(token: Value)
    | CreateCustomer(payload: map<Key, Payload>)
    | UpdateCustomer(token: Value, payload: map<Key, Payload>)

  /** The ten card and billing-address readers. */
  datatype CardField =
    | Last4 | CardholderName | ExpirationMonth | ExpirationYear
    | StreetAddress | ExtendedAddress | Locality | Region | PostalCode | CountryName

  /** `persisted?`: the token is present (not nil, not blank). */
  predicate Persisted(token: Value)
  {
    Present(token)
  }

  function First(cards: seq<CreditCard>): (card: Option<CreditCard>)
  {
    if cards == [] then None else Some(cards[0])
  }

  /** What a card reader answers for a card, or nil without one. */
  function Detail(card: Option<CreditCard>, field: CardField): Value
  {
    match card
    case None => Nil
    case Some(c) =>
      match field
      case Last4 => c.last4
      case CardholderName => c.cardholderName
      case ExpirationMonth => c.expirationMonth
      case ExpirationYear => c.expirationYear
      case StreetAddress => c.billingAddress.streetAddress
      case ExtendedAddress => c.billingAddress.extendedAddress
      case Locality => c.billingAddress.locality
      case Region => c.billingAddress.region
      case PostalCode => c.billingAddress.postalCode
      case CountryName => c.billingAddress.countryName
  }

  // ---------------------------------------------------------------------
  // The payload `save` sends.

  /**
   * `symbolize_keys`: every key becomes a symbol. When a bag holds both
   * `:name` and `"name"`, the symbol entry is the one kept.
   */
  function SymbolizeKeys(attributes: map<Key, Value>): (r: map<Key, Value>)
    ensures forall k :: k in r ==> k.Sym?
    ensures forall n :: Sym(n) in r <==> Sym(n) in attributes || Str(n) in attributes
    ensures forall n :: Lookup(r, Sym(n)) == (if Sym(n) in attributes then attributes[Sym(n)] else Lookup(attributes, Str(n)))
  {
    var names := set k | k in attributes :: k.name;
    map n | n in names :: Sym(n) := if Sym(n) in attributes then attributes[Sym(n)] else attributes[Str(n)]
  }

  /** `names.any? { |a| attributes[a].present? }` */
  predicate AnyPresent(attributes: map<Key, Value>, names: seq<string>)
  {
    exists n :: n in names && Present(Lookup(attributes, Sym(n)))
  }

  /** `names.inject({}) { |h, a| h.update(a => attributes[a]) }`: every name, its value copied, nil when absent. */
  function Copied(attributes: map<Key, Value>, names: seq<string>): (r: map<Key, Payload>)
    ensures forall k :: k in r <==> k.Sym? && k.name in names
    ensures forall k :: k in r ==> r[k] == Leaf(Lookup(attributes, k))
    decreases |names|
  {
    if names == [] then map[]
    else
      var last := names[|names| - 1];
      var r := Copied(attributes, names[..|names| - 1])[Sym(last) := Leaf(Lookup(attributes, Sym(last)))];
      assert names == names[..|names| - 1] + [last];
      r
  }

  /** The `:billing_address` entry: the six address attributes, copied. */
  ghost predicate IsAddressPayload(address: map<Key, Payload>, attributes: map<Key, Value>)
  {
    && (forall k :: k in address <==> (k.Sym? && k.name in AddressAttributes))
    && (forall k :: k in address ==> address[k] == Leaf(Lookup(attributes, k)))
  }

  /** The keys of the `:credit_card` entry: the five card fields, `:billing_address`, and `:options` with a token. */
  ghost predicate HasCardKeys(card: map<Key, Payload>, paymentMethodToken: Value)
  {
    forall k :: k in card <==>
      (k.Sym? && (k.name in CreditCardAttributes || k.name == "billing_address"
                  || (Truthy(paymentMethodToken) && k.name == "options")))
  }

  /** The `:credit_card` entry when some billing attribute is present. */
  ghost predicate IsCardPayload(card: map<Key, Payload>, attributes: map<Key, Value>, paymentMethodToken: Value)
  {
    && HasCardKeys(card, paymentMethodToken)
    && (forall k :: k in card && k.name in CreditCardAttributes ==> card[k] == Leaf(Lookup(attributes, k)))
    && Sym("billing_address") in card
    && card[Sym("billing_address")].Node?
    && IsAddressPayload(card[Sym("billing_address")].fields, attributes)
    && (Truthy(paymentMethodToken) ==>
          card[Sym("options")] == Node(map[Sym("update_existing_token") := Leaf(paymentMethodToken)]))
  }

  /** The two entries the card payload adds are not card attributes. */
  lemma NotCardAttributes()
    ensures "billing_address" !in CreditCardAttributes && "options" !in CreditCardAttributes
  {
  }

  /** `:options` is added only for a customer that already has a payment method token. */
  function WithOptions(card: map<Key, Payload>, paymentMethodToken: Value): map<Key, Payload>
  {
    if Truthy(paymentMethodToken)
    then card[Sym("options") := Node(map[Sym("update_existing_token") := Leaf(paymentMethodToken)])]
    else card
  }

  lemma CardKeys(fields: map<Key, Payload>, address: map<Key, Payload>, paymentMethodToken: Value)
    requires forall k :: k in fields <==> k.Sym? && k.name in CreditCardAttributes
    ensures HasCardKeys(WithOptions(fields[Sym("billing_address") := Node(address)], paymentMethodToken), paymentMethodToken)
  {
  }

  lemma CardFields(attributes: map<Key, Value>, fields: map<Key, Payload>, address: map<Key, Payload>, paymentMethodToken: Value)
    requires forall k :: k in fields ==> fields[k] == Leaf(Lookup(attributes, k))
    requires forall k :: k in fields <==> k.Sym? && k.name in CreditCardAttributes
    ensures var card := WithOptions(fields[Sym("billing_address") := Node(address)], paymentMethodToken);
      forall k :: k in card && k.name in CreditCardAttributes ==> card[k] == Leaf(Lookup(attributes, k))
  {
    NotCardAttributes();
  }

  /** The `:credit_card` entry built when a billing attribute is present. */
  function CardPayload(attributes: map<Key, Value>, paymentMethodToken: Value): map<Key, Payload>
  {
    WithOptions(Copied(attributes, CreditCardAttributes)[Sym("billing_address") := Node(Copied(attributes, AddressAttributes))],
                paymentMethodToken)
  }

  lemma CardPayloadShape(attributes: map<Key, Value>, paymentMethodToken: Value)
    ensures IsCardPayload(CardPayload(attributes, paymentMethodToken), attributes, paymentMethodToken)
  {
    var fields := Copied(attributes, CreditCardAttributes);
    var address := Copied(attributes, AddressAttributes);
    var card := CardPayload(attributes, paymentMethodToken);
    CardKeys(fields, address, paymentMethodToken);
    CardFields(attributes, fields, address, paymentMethodToken);
    assert card[Sym("billing_address")] == Node(address);
  }

  /**
   * The hash `build_attribute_hash` returns for symbol-keyed attributes and
   * the customer's payment method token: always `:email` and `:credit_card`;
   * the card entry is empty unless a billing attribute is present, and then
   * holds the five card fields, the six-field billing address and, when the
   * customer already has a payment method token, the directive to update
   * that card.
   */
  function AttributeHash(attributes: map<Key, Value>, paymentMethodToken: Value): map<Key, Payload>
  {
    var card := if AnyPresent(attributes, BillingAttributes) then CardPayload(attributes, paymentMethodToken) else map[];
    map[Sym("email") := Leaf(Lookup(attributes, Sym("email"))), Sym("credit_card") := Node(card)]
  }

  lemma AttributeHashShape(attributes: map<Key, Value>, paymentMethodToken: Value)
    ensures var r := AttributeHash(attributes, paymentMethodToken);
      && r.Keys == {Sym("email"), Sym("credit_card")}
      && r[Sym("email")] == Leaf(Lookup(attributes, Sym("email")))
      && (!AnyPresent(attributes, BillingAttributes) ==> r[Sym("credit_card")] == Node(map[]))
  {
  }

  lemma AttributeHashCard(attributes: map<Key, Value>, paymentMethodToken: Value)
    requires AnyPresent(attributes, BillingAttributes)
    ensures var r := AttributeHash(attributes, paymentMethodToken);
      r[Sym("credit_card")].Node? && IsCardPayload(r[Sym("credit_card")].fields, attributes, paymentMethodToken)
  {
    var card := CardPayload(attributes, paymentMethodToken);
    CardPayloadShape(attributes, paymentMethodToken);
    assert AttributeHash(attributes, paymentMethodToken)[Sym("credit_card")] == Node(card);
  }

  /** An email alone, under either key spelling, changes no billing attribute. */
  lemma EmailIsNotBilling(emailKey: Key, email: string)
    requires emailKey.name == "email"
    ensures !AnyPresent(SymbolizeKeys(map[emailKey := Text(email)]), BillingAttributes)
  {
    var attributes := SymbolizeKeys(map[emailKey := Text(email)]);
    forall n | n in BillingAttributes ensures !Present(Lookup(attributes, Sym(n))) {
      assert Sym(n) !in map[emailKey := Text(email)] && Str(n) !in map[emailKey := Text(email)];
    }
  }

  /** Without a present billing attribute the payload is the email and an empty card entry, whatever the token. */
  lemma NoBillingPayload(attributes: map<Key, Value>, paymentMethodToken: Value)
    requires !AnyPresent(attributes, BillingAttributes)
    ensures AttributeHash(attributes, paymentMethodToken)
      == map[Sym("email") := Leaf(Lookup(attributes, Sym("email"))), Sym("credit_card") := Node(map[])]
  {
  }

  /**
   * Saving only an email, with no card data, sends `{email: ..., credit_card: {}}`,
   * whether the caller spelled the key `:email` or `"email"`.
   */
  lemma EmailOnlyPayload(emailKey: Key, email: string)
    requires emailKey.name == "email"
    ensures AttributeHash(SymbolizeKeys(map[emailKey := Text(email)]), Nil)
      == map[Sym("email") := Leaf(Text(email)), Sym("credit_card") := Node(map[])]
  {
    var attributes := SymbolizeKeys(map[emailKey := Text(email)]);
    EmailIsNotBilling(emailKey, email);
    NoBillingPayload(attributes, Nil);
    assert Lookup(attributes, Sym("email")) == Text(email);
  }

  // ---------------------------------------------------------------------

  class Customer {
    var token: Value
    var errors: ErrorMap
    var remoteCustomer: Option<RemoteCustomer>
    ghost var calls: seq<GatewayCall>

    constructor (token: Value)
      ensures this.token == token && errors == map[] && remoteCustomer == None && calls == []
    {
      this.token := token;
      errors := map[];
      remoteCustomer := None;
      calls := [];
    }

    /** The remote customer a read sees now: the memo, or else what a lookup returns. */
    ghost function Resolved(found: RemoteCustomer): RemoteCustomer
      reads this
    {
      if remoteCustomer.Some? then remoteCustomer.value else found
    }

    /** `credit_cards` as a read would see it now. */
    ghost function CardsSeen(found: RemoteCustomer): seq<CreditCard>
      reads this
    {
      if Persisted(token) then Resolved(found).creditCards else []
    }

    /**
     * What a read through `remote_customer` changes: without a present token
     * nothing; with one, the memo is filled and the gateway is asked only if
     * the memo was empty.
     */
    twostate predicate ReadThrough(found: RemoteCustomer)
      reads this
    {
      && token == old(token) && errors == old(errors)
      && if Persisted(token) then
           && remoteCustomer == Some(old(Resolved(found)))
           && calls == old(calls) + (if old(remoteCustomer).None? then [FindCustomer(token)] else [])
         else
           remoteCustomer == old(remoteCustomer) && calls == old(calls)
    }

    /** `remote_customer`: looked up once, then reused. */
    method FetchRemoteCustomer(found: RemoteCustomer) returns (rc: RemoteCustomer)
      modifies this`remoteCustomer, this`calls
      ensures rc == old(Resolved(found))
      ensures remoteCustomer == Some(rc)
      ensures calls == old(calls) + (if old(remoteCustomer).None? then [FindCustomer(token)] else [])
    {
      if remoteCustomer.None? {
        calls := calls + [FindCustomer(token)];
        remoteCustomer := Some(found);
      }
      rc := remoteCustomer.value;
    }

    method CreditCards(found: RemoteCustomer) returns (cards: seq<CreditCard>)
      modifies this`remoteCustomer, this`calls
      ensures cards == old(CardsSeen(found))
      ensures ReadThrough(found)
    {
      if Persisted(token) {
        var rc := FetchRemoteCustomer(found);
        cards := rc.creditCards;
      } else {
        cards := [];
      }
    }

    /** `credit_card`: the first card, nil without a present token or without cards. */
    method CreditCard(found: RemoteCustomer) returns (card: Option<CreditCard>)
      modifies this`remoteCustomer, this`calls
      ensures card.Some? <==> old(CardsSeen(found)) != []
      ensures card.Some? ==> card.value == old(CardsSeen(found))[0]
      ensures ReadThrough(found)
    {
      var cards := CreditCards(found);
      card := First(cards);
    }

    /** `has_billing_info?`: the card list is non-empty. */
    method HasBillingInfo(found: RemoteCustomer) returns (b: bool)
      modifies this`remoteCustomer, this`calls
      ensures b <==> old(CardsSeen(found)) != []
      ensures ReadThrough(found)
    {
      var card := CreditCard(found);
      b := card.Some?;
    }

    /** `payment_method_token`: the first card's token, nil without a card. */
    method PaymentMethodToken(found: RemoteCustomer) returns (t: Value)
      modifies this`remoteCustomer, this`calls
      ensures t == (if old(CardsSeen(found)) == [] then Nil else old(CardsSeen(found))[0].token)
      ensures ReadThrough(found)
    {
      var card := CreditCard(found);
      t := if card.Some? then card.value.token else Nil;
    }

    /** `billing_email`: the remote email, nil (and no lookup) without a present token. */
    method BillingEmail(found: RemoteCustomer) returns (email: Value)
      modifies this`remoteCustomer, this`calls
      ensures email == (if Persisted(token) then old(Resolved(found)).email else Nil)
      ensures ReadThrough(found)
    {
      if Persisted(token) {
        var rc := FetchRemoteCustomer(found);
        email := rc.email;
      } else {
        email := Nil;
      }
    }

    /** `last_4`, `cardholder_name`, ..., `country_name`: a field of the first card, nil without one. */
    method CardDetail(field: CardField, found: RemoteCustomer) returns (v: Value)
      modifies this`remoteCustomer, this`calls
      ensures old(CardsSeen(found)) == [] ==> v == Nil
      ensures old(CardsSeen(found)) != [] ==> v == Detail(Some(old(CardsSeen(found))[0]), field)
      ensures ReadThrough(found)
    {
      var card := CreditCard(found);
      v := Detail(card, field);
    }

    /**
     * `build_attribute_hash`: the payment method token is read (through the
     * memo) only when a billing attribute is present.
     */
    method BuildAttributeHash(attributes: map<Key, Value>, found: RemoteCustomer) returns (r: map<Key, Payload>)
      modifies this`remoteCustomer, this`calls
      ensures var billing := AnyPresent(attributes, BillingAttributes);
              r == AttributeHash(attributes, if billing && old(CardsSeen(found)) != [] then old(CardsSeen(found))[0].token else Nil)
      ensures AnyPresent(attributes, BillingAttributes) ==> ReadThrough(found)
      ensures !AnyPresent(attributes, BillingAttributes) ==> remoteCustomer == old(remoteCustomer) && calls == old(calls)
    {
      var pmt := Nil;
      if AnyPresent(attributes, BillingAttributes) {
        pmt := PaymentMethodToken(found);
      }
      r := AttributeHash(attributes, pmt);
    }

    /** `create_or_update`: send the symbolised payload as an update when persisted, a create otherwise. */
    method CreateOrUpdate(attributes: map<Key, Value>, found: RemoteCustomer)
      modifies this`remoteCustomer, this`calls
      ensures var billing := AnyPresent(SymbolizeKeys(attributes), BillingAttributes);
              var existing := old(CardsSeen(found));
              var payload := AttributeHash(SymbolizeKeys(attributes), if billing && existing != [] then existing[0].token else Nil);
              && calls == old(calls) + (if billing && Persisted(token) && old(remoteCustomer).None? then [FindCustomer(token)] else [])
                            + [if Persisted(token) then UpdateCustomer(token, payload) else CreateCustomer(payload)]
              && remoteCustomer == (if billing && Persisted(token) then Some(old(Resolved(found))) else old(remoteCustomer))
    {
      var payload := BuildAttributeHash(SymbolizeKeys(attributes), found);
      if Persisted(token) {
        Update(payload);
      } else {
        Create(payload);
      }
    }

    /** `create`: a gateway create with the payload. */
    method Create(payload: map<Key, Payload>)
      modifies this`calls
      ensures calls == old(calls) + [CreateCustomer(payload)]
    {
      calls := calls + [CreateCustomer(payload)];
    }

    /** `update`: a gateway update of this token with the payload. */
    method Update(payload: map<Key, Payload>)
      modifies this`calls
      ensures calls == old(calls) + [UpdateCustomer(token, payload)]
    {
      calls := calls + [UpdateCustomer(token, payload)];
    }

    /**
     * `handle_result`: on success adopt the returned customer's id as token
     * and the customer as memo; on failure keep both and rebuild `errors`.
     * Errors are not cleared on success.
     */
    method HandleResult(response: CustomerResponse) returns (ok: bool)
      modifies this`token, this`remoteCustomer, this`errors
      ensures ok <==> response.Succeeded?
      ensures response.Succeeded? ==>
        token == Text(response.customer.id) && remoteCustomer == Some(response.customer) && errors == old(errors)
      ensures response.Failed? ==>
        token == old(token) && remoteCustomer == old(remoteCustomer)
        && errors == Translate(response.verification, response.errors)
    {
      match response
      case Succeeded(customer) =>
        token := Text(customer.id);
        remoteCustomer := Some(customer);
        ok := true;
      case Failed(verification, remoteErrors) =>
        var e := new Errors(verification, remoteErrors);
        errors := e.errors;
        ok := false;
    }

    /** `save`: create or update, then adopt the gateway's answer. */
    method Save(attributes: map<Key, Value>, found: RemoteCustomer, response: CustomerResponse) returns (ok: bool)
      modifies this
      ensures var billing := AnyPresent(SymbolizeKeys(attributes), BillingAttributes);
              var existing := old(CardsSeen(found));
              var payload := AttributeHash(SymbolizeKeys(attributes), if billing && existing != [] then existing[0].token else Nil);
              calls == old(calls) + (if billing && Persisted(old(token)) && old(remoteCustomer).None? then [FindCustomer(old(token))] else [])
                       + [if Persisted(old(token)) then UpdateCustomer(old(token), payload) else CreateCustomer(payload)]
      ensures ok <==> response.Succeeded?
      ensures response.Succeeded? ==>
        token == Text(response.customer.id) && remoteCustomer == Some(response.customer) && errors == old(errors)
      ensures response.Failed? ==>
        && token == old(token)
        && errors == Translate(response.verification, response.errors)
        && remoteCustomer == (if AnyPresent(SymbolizeKeys(attributes), BillingAttributes) && Persisted(old(token))
                              then Some(old(Resolved(found))) else old(remoteCustomer))
    {
      CreateOrUpdate(attributes, found);
      ok := HandleResult(response);
    }
  }

  /** Two card reads in a row look the customer up at most once and agree, whatever a second lookup would answer. */
  method CreditCardTwice(customer: Customer, found: RemoteCustomer, foundLater: RemoteCustomer)
    returns (first: Option<CreditCard>, second: Option<CreditCard>)
    modifies customer
    ensures first == second
    ensures |customer.calls| <= |old(customer.calls)| + 1
  {
    first := customer.CreditCard(found);
    second := customer.CreditCard(foundLater);
  }
}
