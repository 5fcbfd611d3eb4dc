/**
 * Ashmont::SubscribedCustomer: one customer and one subscription behind a
 * single `save`, which runs three steps in order and stops at the first
 * falsy one, and an `errors` that merges the two error maps.
 *
 * The two owned objects are seen only through what they answer: the
 * `Replies` of one `save` are parameters, and each interaction with them is
 * recorded, in order, in a ghost trace. (The subscription is asked
 * `past_due?`, which the Subscription class does not define, and sent
 * `save(hash)`, while `Subscription#save` takes no arguments; so the model
 * does not tie the two together.)
 */
module SubscribedCustomers {
  import opened Values
  import opened ErrorMessages
  import Customers

  const CustomerAttributes: seq<string> := [
    "cardholder_name", "email", "number", "expiration_month", "expiration_year", "cvv",
    "street_address", "extended_address", "locality", "region", "postal_code", "country_name"]

  /** What the owned customer and subscription answer during one `save`. */
  datatype Replies = Replies(
    customerToken: Value,       // `token`, forwarded to the customer
    customerSave: Value,        // `@customer.save(attributes)`
    pastDue: Value,             // `past_due?`, forwarded to the subscription
    retryCharge: Value,         // `retry_charge`, forwarded to the subscription
    paymentMethodToken: Value,  // `payment_method_token`, forwarded to the customer
    subscriptionSave: Value)    // `@subscription.save(payload)`

  /** An interaction with the owned customer or subscription. */
  datatype Call =
    | ReadCustomerToken
    | SaveCustomer(attributes: map<Key, Value>)
    | AskPastDue
    | RetryCharge
    | ReadPaymentMethodToken
    | SaveSubscription(payload: map<Key, Value>)

  /** `new_customer?`: the customer's token is nil (an empty string is not new). */
  predicate NewCustomer(token: Value)
  {
    token == Nil
  }

  /** `changing_customer?`: one of the twelve customer attributes is present. */
  predicate ChangingCustomer(attributes: map<Key, Value>)
  {
    exists n :: n in CustomerAttributes && Present(Lookup(attributes, Sym(n)))
  }

  /** `changing_subscription?`: a plan id is present. */
  predicate ChangingSubscription(attributes: map<Key, Value>)
  {
    Present(Lookup(attributes, Sym("plan_id")))
  }

  /** The hash `save_subscription` sends. */
  function SubscriptionPayload(attributes: map<Key, Value>, paymentMethodToken: Value): map<Key, Value>
  {
    map[Sym("plan_id") := Lookup(attributes, Sym("plan_id")),
        Sym("price") := Text(ToS(Lookup(attributes, Sym("price")))),
        Sym("payment_method_token") := paymentMethodToken]
  }

  /** The customer step runs `customer.save` for a new customer or when customer attributes are present. */
  predicate CustomerStepRuns(attributes: map<Key, Value>, replies: Replies)
  {
    NewCustomer(replies.customerToken) || ChangingCustomer(attributes)
  }

  /** The value of each step: the collaborator's answer when the step runs, else true. */
  function CustomerOutcome(attributes: map<Key, Value>, replies: Replies): Value
  {
    if CustomerStepRuns(attributes, replies) then replies.customerSave else Bool(true)
  }

  function ActivationOutcome(replies: Replies): Value
  {
    if Truthy(replies.pastDue) then replies.retryCharge else Bool(true)
  }

  function SubscriptionOutcome(attributes: map<Key, Value>, replies: Replies): Value
  {
    if ChangingSubscription(attributes) then replies.subscriptionSave else Bool(true)
  }

  /** `apply_customer_changes` */
  method ApplyCustomerChanges(attributes: map<Key, Value>, replies: Replies) returns (r: Value, ghost trace: seq<Call>)
    ensures CustomerStepRuns(attributes, replies) ==> r == replies.customerSave && trace == [ReadCustomerToken, SaveCustomer(attributes)]
    ensures !CustomerStepRuns(attributes, replies) ==> r == Bool(true) && trace == [ReadCustomerToken]
  {
    trace := [ReadCustomerToken];
    if NewCustomer(replies.customerToken) || ChangingCustomer(attributes) {
      trace := trace + [SaveCustomer(attributes)];
      r := replies.customerSave;
    } else {
      r := Bool(true);
    }
  }

  /** `ensure_subscription_active` */
  method EnsureSubscriptionActive(replies: Replies) returns (r: Value, ghost trace: seq<Call>)
    ensures Truthy(replies.pastDue) ==> r == replies.retryCharge && trace == [AskPastDue, RetryCharge]
    ensures !Truthy(replies.pastDue) ==> r == Bool(true) && trace == [AskPastDue]
  {
    trace := [AskPastDue];
    if Truthy(replies.pastDue) {
      trace := trace + [RetryCharge];
      r := replies.retryCharge;
    } else {
      r := Bool(true);
    }
  }

  /** `apply_subscription_changes` */
  method ApplySubscriptionChanges(attributes: map<Key, Value>, replies: Replies) returns (r: Value, ghost trace: seq<Call>)
    ensures ChangingSubscription(attributes) ==>
      && r == replies.subscriptionSave
      && trace == [ReadPaymentMethodToken, SaveSubscription(SubscriptionPayload(attributes, replies.paymentMethodToken))]
    ensures !ChangingSubscription(attributes) ==> r == Bool(true) && trace == []
  {
    if Present(Lookup(attributes, Sym("plan_id"))) {
      r, trace := SaveSubscriptionWith(attributes, replies);
    } else {
      trace := [];
      r := Bool(true);
    }
  }

  /** `save_subscription`: read the customer's payment method token, then save the subscription with it. */
  method SaveSubscriptionWith(attributes: map<Key, Value>, replies: Replies) returns (r: Value, ghost trace: seq<Call>)
    ensures r == replies.subscriptionSave
    ensures trace == [ReadPaymentMethodToken, SaveSubscription(SubscriptionPayload(attributes, replies.paymentMethodToken))]
  {
    var payload := SubscriptionPayload(attributes, replies.paymentMethodToken);
    trace := [ReadPaymentMethodToken, SaveSubscription(payload)];
    r := replies.subscriptionSave;
  }

  /** The calls one `save` makes, in order: the customer step, then the activation step, then the subscription step. */
  function SaveCalls(attributes: map<Key, Value>, replies: Replies): seq<Call>
  {
    var payload := SubscriptionPayload(attributes, replies.paymentMethodToken);
    [ReadCustomerToken] + (if CustomerStepRuns(attributes, replies) then [SaveCustomer(attributes)] else []) +
    (if !Truthy(CustomerOutcome(attributes, replies)) then [] else
      [AskPastDue] + (if Truthy(replies.pastDue) then [RetryCharge] else []) +
      (if !Truthy(ActivationOutcome(replies)) || !ChangingSubscription(attributes) then []
       else [ReadPaymentMethodToken, SaveSubscription(payload)]))
  }

  /** Ruby's `a && b && c` over the three step values. */
  function SaveResult(attributes: map<Key, Value>, replies: Replies): Value
  {
    var c, a := CustomerOutcome(attributes, replies), ActivationOutcome(replies);
    if !Truthy(c) then c else if !Truthy(a) then a else SubscriptionOutcome(attributes, replies)
  }

  /**
   * `save`: `apply_customer_changes && ensure_subscription_active &&
   * apply_subscription_changes`.
   */
  method Save(attributes: map<Key, Value>, replies: Replies) returns (r: Value, ghost trace: seq<Call>)
    ensures r == SaveResult(attributes, replies)
    ensures trace == SaveCalls(attributes, replies)
  {
    ghost var customerTrace, activationTrace, subscriptionTrace;
    r, customerTrace := ApplyCustomerChanges(attributes, replies);
    trace := customerTrace;
    if Truthy(r) {
      r, activationTrace := EnsureSubscriptionActive(replies);
      trace := trace + activationTrace;
      if Truthy(r) {
        r, subscriptionTrace := ApplySubscriptionChanges(attributes, replies);
        trace := trace + subscriptionTrace;
      }
    }
  }

  /** Which collaborator calls `save` makes: each step runs only when every earlier one was truthy. */
  lemma SaveCallsMade(attributes: map<Key, Value>, replies: Replies)
    ensures var t := SaveCalls(attributes, replies);
      && (SaveCustomer(attributes) in t <==> CustomerStepRuns(attributes, replies))
      && (AskPastDue in t <==> Truthy(CustomerOutcome(attributes, replies)))
      && (RetryCharge in t <==> Truthy(CustomerOutcome(attributes, replies)) && Truthy(replies.pastDue))
      && (ReadPaymentMethodToken in t <==> SubscriptionStepRuns(attributes, replies))
  {
  }

  /** The subscription step runs when the customer and activation steps were truthy and a plan id is present. */
  predicate SubscriptionStepRuns(attributes: map<Key, Value>, replies: Replies)
  {
    Truthy(CustomerOutcome(attributes, replies)) && Truthy(ActivationOutcome(replies)) && ChangingSubscription(attributes)
  }

  /**
   * The subscription is saved at most once and last, with exactly the plan
   * id, the price as a string and the payment method token read just before,
   * after every customer call.
   */
  lemma SaveSubscriptionLast(attributes: map<Key, Value>, replies: Replies)
    ensures var t := SaveCalls(attributes, replies);
      forall i :: 0 <= i < |t| - 1 ==> !t[i].SaveSubscription?
    ensures var t := SaveCalls(attributes, replies);
      SubscriptionStepRuns(attributes, replies) ==>
        && |t| >= 2
        && t[|t| - 2..] == [ReadPaymentMethodToken, SaveSubscription(SubscriptionPayload(attributes, replies.paymentMethodToken))]
        && (CustomerStepRuns(attributes, replies) <==> SaveCustomer(attributes) in t[..|t| - 2])
    ensures var t := SaveCalls(attributes, replies);
      !SubscriptionStepRuns(attributes, replies) ==> forall i :: 0 <= i < |t| ==> !t[i].SaveSubscription?
  {
    var t := SaveCalls(attributes, replies);
    var customer: seq<Call> := [ReadCustomerToken] + (if CustomerStepRuns(attributes, replies) then [SaveCustomer(attributes)] else []);
    var activation: seq<Call> := [AskPastDue] + (if Truthy(replies.pastDue) then [RetryCharge] else []);
    assert forall i :: 0 <= i < |customer + activation| ==> !(customer + activation)[i].SaveSubscription?;
    if SubscriptionStepRuns(attributes, replies) {
      assert t == customer + activation + [ReadPaymentMethodToken, SaveSubscription(SubscriptionPayload(attributes, replies.paymentMethodToken))];
      assert t[..|t| - 2] == customer + activation;
    } else if Truthy(CustomerOutcome(attributes, replies)) {
      assert t == customer + activation;
    } else {
      assert t == customer;
    }
  }

  /** `save` is truthy iff every step is, and a falsy result is the first falsy step's own value. */
  lemma SaveResultMeaning(attributes: map<Key, Value>, replies: Replies)
    ensures var r := SaveResult(attributes, replies);
      && (Truthy(r) <==> Truthy(CustomerOutcome(attributes, replies)) && Truthy(ActivationOutcome(replies)) &&
                         Truthy(SubscriptionOutcome(attributes, replies)))
      && (!Truthy(CustomerOutcome(attributes, replies)) ==> r == CustomerOutcome(attributes, replies))
      && (Truthy(CustomerOutcome(attributes, replies)) && !Truthy(ActivationOutcome(replies)) ==>
            r == ActivationOutcome(replies))
      && (Truthy(CustomerOutcome(attributes, replies)) && Truthy(ActivationOutcome(replies)) ==>
            r == SubscriptionOutcome(attributes, replies))
      && (!CustomerStepRuns(attributes, replies) && !Truthy(replies.pastDue) && !ChangingSubscription(attributes) ==>
            r == Bool(true))
  {
  }

  /**
   * `errors`: the customer's map merged with the subscription's (Hash#merge):
   * every key of either, and on a shared key the subscription's list.
   */
  function MergedErrors(customerErrors: ErrorMap, subscriptionErrors: ErrorMap): (m: ErrorMap)
    ensures m.Keys == customerErrors.Keys + subscriptionErrors.Keys
    ensures forall k :: k in subscriptionErrors ==> m[k] == subscriptionErrors[k]
    ensures forall k :: k in customerErrors && k !in subscriptionErrors ==> m[k] == customerErrors[k]
  {
    customerErrors + subscriptionErrors
  }

  /** With disjoint keys, merging loses no message. */
  lemma {:induction false} MergedErrorsKeepAll(customerErrors: ErrorMap, subscriptionErrors: ErrorMap)
    requires customerErrors.Keys !! subscriptionErrors.Keys
    ensures TotalMessages(MergedErrors(customerErrors, subscriptionErrors))
         == TotalMessages(customerErrors) + TotalMessages(subscriptionErrors)
    decreases |subscriptionErrors|
  {
    if |subscriptionErrors| == 0 {
      MergedWithEmpty(customerErrors, subscriptionErrors);
    } else {
      var k := AnyKey(subscriptionErrors);
      OneKeyFewer(subscriptionErrors, k);
      MergedErrorsKeepAll(customerErrors, subscriptionErrors - {k});
      MergedWithout(customerErrors, subscriptionErrors, k);
      TotalWithout(customerErrors + subscriptionErrors, k);
      TotalWithout(subscriptionErrors, k);
    }
  }

  lemma MergedWithEmpty(customerErrors: ErrorMap, subscriptionErrors: ErrorMap)
    requires |subscriptionErrors| == 0
    ensures TotalMessages(customerErrors + subscriptionErrors)
         == TotalMessages(customerErrors) + TotalMessages(subscriptionErrors)
  {
    assert customerErrors + subscriptionErrors == customerErrors;
  }

  lemma OneKeyFewer(m: ErrorMap, k: Key)
    requires k in m
    ensures |m - {k}| == |m| - 1
  {
    assert (m - {k}).Keys == m.Keys - {k};
  }

  lemma MergedWithout(customerErrors: ErrorMap, subscriptionErrors: ErrorMap, k: Key)
    requires k !in customerErrors
    ensures (customerErrors + subscriptionErrors) - {k} == customerErrors + (subscriptionErrors - {k})
  {
  }

  /**
   * Ashmont's own example: an existing customer, a subscription that is not
   * past due, and plan 41 at price 15. The customer is left alone, the
   * subscription is saved with the price as a string, and its answer is
   * the result as it is.
   */
  lemma PlanChangeExample(token: string, answer: Value)
    ensures var attributes := map[Sym("plan_id") := Num(41), Sym("price") := Num(15)];
      var replies := Replies(Text(token), Bool(true), Bool(false), Bool(true), Text("xyz"), answer);
      && SaveResult(attributes, replies) == answer
      && SaveCalls(attributes, replies) == [ReadCustomerToken, AskPastDue, ReadPaymentMethodToken,
           SaveSubscription(map[Sym("plan_id") := Num(41), Sym("price") := Text("15"), Sym("payment_method_token") := Text("xyz")])]
  {
    PlanIsNotCustomerChange();
    PlanPayloadExample(Text("xyz"));
  }

  /** A plan id and a price are not customer attributes. */
  lemma PlanIsNotCustomerChange()
    ensures !ChangingCustomer(map[Sym("plan_id") := Num(41), Sym("price") := Num(15)])
  {
    var attributes := map[Sym("plan_id") := Num(41), Sym("price") := Num(15)];
    forall n | n in CustomerAttributes ensures !Present(Lookup(attributes, Sym(n))) {
      assert Sym(n) !in attributes;
    }
  }

  /** With a nil token the customer is saved even when no attribute is given. */
  lemma NewCustomerAlwaysSaved(replies: Replies)
    requires replies.customerToken == Nil
    ensures SaveCustomer(map[]) in SaveCalls(map[], replies)
  {
  }

  /**
   * An empty-string token is neither new here (`nil?`) nor persisted for the
   * customer (`present?`): the customer step then runs exactly when customer
   * attributes are present.
   */
  lemma EmptyTokenNeitherNewNorPersisted(attributes: map<Key, Value>, replies: Replies)
    requires replies.customerToken == Text("")
    ensures !NewCustomer(replies.customerToken) && !Customers.Persisted(replies.customerToken)
    ensures CustomerStepRuns(attributes, replies) <==> ChangingCustomer(attributes)
  {
  }

  /** The Ashmont test case: plan 41 at price 15 sends the price as the string "15". */
  lemma PlanPayloadExample(paymentMethodToken: Value)
    ensures SubscriptionPayload(map[Sym("plan_id") := Num(41), Sym("price") := Num(15)], paymentMethodToken)
      == map[Sym("plan_id") := Num(41), Sym("price") := Text("15"), Sym("payment_method_token") := paymentMethodToken]
  {
    assert NatToString(1) == "1";
    assert NatToString(15) == "15";
    assert ToS(Num(15)) == "15";
  }
}
