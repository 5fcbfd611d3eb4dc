# Ashmont, modelled in Dafny

Ashmont is a small Ruby gem that puts four classes between an application and
the Braintree payment gateway:

- `Ashmont::Errors` turns a gateway result into a map from field to messages.
  It reads the result's coarse status and its list of field errors.
- `Ashmont::Customer` is a gateway customer identified by a token. It keeps a
  memoised copy of the remote customer and has readers over its first credit
  card. Its `save` builds a create or update payload and adopts the gateway's
  answer.
- `Ashmont::Subscription` is a subscription token plus a memoised remote
  subscription. It offers `save` (create or update), `reload`, `retry_charge`
  and `most_recent_transaction`.
- `Ashmont::SubscribedCustomer` owns one customer and one subscription. Its
  `save` runs three steps and stops at the first falsy one: save the customer,
  make the subscription active again, change the plan. Its `errors` merges
  the two error maps.

The model has five modules, one file each:

- `Values` (`values.dfy`) holds Ruby's values as these classes see them:
  - hash keys that are symbols or strings (`Sym`/`Str`, so `:number` and
    `"number"` stay different keys);
  - scalar attribute values and nested payload hashes;
  - truthiness, `present?` and `to_s`.
- `ErrorMessages` (`errors.dfy`): `Errors` is a class whose map is grown in
  place by `AddError`. `Translate` is the specification of what the
  constructor leaves behind, with lemmas about which keys and messages it
  holds.
- `Customers` (`customer.dfy`): the payload functions and the `Customer`
  class.
- `Subscriptions` (`subscription.dfy`): the `Subscription` class and the
  latest-transaction function.
- `SubscribedCustomers` (`subscribed_customer.dfy`): the three-step `save`
  and the `errors` merge.

Gateway calls are not made. What the gateway would answer is a method
parameter: `found` for a lookup, `response`, `createReply` or `updateReply`
for a write, `retried` for the transaction a charge retry returns,
`settlement` for a settlement. Each call the Ruby code would make is appended
to a ghost log `calls`. So "looked up at most once" and "no lookup without a
token" are statements about that log.

`SubscribedCustomer` talks to its customer and subscription only through
methods. The model does not tie it to the two classes above: it calls
`@subscription.save(hash)` and `past_due?`. `Subscription#save` takes no
arguments, so `save(hash)` would raise ArgumentError, and `past_due?` is not
defined.
Instead, the collaborators' answers during one `save` are a `Replies` record,
and each interaction goes into a ghost trace.

## Model

| member | source | states |
|---|---|---|
| `Values.Present` | lib/ashmont/subscribed_customer.rb:49 | `present?`: nil, false and blank (empty or whitespace-only) strings are absent; true, numbers and other strings are present |
| `Values.ToS` | lib/ashmont/subscribed_customer.rb:75 | `to_s` of a scalar: nil gives "", booleans "true"/"false", an integer its decimal digits with a leading "-" when negative (the digits proved to be digits), a string itself |
| `ErrorMessages.MessagePrefix` | lib/ashmont/errors.rb:3-8 | the prefix table, looked up case-sensitively: "number", "CVV", "expiration_month" and "expiration_year" have a message prefix and every other attribute has none; what it implies for the map is proved in `TranslateFieldEntries`, `DowncaseRecognised` and `LowerCaseCvvExample` |
| `ErrorMessages.Downcase` | lib/ashmont/errors.rb:35 | `downcase` keeps the length and lower-cases each ASCII letter in place |
| `ErrorMessages.IndexOf` | lib/ashmont/errors.rb:34 | the index found is an occurrence of the prefix and no earlier index is one; none found means no occurrence anywhere |
| `ErrorMessages.Sub` | lib/ashmont/errors.rb:34 | `sub(prefix, "")` removes the first occurrence: putting the prefix back at that index gives the original message; no occurrence leaves it unchanged |
| `ErrorMessages.SubLeadingPrefix` | lib/ashmont/errors.rb:34 | a message that starts with the prefix loses exactly that prefix |
| `ErrorMessages.DowncaseRecognised` | lib/ashmont/errors.rb:3-8 | a recognised attribute, once lower-cased, is one of number, cvv, expiration_month, expiration_year |
| `ErrorMessages.WithFieldErrorsAt` | lib/ashmont/errors.rb:31-38 | parsing field errors never adds or changes a symbol key. Each string key gains exactly the recognised messages for that lower-cased attribute, appended in input order. A new string key is one of the four recognised fields |
| `ErrorMessages.TranslateStatusEntries` | lib/ashmont/errors.rb:22-29 | symbol keys come only from the status. "processor_declined" gives exactly one :number message, the fixed text followed by the response text. "gateway_rejected" gives exactly ["did not match"] under :cvv. Any other status gives no symbol key |
| `ErrorMessages.TranslateFieldEntries` | lib/ashmont/errors.rb:31-38 | every string key holds exactly that field's recognised messages, prefix removed, in input order. A string key exists iff it has such a message. Only the four recognised fields appear |
| `ErrorMessages.TotalAppended` | lib/ashmont/errors.rb:40-43 | `add_error` only appends: the total number of messages grows by exactly one |
| `ErrorMessages.TranslateTotal` | lib/ashmont/errors.rb:10-14 | total messages = 1 if the status is one of the two literals, else 0, plus the number of recognised field errors |
| `ErrorMessages.DeclinedExample` | lib/ashmont/errors.rb:24-25 | a declined result with response text "X" gives exactly {:number => ["was denied by the payment processor with the message: X"]} |
| `ErrorMessages.RejectedExample` | lib/ashmont/errors.rb:26-27 | a rejected result gives exactly {:cvv => ["did not match"]} |
| `ErrorMessages.CvvExample` | lib/ashmont/errors.rb:33-35 | a "CVV" error "CVV is unsupported" is stored as ["is unsupported"] under the string key "cvv" |
| `ErrorMessages.LowerCaseCvvExample` | lib/ashmont/errors.rb:33 | the prefix lookup is case-sensitive: a lower-case "cvv" attribute is dropped |
| `ErrorMessages.Errors.constructor` | lib/ashmont/errors.rb:10-14 | the map after construction is `Translate(result, remote_errors)` |
| `ErrorMessages.Errors.ToHash` | lib/ashmont/errors.rb:16-18 | returns the current map and changes nothing |
| `ErrorMessages.Errors.ParseResult` | lib/ashmont/errors.rb:22-29 | the map becomes `WithStatus` of the old map |
| `ErrorMessages.Errors.ParseRemoteErrors` | lib/ashmont/errors.rb:31-38 | the loop leaves the map equal to the left fold of `WithFieldError` over the list (loop invariant) |
| `ErrorMessages.Errors.AddError` | lib/ashmont/errors.rb:40-43 | the key's list, empty if the key was missing, gains the message at its end; no other key changes |
| `Customers.Persisted` | lib/ashmont/customer.rb:138-140 | `persisted?`: the token is present, so nil and blank strings are not persisted |
| `Customers.SymbolizeKeys` | lib/ashmont/customer.rb:93 | every key becomes a symbol. A name is present iff it was present under either spelling. Its value is the symbol entry's, else the string entry's |
| `Customers.Copied` | lib/ashmont/customer.rb:104-109 | the fold over a list of names has exactly those names as symbol keys, each mapped to the attribute's value or nil |
| `Customers.AttributeHash` | lib/ashmont/customer.rb:101-117 | the payload `build_attribute_hash` returns for symbol-keyed attributes and a payment method token; its shape is proved in `AttributeHashShape`, `AttributeHashCard` and `NoBillingPayload` |
| `Customers.CardPayloadShape` | lib/ashmont/customer.rb:103-112 | the card entry has exactly the five card keys, :billing_address and, when there is a payment method token, :options. Card values are copied. The billing address has exactly the six address keys with copied values. :options is {update_existing_token: token} |
| `Customers.AttributeHashShape` | lib/ashmont/customer.rb:101-117 | the payload has exactly :email and :credit_card. :email is copied. Without a present billing attribute, :credit_card is the empty map |
| `Customers.AttributeHashCard` | lib/ashmont/customer.rb:103-112 | with a present billing attribute, :credit_card is a card entry as `CardPayloadShape` describes |
| `Customers.NoBillingPayload` | lib/ashmont/customer.rb:113-115 | without a present billing attribute the payload is {email: ..., credit_card: {}}, whatever the token |
| `Customers.EmailIsNotBilling` | lib/ashmont/customer.rb:103 | an email alone, keyed `:email` or `"email"`, makes no billing attribute present |
| `Customers.EmailOnlyPayload` | lib/ashmont/customer.rb:101-117 | saving only an email, keyed `:email` or `"email"`, sends exactly {email: e, credit_card: {}} |
| `Customers.Customer.constructor` | lib/ashmont/customer.rb:9-12 | starts with the given token, empty errors, no memo and no calls |
| `Customers.Customer.FetchRemoteCustomer` | lib/ashmont/customer.rb:142-144 | returns the memo if set. Otherwise it logs one lookup and memoises its answer |
| `Customers.Customer.CreditCards` | lib/ashmont/customer.rb:18-24 | the remote card list when the token is present, else [] with no lookup; token and errors unchanged |
| `Customers.Customer.CreditCard` | lib/ashmont/customer.rb:14-16 | the first card, nil iff the list is empty; at most one lookup |
| `Customers.Customer.HasBillingInfo` | lib/ashmont/customer.rb:26-28 | true iff the card list is non-empty |
| `Customers.Customer.PaymentMethodToken` | lib/ashmont/customer.rb:30-32 | the first card's token, nil without a card |
| `Customers.Customer.BillingEmail` | lib/ashmont/customer.rb:34-36 | the remote email when the token is present; otherwise nil and no lookup |
| `Customers.Customer.CardDetail` | lib/ashmont/customer.rb:46-84 | each of the ten card and address readers is that field of the first card, nil without one |
| `Customers.Customer.BuildAttributeHash` | lib/ashmont/customer.rb:101-117 | returns the payload for the payment method token the customer had. The token is read, and may cause a lookup, only when a billing attribute is present |
| `Customers.Customer.CreateOrUpdate` | lib/ashmont/customer.rb:92-99 | the symbolised payload goes to an update of the token when persisted and to a create otherwise, after at most one lookup |
| `Customers.Customer.Create` | lib/ashmont/customer.rb:119-121 | logs one create with the payload |
| `Customers.Customer.Update` | lib/ashmont/customer.rb:123-125 | logs one update of this token with the payload |
| `Customers.Customer.HandleResult` | lib/ashmont/customer.rb:127-136 | success returns true and adopts the new id and the returned customer; errors are kept. Failure returns false, keeps token and memo, and rebuilds errors from the verification and field errors |
| `Customers.Customer.Save` | lib/ashmont/customer.rb:38-40 | the calls made (lookup, then update or create with the exact payload), the result, and the new token, memo and errors |
| `Customers.CreditCardTwice` | lib/ashmont/customer.rb:142-144 | two card reads in a row agree and add at most one lookup |
| `Subscriptions.LatestIndex` | lib/ashmont/subscription.rb:36-38 | an index whose creation time is no earlier than any other's, with every later index strictly earlier |
| `Subscriptions.MostRecent` | lib/ashmont/subscription.rb:36-38 | nil iff there are no transactions. Otherwise a member created no earlier than any other, and the last such member in the list |
| `Subscriptions.Subscription.constructor` | lib/ashmont/subscription.rb:9-13 | token is `attributes[:token]`; the other attributes are kept without :token; errors empty, no memo |
| `Subscriptions.Subscription.FetchRemoteSubscription` | lib/ashmont/subscription.rb:67-69 | returns the memo if set. Otherwise it logs one lookup and memoises its answer |
| `Subscriptions.Subscription.Status` | lib/ashmont/subscription.rb:15 | the status of the memoised subscription, read through the memo |
| `Subscriptions.Subscription.Transactions` | lib/ashmont/subscription.rb:15 | the transactions of the memoised subscription, read through the memo |
| `Subscriptions.Subscription.MostRecentTransaction` | lib/ashmont/subscription.rb:36-38 | nil iff there are no transactions; otherwise a member created no earlier than any other |
| `Subscriptions.Subscription.Reload` | lib/ashmont/subscription.rb:44-47 | clears the memo and returns the same object |
| `Subscriptions.Subscription.Save` | lib/ashmont/subscription.rb:17-23 | with a truthy token: logs an update, clears the memo, returns the gateway's answer unchanged. Otherwise: logs a create and returns whether it succeeded. On success the new id and subscription are adopted; on failure token and memo are kept |
| `Subscriptions.Subscription.Create` | lib/ashmont/subscription.rb:51-60 | true iff created. Success adopts the id and the subscription; failure changes neither |
| `Subscriptions.Subscription.Update` | lib/ashmont/subscription.rb:62-65 | clears the memo, logs the update, returns the answer unchanged |
| `Subscriptions.Subscription.RetryCharge` | lib/ashmont/subscription.rb:25-34 | logs the retry, then the settlement of the retried transaction's id. True iff settled. Errors change only on failure, to those translated from the transaction and the settlement errors. The memo is unchanged |
| `Subscriptions.StatusTwice` | lib/ashmont/subscription.rb:67-69 | two status reads in a row agree and add at most one lookup |
| `Subscriptions.StatusAfterReload` | lib/ashmont/subscription.rb:44-47 | after `reload` the next status read looks the subscription up again and returns the fresh status |
| `SubscribedCustomers.NewCustomer` | lib/ashmont/subscribed_customer.rb:44-46 | `new_customer?`: the token is nil; an empty string is not new (`EmptyTokenNeitherNewNorPersisted`) |
| `SubscribedCustomers.ChangingCustomer` | lib/ashmont/subscribed_customer.rb:48-50 | `changing_customer?`: some of the twelve customer attributes has a present value under its symbol key |
| `SubscribedCustomers.ChangingSubscription` | lib/ashmont/subscribed_customer.rb:68-70 | `changing_subscription?`: the value under :plan_id is present |
| `SubscribedCustomers.SubscriptionPayload` | lib/ashmont/subscribed_customer.rb:73-77 | the hash `save_subscription` sends: :plan_id as given, :price converted with `to_s`, and the payment method token (`PlanPayloadExample`) |
| `SubscribedCustomers.ApplyCustomerChanges` | lib/ashmont/subscribed_customer.rb:36-42 | the customer is saved iff the token is nil or a customer attribute is present; otherwise true with no save |
| `SubscribedCustomers.EnsureSubscriptionActive` | lib/ashmont/subscribed_customer.rb:52-58 | retry_charge is called iff past_due? is truthy, and its answer is the step value; otherwise true |
| `SubscribedCustomers.ApplySubscriptionChanges` | lib/ashmont/subscribed_customer.rb:60-66 | the subscription is saved iff plan_id is present; otherwise true with no call |
| `SubscribedCustomers.SaveSubscriptionWith` | lib/ashmont/subscribed_customer.rb:72-78 | reads the payment method token, then saves the subscription with plan_id, price.to_s and that token |
| `SubscribedCustomers.Save` | lib/ashmont/subscribed_customer.rb:26-28 | result and call trace are those of `a && b && c` over the three steps (`SaveResult`, `SaveCalls`) |
| `SubscribedCustomers.SaveCallsMade` | lib/ashmont/subscribed_customer.rb:26-70 | customer saved iff new or changing. past_due? asked iff the customer step was truthy. retry_charge iff that and past due. Token read and subscription saved iff both earlier steps were truthy and plan_id is present |
| `SubscribedCustomers.SaveSubscriptionLast` | lib/ashmont/subscribed_customer.rb:72-78 | the subscription save happens at most once and is the last call. Its payload is exactly plan_id, price as a string and the token read just before. It comes after any customer save |
| `SubscribedCustomers.SaveResultMeaning` | lib/ashmont/subscribed_customer.rb:26-28 | the result is truthy iff every step is. A falsy customer step is the result; after a truthy one, a falsy activation step is; after two truthy ones the result is the subscription step's value. No value is coerced. With nothing to do the result is true |
| `SubscribedCustomers.MergedErrors` | lib/ashmont/subscribed_customer.rb:30-32 | keys are the union of both maps. On a shared key the subscription's list replaces the customer's; otherwise each list is kept |
| `SubscribedCustomers.MergedErrorsKeepAll` | lib/ashmont/subscribed_customer.rb:30-32 | with disjoint keys, the merged total of messages is the sum of the two totals |
| `SubscribedCustomers.NewCustomerAlwaysSaved` | lib/ashmont/subscribed_customer.rb:44-46 | with a nil token the customer is saved even for empty attributes |
| `SubscribedCustomers.EmptyTokenNeitherNewNorPersisted` | lib/ashmont/subscribed_customer.rb:44-46 | an empty-string token is not new here (`nil?`) and not persisted in `Customer` (`present?`), so the customer step runs exactly when a customer attribute is present |
| `SubscribedCustomers.PlanChangeExample` | lib/ashmont/subscribed_customer.rb:26-78 | existing customer, not past due, plan 41 at price 15: the calls are token read, past_due?, payment-token read, subscription save with price "15"; the result is the subscription's answer as it is |
| `SubscribedCustomers.PlanIsNotCustomerChange` | lib/ashmont/subscribed_customer.rb:48-50 | a plan id and a price are not customer attributes, so they do not make the customer "changing" |
| `SubscribedCustomers.PlanPayloadExample` | lib/ashmont/subscribed_customer.rb:72-78 | plan 41 at price 15 sends {plan_id: 41, price: "15", payment_method_token: t} |

## Notes on behaviour

The model follows the code in these places:

- `errors` of a subscribed customer is `Hash#merge`. On a key that both maps
  have, the subscription's list replaces the customer's; the lists are not
  concatenated.
- `Customer#handle_result` does not clear `errors` on success. An old error
  map survives a later successful save.
- `Subscription#retry_charge` does not clear or refresh the memoised remote
  subscription. There is no cached status beyond that memo.
- `Subscription.new` takes an attribute hash whose `:token` entry is the
  token. spec/ashmont/subscription_spec.rb builds it from a bare token and
  calls `save` with arguments; neither matches lib/ashmont/subscription.rb.
- `SubscribedCustomer#changing_customer?` reads symbol keys only. The
  customer's own `save` symbolises its attributes first. So a string-keyed
  `"email"` does not make an existing customer "changing", although `save`
  would send it.
- `new_customer?` is `token.nil?`, while `Customer#persisted?` is
  `token.present?`. An empty-string token is neither new nor persisted.

## Left out

- Braintree itself (find, create, update, delete, retry, settlement, transparent redirect) is foreign code. Its answers are parameters and its calls are ghost log entries.
- `Customer#delete` and `Customer#confirm`: one-line forwards to the gateway. `confirm` ends in `handle_result`, which is modelled.
- `Subscription#next_billing_date` and the merchant account time zone: time-zone parsing over a process-wide setting.
- `SubscribedCustomer#subscription_token` and the forwarded readers (`reload`, `status`, `transactions`, `most_recent_transaction`, `retry_charge`, `past_due?`). They return the collaborator's answer unchanged, and the collaborator is abstract here. The same goes for the `DelegateClass`/`Forwardable` machinery.
- `SubscribedCustomers.Save`: the customer and subscription are abstract, so their state after a save is not modelled. Only their answers and the calls made are.
- `Customers.SymbolizeKeys`: when a hash holds both `:name` and `"name"`, Ruby keeps whichever comes later in insertion order. The model has no insertion order and keeps the symbol entry.
- `Subscriptions.MostRecent`: Ruby's `sort_by` is not stable, so among transactions with equal creation times any one may come last. The model picks the last in list order.
- `Values.Present`: only ASCII whitespace (space, tab, newline, vertical tab, form feed, carriage return) counts as blank. Unicode whitespace is not modelled.
- `ErrorMessages.Downcase`: only ASCII letters are lower-cased.
- `Values.ToS`: covers nil, booleans, integers and strings. Floats and other objects are not modelled.
- `Subscriptions.Subscription.RetryCharge`: a retry result with no transaction makes `retry_charge` raise NoMethodError on `.id`. The model always receives a transaction, so that crash is not modelled.
- `ErrorMessages.Errors.ParseResult`: a result object that has no `status` method makes `parse_result` raise NoMethodError. The model's result record always has a status, possibly nil, so that crash is not modelled.
- A gateway result with a nil verification object, or a card without a billing address, is not modelled: those records are always present here.
- Concurrency and object identity beyond `reload` returning `self` are not modelled.
