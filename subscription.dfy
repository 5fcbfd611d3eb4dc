/**
 * Ashmont::Subscription: a subscription token, the attributes it was built
 * with, and a memoised copy of the remote subscription that `reload` and
 * `update` clear.
 *
 * As for customers, the gateway's answers are parameters and the calls the
 * code would make go to the ghost log `calls`.
 */
module Subscriptions {
  import opened Values
  import opened ErrorMessages

  datatype Transaction = Transaction(
    id: string, createdAt: int, status: Option<string>, processorResponseText: Option<string>)

  datatype RemoteSubscription = RemoteSubscription(id: string, status: Value, transactions: seq<Transaction>)

  /** The gateway's answer to a subscription create. */
  datatype CreateResponse = Created(subscription: RemoteSubscription) | NotCreated

  /** The gateway's answer to submitting a transaction for settlement. */
  datatype SettlementResponse = Settled | NotSettled(errors: seq<FieldError>)

  /** A call this class makes to the gateway. */
  datatype GatewayCall =
    | FindSubscription(token: Value)
    | CreateSubscription(attributes: map<Key, Value>)
    | UpdateSubscription(token: Value, attributes: map<Key, Value>)
    | RetrySubscriptionCharge(token: Value)
    | SubmitForSettlement(transactionId: string)

  /** What the error translator reads of a transaction. */
  function Report(t: Transaction): StatusReport
  {
    StatusReport(t.status, t.processorResponseText)
  }

  /** The position of the last transaction whose creation time is the greatest. */
  function LatestIndex(ts: seq<Transaction>): (i: nat)
    requires ts != []
    ensures i < |ts|
    ensures forall j :: 0 <= j < |ts| ==> ts[j].createdAt <= ts[i].createdAt
    ensures forall j :: i < j < |ts| ==> ts[j].createdAt < ts[i].createdAt
    decreases |ts|
  {
    if |ts| == 1 then 0
    else
      var i := LatestIndex(ts[..|ts| - 1]);
      if ts[i].createdAt <= ts[|ts| - 1].createdAt then |ts| - 1 else i
  }

  /**
   * `transactions.sort_by(&:created_at).last`: a transaction created no
   * earlier than any other, nil iff there are none. Ruby's sort is not
   * stable, so among equal times the model picks the last one in the list.
   */
  function MostRecent(ts: seq<Transaction>): (r: Option<Transaction>)
    ensures r.None? <==> ts == []
    ensures r.Some? ==> r.value in ts && forall t :: t in ts ==> t.createdAt <= r.value.createdAt
    ensures r.Some? ==> exists i :: 0 <= i < |ts| && ts[i] == r.value &&
                                    forall j :: i < j < |ts| ==> ts[j].createdAt < r.value.createdAt
  {
    if ts == [] then None else Some(ts[LatestIndex(ts)])
  }

  class Subscription {
    var token: Value
    var attributes: map<Key, Value>
    var errors: ErrorMap
    var remoteSubscription: Option<RemoteSubscription>
    ghost var calls: seq<GatewayCall>

    /** `initialize`: the token is `attributes[:token]`, the rest is kept without it. */
    constructor (attributes: map<Key, Value>)
      ensures token == Lookup(attributes, Sym("token"))
      ensures this.attributes == attributes - {Sym("token")}
      ensures errors == map[] && remoteSubscription == None && calls == []
    {
      this.attributes := attributes - {Sym("token")};
      token := Lookup(attributes, Sym("token"));
      errors := map[];
      remoteSubscription := None;
      calls := [];
    }

    /** The remote subscription a read sees now: the memo, or else what a lookup returns. */
    ghost function Resolved(found: RemoteSubscription): RemoteSubscription
      reads this
    {
      if remoteSubscription.Some? then remoteSubscription.value else found
    }

    /** A read through `remote_subscription`: the memo is filled, the gateway asked only if it was empty. */
    twostate predicate ReadThrough(found: RemoteSubscription)
      reads this
    {
      && token == old(token) && attributes == old(attributes) && errors == old(errors)
      && remoteSubscription == Some(old(Resolved(found)))
      && calls == old(calls) + (if old(remoteSubscription).None? then [FindSubscription(token)] else [])
    }

    /** `remote_subscription`: `@remote_subscription ||= find(token)`. */
    method FetchRemoteSubscription(found: RemoteSubscription) returns (rs: RemoteSubscription)
      modifies this`remoteSubscription, this`calls
      ensures rs == old(Resolved(found))
      ensures ReadThrough(found)
    {
      if remoteSubscription.None? {
        calls := calls + [FindSubscription(token)];
        remoteSubscription := Some(found);
      }
      rs := remoteSubscription.value;
    }

    /** `status`, read through the memo. */
    method Status(found: RemoteSubscription) returns (s: Value)
      modifies this`remoteSubscription, this`calls
      ensures s == old(Resolved(found)).status
      ensures ReadThrough(found)
    {
      var rs := FetchRemoteSubscription(found);
      s := rs.status;
    }

    /** `transactions`, read through the memo. */
    method Transactions(found: RemoteSubscription) returns (ts: seq<Transaction>)
      modifies this`remoteSubscription, this`calls
      ensures ts == old(Resolved(found)).transactions
      ensures ReadThrough(found)
    {
      var rs := FetchRemoteSubscription(found);
      ts := rs.transactions;
    }

    /** `most_recent_transaction`: the latest of the memoised subscription's transactions. */
    method MostRecentTransaction(found: RemoteSubscription) returns (t: Option<Transaction>)
      modifies this`remoteSubscription, this`calls
      ensures t.None? <==> old(Resolved(found)).transactions == []
      ensures t.Some? ==> t.value in old(Resolved(found)).transactions
      ensures t.Some? ==> forall u :: u in old(Resolved(found)).transactions ==> u.createdAt <= t.value.createdAt
      ensures ReadThrough(found)
    {
      var ts := Transactions(found);
      t := MostRecent(ts);
    }

    /** `reload`: forget the memo and return the same object. */
    method Reload() returns (self: Subscription)
      modifies this`remoteSubscription
      ensures self == this && remoteSubscription == None
    {
      remoteSubscription := None;
      self := this;
    }

    /** `save`: update when the token is truthy, create otherwise. */
    method Save(updateReply: Value, createReply: CreateResponse) returns (r: Value)
      modifies this`token, this`remoteSubscription, this`calls
      ensures Truthy(old(token)) ==>
        && r == updateReply && token == old(token) && remoteSubscription == None
        && calls == old(calls) + [UpdateSubscription(token, attributes)]
      ensures !Truthy(old(token)) ==>
        && calls == old(calls) + [CreateSubscription(attributes)]
        && r == Bool(createReply.Created?)
        && (createReply.Created? ==>
              token == Text(createReply.subscription.id) && remoteSubscription == Some(createReply.subscription))
        && (createReply.NotCreated? ==> token == old(token) && remoteSubscription == old(remoteSubscription))
    {
      if Truthy(token) {
        r := Update(updateReply);
      } else {
        var ok := Create(createReply);
        r := Bool(ok);
      }
    }

    /** `create`: on success adopt the new id and keep the created subscription; on failure change nothing. */
    method Create(createReply: CreateResponse) returns (ok: bool)
      modifies this`token, this`remoteSubscription, this`calls
      ensures calls == old(calls) + [CreateSubscription(attributes)]
      ensures ok <==> createReply.Created?
      ensures ok ==> token == Text(createReply.subscription.id) && remoteSubscription == Some(createReply.subscription)
      ensures !ok ==> token == old(token) && remoteSubscription == old(remoteSubscription)
    {
      calls := calls + [CreateSubscription(attributes)];
      match createReply
      case Created(subscription) =>
        token := Text(subscription.id);
        remoteSubscription := Some(subscription);
        ok := true;
      case NotCreated =>
        ok := false;
    }

    /** `update`: clear the memo, send the attributes, return the gateway's answer as it is. */
    method Update(updateReply: Value) returns (r: Value)
      modifies this`remoteSubscription, this`calls
      ensures r == updateReply && remoteSubscription == None
      ensures calls == old(calls) + [UpdateSubscription(token, attributes)]
    {
      remoteSubscription := None;
      calls := calls + [UpdateSubscription(token, attributes)];
      r := updateReply;
    }

    /**
     * `retry_charge`: retry, then settle the retried transaction. Errors are
     * replaced only when settlement fails; the memo is left as it was.
     */
    method RetryCharge(retried: Transaction, settlement: SettlementResponse) returns (ok: bool)
      modifies this`errors, this`calls
      ensures calls == old(calls) + [RetrySubscriptionCharge(token), SubmitForSettlement(retried.id)]
      ensures ok <==> settlement.Settled?
      ensures settlement.Settled? ==> errors == old(errors)
      ensures settlement.NotSettled? ==> errors == Translate(Report(retried), settlement.errors)
      ensures remoteSubscription == old(remoteSubscription)
    {
      calls := calls + [RetrySubscriptionCharge(token)];
      calls := calls + [SubmitForSettlement(retried.id)];
      match settlement
      case Settled =>
        ok := true;
      case NotSettled(remoteErrors) =>
        var e := new Errors(Report(retried), remoteErrors);
        errors := e.errors;
        ok := false;
    }
  }

  /** Two status reads in a row ask the gateway at most once and agree, whatever a second lookup would answer. */
  method StatusTwice(subscription: Subscription, found: RemoteSubscription, foundLater: RemoteSubscription)
    returns (first: Value, second: Value)
    modifies subscription
    ensures first == second
    ensures |subscription.calls| <= |old(subscription.calls)| + 1
  {
    first := subscription.Status(found);
    second := subscription.Status(foundLater);
  }

  /** After `reload`, the next status read looks the subscription up again and sees the fresh answer. */
  method StatusAfterReload(subscription: Subscription, found: RemoteSubscription) returns (status: Value)
    modifies subscription
    ensures status == found.status
    ensures subscription.calls == old(subscription.calls) + [FindSubscription(subscription.token)]
  {
    var self := subscription.Reload();
    status := self.Status(found);
  }
}
