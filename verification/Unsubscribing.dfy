/** The client's and the server's side of ending a subscription. */
module Unsubscribing {
  import opened Basics
  import opened JsonRpc
  import opened ClientMessages
  import Duplex
  import DuplexProofs
  import Session

  lemma {:induction false} RemovalIsBuilt(log: Duplex.Log, key: Session.Key, sub: Duplex.Subscription, request: Call)
    requires DuplexProofs.AllBuilt(log) && DuplexProofs.InLog(log, Duplex.Removed(key, sub, request))
    ensures request.MethodCall? && request.name == sub.unsubscribe && sub.notification == key.1
    ensures request.params.Positional? && |request.params.args| == 1
    ensures ParseSubscriptionId(request.params.args[0]) == Some(key.0)
  {
    if log.action != Duplex.Removed(key, sub, request) { RemovalIsBuilt(log.before, key, sub, request); }
  }

  /**
   In every run of the client, the request that a removed subscription sends calls its unsubscribe
   method with params that, given to the server's method for the notification, end exactly the
   subscription of that id and notification, whatever else is active.
   */
  lemma RemovedSubscriptionIsEnded(
    events: seq<Duplex.Event>, key: Session.Key, sub: Duplex.Subscription, request: Call,
    s: Session.State, handler: nat)
    requires DuplexProofs.InLog(Duplex.Run(Duplex.START, events).log, Duplex.Removed(key, sub, request))
    ensures request.MethodCall? && request.name == sub.unsubscribe
    ensures Session.EndsOrRefuses(
      s, key, handler, Session.UnsubscribeCall(s, sub.notification, handler, request.params))
  {
    DuplexProofs.Reachable(events, 0);
    RemovalIsBuilt(Duplex.Run(Duplex.START, events).log, key, sub, request);
    var v := request.params.args[0];
    SubscriptionIdReadIff(v, key.0);
    assert request.params == Positional([v]);
    Session.UnsubscribeCallEnds(s, sub.notification, handler, request.params);
  }
}
