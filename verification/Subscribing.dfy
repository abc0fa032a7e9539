/**
 A subscribe call: the handler gets a subscriber, which it assigns an id, rejects or drops, and the
 response future waits for that on the other end of a rendezvous channel.
 */
module Subscribing {
  import opened Basics
  import opened JsonRpc
  import opened ClientMessages
  import Rendezvous
  import Session

  type Verdict = Result<SubscriptionId, Error>

  function SubscriptionRejected(): Error { Error(-32091, "Subscription rejected", None) }

  /** What happens to the two ends: the handler's decision, and the transport's polls of the response. */
  datatype Event =
    | AssignId(id: SubscriptionId)
    | AssignIdAsync(id: SubscriptionId)
    | Reject(error: Error)
    | RejectAsync(error: Error)
    | DropSubscriber
    | PollResponse
    | DropResponse
    | Elsewhere(op: Session.Op)       // another call of the same client changes the session

  /** `response` is what the response future has returned. */
  datatype Process = Process(
    channel: Rendezvous.Channel<Verdict>,
    session: Session.State,
    response: Option<CoreResult>)

  function Begin(session: Session.State): Process { Process(Rendezvous.Fresh(), session, None) }

  function Use(p: Process, op: Rendezvous.Op<Verdict>): Process { p.(channel := Rendezvous.Step(p.channel, op)) }

  /** The response future: it registers an assigned id with the session before it answers. */
  function Respond(p: Process, name: string, remover: Session.Remover): Process {
    if !p.channel.data.receiver || p.response.Some? then p
    else
      var q := Use(p, Rendezvous.PollReceiver);
      match Rendezvous.Polled(p.channel.data)
      case Pending => q
      case Canceled => q.(response := Some(Err(SubscriptionRejected())))
      case Ready(verdict) =>
        match verdict
        case Err(error) => q.(response := Some(Err(error)))
        case Ok(id) =>
          q.(response := Some(Ok(SubscriptionIdValue(id))), session := Session.Add(p.session, (id, name), remover))
  }

  function Step(p: Process, e: Event, name: string, remover: Session.Remover): Process {
    match e
    case AssignId(id) => Use(p, Rendezvous.Send(Ok(id)))
    case AssignIdAsync(id) => Use(p, Rendezvous.SendAndWait(Ok(id)))
    case Reject(error) => Use(p, Rendezvous.Send(Err(error)))
    case RejectAsync(error) => Use(p, Rendezvous.SendAndWait(Err(error)))
    case DropSubscriber => Use(p, Rendezvous.DropSender)
    case PollResponse => Respond(p, name, remover)
    case DropResponse => Use(p, Rendezvous.DropReceiver)
    case Elsewhere(op) =>
      if op.Register? && op.remover.mark == remover.mark then p else p.(session := Session.Apply(p.session, op))
  }

  function Run(session: Session.State, events: seq<Event>, name: string, remover: Session.Remover): Process {
    if events == [] then Begin(session)
    else Step(Run(session, events[..|events| - 1], name, remover), events[|events| - 1], name, remover)
  }

  // ---------------------------------------------------------------- told from the events alone

  /** The response is no longer wanted. */
  predicate Hung(events: seq<Event>) {
    events != [] && (Hung(events[..|events| - 1]) || events[|events| - 1].DropResponse?)
  }

  /** The first thing the handler did with the subscriber, and whether the response was still wanted. */
  datatype Decision = Undecided | Decided(act: Event, inTime: bool)

  function DecisionOf(events: seq<Event>): Decision {
    if events == [] then Undecided
    else
      var before, last := events[..|events| - 1], events[|events| - 1];
      if DecisionOf(before).Decided? then DecisionOf(before)
      else if last.PollResponse? || last.DropResponse? || last.Elsewhere? then Undecided
      else Decided(last, !Hung(before))
  }

  /** What the handler's decision makes of the response. */
  function Verdicts(d: Decision): Option<CoreResult> {
    if d.Undecided? || !d.inTime then None
    else match d.act
      case AssignId(id) => Some(Ok(SubscriptionIdValue(id)))
      case AssignIdAsync(id) => Some(Ok(SubscriptionIdValue(id)))
      case Reject(error) => Some(Err(error))
      case RejectAsync(error) => Some(Err(error))
      case _ => Some(Err(Error(-32091, "Subscription rejected", None)))
  }

  /** The response: the decision, as soon as it is polled for. */
  function AnswerOf(events: seq<Event>): Option<CoreResult> {
    if events == [] then None
    else
      var before, last := events[..|events| - 1], events[|events| - 1];
      if AnswerOf(before).Some? then AnswerOf(before)
      else if last.PollResponse? && !Hung(before) then Verdicts(DecisionOf(before))
      else None
  }

  /** The session: an id is registered when it is answered, under the notification's name. */
  function SessionOf(
    session: Session.State, events: seq<Event>, name: string, remover: Session.Remover): Session.State
  {
    if events == [] then session
    else
      var before, last := events[..|events| - 1], events[|events| - 1];
      var s := SessionOf(session, before, name, remover);
      match last
      case Elsewhere(op) => if op.Register? && op.remover.mark == remover.mark then s else Session.Apply(s, op)
      case PollResponse =>
        if AnswerOf(before).None? && AnswerOf(events).Some? && AnswerOf(events).value.Ok? then
          Session.Apply(s, Session.Register((AssignedId(DecisionOf(before)), name), remover))
        else s
      case _ => s
  }

  function AssignedId(d: Decision): SubscriptionId {
    if d.Decided? && (d.act.AssignId? || d.act.AssignIdAsync?) then d.act.id else NumberId(0)
  }

  // ---------------------------------------------------------------- every interleaving

  function VerdictOf(d: Decision): Option<Verdict> {
    if d.Undecided? then None
    else match d.act
      case AssignId(id) => Some(Ok(id))
      case AssignIdAsync(id) => Some(Ok(id))
      case Reject(error) => Some(Err(error))
      case RejectAsync(error) => Some(Err(error))
      case _ => None
  }

  predicate Waits(d: Decision) { d.Decided? && (d.act.AssignIdAsync? || d.act.RejectAsync?) }

  /** The channel between the two ends, after a decision and perhaps a response. */
  predicate Consistent(c: Rendezvous.Channel<Verdict>, d: Decision, hung: bool, response: Option<CoreResult>) {
    && Rendezvous.Ordered(c) && c.data.receiver == !hung
    && (c.side.Holding? <==> d.Undecided?)
    && (c.side.Waiting? <==> Waits(d) && d.inTime)
    && (!hung && d.Decided? ==> d.inTime)
    && (!hung && response.None? ==> c.data.slot == VerdictOf(d) && c.consumed.None?)
    && (response.Some? ==> response == Verdicts(d))
    && (c.consumed.Some? <==> response.Some? && VerdictOf(d).Some?)
  }

  ghost predicate Tallies(
    p: Process, session: Session.State, events: seq<Event>, name: string, remover: Session.Remover)
  {
    && Consistent(p.channel, DecisionOf(events), Hung(events), p.response)
    && p.response == AnswerOf(events) && p.session == SessionOf(session, events, name, remover)
  }

  lemma ConsistentUse(p: Process, e: Event, op: Rendezvous.Op<Verdict>, d: Decision, hung: bool)
    requires Consistent(p.channel, d, hung, p.response)
    requires match e
      case AssignId(id) => op == Rendezvous.Send(Ok(id))
      case AssignIdAsync(id) => op == Rendezvous.SendAndWait(Ok(id))
      case Reject(error) => op == Rendezvous.Send(Err(error))
      case RejectAsync(error) => op == Rendezvous.SendAndWait(Err(error))
      case DropSubscriber => op == Rendezvous.DropSender
      case _ => false
    ensures Consistent(Use(p, op).channel, if d.Decided? then d else Decided(e, !hung), hung, p.response)
  {
    Rendezvous.OrderedStep(p.channel, op);
  }

  lemma ConsistentRespond(p: Process, d: Decision, hung: bool, name: string, remover: Session.Remover)
    requires Consistent(p.channel, d, hung, p.response)
    ensures var q := Respond(p, name, remover);
      && Consistent(q.channel, d, hung, q.response)
      && q.response == (if p.response.Some? || hung then p.response else Verdicts(d))
      && q.session == (if p.response.None? && q.response.Some? && q.response.value.Ok?
                       then Session.Add(p.session, (AssignedId(d), name), remover) else p.session)
  {
    Rendezvous.OrderedStep(p.channel, Rendezvous.PollReceiver);
  }

  lemma {:induction false} RunsTally(
    session: Session.State, events: seq<Event>, name: string, remover: Session.Remover)
    ensures Tallies(Run(session, events, name, remover), session, events, name, remover)
  {
    if events != [] {
      var before, last := events[..|events| - 1], events[|events| - 1];
      RunsTally(session, before, name, remover);
      var p, d := Run(session, before, name, remover), DecisionOf(before);
      match last
      case AssignId(id) => ConsistentUse(p, last, Rendezvous.Send(Ok(id)), d, Hung(before));
      case AssignIdAsync(id) => ConsistentUse(p, last, Rendezvous.SendAndWait(Ok(id)), d, Hung(before));
      case Reject(error) => ConsistentUse(p, last, Rendezvous.Send(Err(error)), d, Hung(before));
      case RejectAsync(error) => ConsistentUse(p, last, Rendezvous.SendAndWait(Err(error)), d, Hung(before));
      case DropSubscriber => ConsistentUse(p, last, Rendezvous.DropSender, d, Hung(before));
      case PollResponse => ConsistentRespond(p, d, Hung(before), name, remover);
      case DropResponse => Rendezvous.OrderedStep(p.channel, Rendezvous.DropReceiver);
      case Elsewhere(_) =>
    }
  }

  /** How often this call's closure was registered with the session. */
  function Registered(s: Session.State, remover: Session.Remover): nat {
    Session.Registrations(s.log, remover.mark)
  }

  lemma {:induction false} RegisteredIffOk(
    session: Session.State, events: seq<Event>, name: string, remover: Session.Remover)
    ensures Registered(SessionOf(session, events, name, remover), remover)
         == Registered(session, remover) + if AnswerOf(events).Some? && AnswerOf(events).value.Ok? then 1 else 0
  {
    if events != [] {
      var before, last := events[..|events| - 1], events[|events| - 1];
      var s := SessionOf(session, before, name, remover);
      RegisteredIffOk(session, before, name, remover);
      match last
      case Elsewhere(op) => Session.LogTells(s, op, remover.mark);
      case PollResponse =>
        Session.LogTells(s, Session.Register((AssignedId(DecisionOf(before)), name), remover), remover.mark);
      case _ =>
    }
  }

  /**
   Under every interleaving the subscribe response is what the handler's first act on the subscriber
   says, as soon as it is polled for: the id it assigned, its error, or "Subscription rejected" for a
   subscriber it dropped; and the session has registered that id under the notification's name, once,
   exactly when the response is Ok.
   */
  lemma ResponseTellsDecision(session: Session.State, events: seq<Event>, name: string, remover: Session.Remover)
    ensures var p := Run(session, events, name, remover);
      && p.response == AnswerOf(events) && p.session == SessionOf(session, events, name, remover)
      && Registered(p.session, remover)
         == Registered(session, remover) + if p.response.Some? && p.response.value.Ok? then 1 else 0
  {
    RunsTally(session, events, name, remover);
    RegisteredIffOk(session, events, name, remover);
  }

  /** A handler that assigned an id in time and waits is told Ok exactly when the session has registered it. */
  lemma SinkMeansRegistered(
    session: Session.State, events: seq<Event>, name: string, remover: Session.Remover, id: SubscriptionId)
    requires DecisionOf(events) == Decided(AssignIdAsync(id), true)
    ensures var p := Run(session, events, name, remover);
      && (Rendezvous.Wait(p.channel).Ready? <==> p.response == Some(Ok(SubscriptionIdValue(id))))
      && (Rendezvous.Wait(p.channel).Ready? <==> Registered(p.session, remover) == Registered(session, remover) + 1)
  {
    RunsTally(session, events, name, remover);
    RegisteredIffOk(session, events, name, remover);
  }
}
