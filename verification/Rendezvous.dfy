/**
 A oneshot channel whose sender can wait for the value to be consumed, built of two plain oneshot
 channels: one for the value and one for the receipt.
 */
module Rendezvous {
  import opened Basics

  /** A plain oneshot channel: the value in transit, and which ends still exist. */
  datatype Oneshot<T> = Oneshot(slot: Option<T>, sender: bool, receiver: bool)

  datatype Poll<+T> = Pending | Ready(value: T) | Canceled

  /** Sending uses the sender up; without a receiver it fails. */
  function Sent<T>(o: Oneshot<T>, value: T): Oneshot<T> {
    o.(slot := if o.receiver then Some(value) else o.slot, sender := false)
  }

  function Polled<T>(o: Oneshot<T>): Poll<T> {
    match o.slot
    case Some(value) => Ready(value)
    case None => if o.sender then Pending else Canceled
  }

  /** The sending side: still a `Sender`, a future that waits, one that has failed at once, or neither. */
  datatype Side = Holding | Waiting | Refused | Gone

  /** `consumed` remembers the value that a poll of the receiver returned. */
  datatype Channel<T> =
    Channel(data: Oneshot<T>, receipt: Oneshot<()>, side: Side, holdsReceipt: bool, consumed: Option<T>)

  function Fresh<T>(): Channel<T> {
    Channel(Oneshot(None, true, true), Oneshot(None, true, true), Holding, true, None)
  }

  datatype Op<T> =
    | Send(value: T)
    | SendAndWait(value: T)
    | DropSender
    | PollReceiver
    | DropReceiver

  function Receive<T>(c: Channel<T>): Channel<T> {
    match Polled(c.data)
    case Ready(value) =>
      c.(data := c.data.(slot := None), consumed := Some(value), holdsReceipt := false,
         receipt := if c.holdsReceipt then Sent(c.receipt, ()) else c.receipt)
    case _ => c
  }

  /** An end that is no longer there is not used again. */
  function Step<T>(c: Channel<T>, op: Op<T>): Channel<T> {
    match op
    case Send(value) =>
      if !c.side.Holding? then c
      else c.(data := Sent(c.data, value), receipt := c.receipt.(receiver := false), side := Gone)
    case SendAndWait(value) =>
      if !c.side.Holding? then c
      else if !c.data.receiver then
        c.(data := Sent(c.data, value), receipt := c.receipt.(receiver := false), side := Refused)
      else c.(data := Sent(c.data, value), side := Waiting)
    case DropSender =>
      if !c.side.Holding? then c
      else c.(data := c.data.(sender := false), receipt := c.receipt.(receiver := false), side := Gone)
    case PollReceiver => if c.data.receiver then Receive(c) else c
    case DropReceiver =>
      c.(data := Oneshot(None, c.data.sender, false), holdsReceipt := false,
         receipt := if c.holdsReceipt then c.receipt.(sender := false) else c.receipt)
  }

  function Run<T>(ops: seq<Op<T>>): Channel<T> {
    if ops == [] then Fresh() else Step(Run(ops[..|ops| - 1]), ops[|ops| - 1])
  }

  /** What polling the future of `send_and_wait` returns. */
  function Wait<T>(c: Channel<T>): Poll<()> {
    if c.side.Refused? then Canceled else Polled(c.receipt)
  }

  class Endpoints<T> {
    var data: Oneshot<T>
    var receipt: Oneshot<()>
    var side: Side
    var holdsReceipt: bool
    ghost var consumed: Option<T>

    ghost function Now(): Channel<T>
      reads this
    {
      Channel(data, receipt, side, holdsReceipt, consumed)
    }

    constructor ()
      ensures Now() == Fresh()
    {
      data, receipt := Oneshot(None, true, true), Oneshot(None, true, true);
      side, holdsReceipt, consumed := Holding, true, None;
    }

    method SendValue(value: T) returns (ok: bool)
      requires side.Holding?
      modifies this
      ensures Now() == Step(old(Now()), Send(value))
      ensures ok == old(data.receiver)
    {
      ok := data.receiver;
      if ok {
        data := data.(slot := Some(value));
      }
      data := data.(sender := false);
      receipt := receipt.(receiver := false);
      side := Gone;
    }

    method SendThenWait(value: T)
      requires side.Holding?
      modifies this
      ensures Now() == Step(old(Now()), SendAndWait(value))
    {
      data := Sent(data, value);
      if !data.receiver {
        receipt := receipt.(receiver := false);
        side := Refused;
      } else {
        side := Waiting;
      }
    }

    method PollReceiving() returns (r: Poll<T>)
      requires data.receiver
      modifies this
      ensures r == Polled(old(data))
      ensures Now() == Step(old(Now()), PollReceiver)
    {
      r := Polled(data);
      if r.Ready? {
        data := data.(slot := None);
        if holdsReceipt {
          holdsReceipt := false;
          receipt := Sent(receipt, ());
        }
        consumed := Some(r.value);
      }
    }

    method DropReceiving()
      modifies this
      ensures Now() == Step(old(Now()), DropReceiver)
    {
      data := Oneshot(None, data.sender, false);
      if holdsReceipt {
        holdsReceipt := false;
        receipt := receipt.(sender := false);
      }
    }
  }

  // ---------------------------------------------------------------- every interleaving

  predicate Ordered<T>(c: Channel<T>) {
    && (c.side.Holding? ==> c.data.slot.None? && c.data.sender && c.consumed.None?)
    && (!c.side.Holding? ==> !c.data.sender)
    && (c.side.Waiting? ==> c.receipt.receiver && (c.data.slot.Some? || c.consumed.Some? || !c.data.receiver))
    && (c.side.Refused? ==> !c.data.receiver && c.consumed.None? && c.data.slot.None?)
    && (c.holdsReceipt <==> c.data.receiver && c.consumed.None?)
    && (c.holdsReceipt <==> c.receipt.sender)
    && (c.data.slot.Some? ==> c.data.receiver && c.consumed.None?)
    && (c.side.Waiting? ==> (c.receipt.slot.Some? <==> c.consumed.Some?))
    && (c.side.Holding? ==> c.receipt.slot.None? && c.receipt.receiver)
  }

  lemma OrderedStep<T>(c: Channel<T>, op: Op<T>)
    requires Ordered(c)
    ensures Ordered(Step(c, op))
  {
  }

  lemma {:induction false} RunsAreOrdered<T>(ops: seq<Op<T>>)
    ensures Ordered(Run(ops))
  {
    if ops != [] {
      RunsAreOrdered(ops[..|ops| - 1]);
      OrderedStep(Run(ops[..|ops| - 1]), ops[|ops| - 1]);
    }
  }

  // ---------------------------------------------------------------- told from the operations alone

  /** The receiver has been dropped. */
  predicate Hung<T>(ops: seq<Op<T>>) {
    ops != [] && (Hung(ops[..|ops| - 1]) || ops[|ops| - 1].DropReceiver?)
  }

  /** What became of the sender: used for a value, with or without waiting and in time or not, or dropped. */
  datatype Fate<T> = Unspent | Spent(value: T, waits: bool, inTime: bool) | Thrown

  function SenderFate<T>(ops: seq<Op<T>>): Fate<T> {
    if ops == [] then Unspent
    else
      var before, last := ops[..|ops| - 1], ops[|ops| - 1];
      if !SenderFate(before).Unspent? then SenderFate(before)
      else match last
        case Send(value) => Spent(value, false, !Hung(before))
        case SendAndWait(value) => Spent(value, true, !Hung(before))
        case DropSender => Thrown
        case _ => Unspent
  }

  /** What a poll of the receiver returned: the value sent, if it was polled after that and before it was dropped. */
  function Collected<T>(ops: seq<Op<T>>): Option<T> {
    if ops == [] then None
    else
      var before, last := ops[..|ops| - 1], ops[|ops| - 1];
      if Collected(before).Some? then Collected(before)
      else if last.PollReceiver? && !Hung(before) && SenderFate(before).Spent? then Some(SenderFate(before).value)
      else None
  }

  function SideFor<T>(fate: Fate<T>): Side {
    match fate
    case Unspent => Holding
    case Spent(_, waits, inTime) => if !waits then Gone else if inTime then Waiting else Side.Refused
    case Thrown => Gone
  }

  /** The channel as the operations tell it. */
  ghost predicate Tallies<T>(ops: seq<Op<T>>, c: Channel<T>) {
    var fate := SenderFate(ops);
    && c.consumed == Collected(ops) && c.data.receiver == !Hung(ops) && c.side == SideFor(fate)
    && (!Hung(ops) && c.consumed.None? ==> c.data.slot == if fate.Spent? then Some(fate.value) else None)
    && (!Hung(ops) && fate.Spent? ==> fate.inTime)
  }

  lemma {:induction false} RunsTally<T>(ops: seq<Op<T>>)
    ensures Tallies(ops, Run(ops))
  {
    if ops != [] {
      RunsTally(ops[..|ops| - 1]);
      RunsAreOrdered(ops[..|ops| - 1]);
    }
  }

  /**
   Under every interleaving, the future of `send_and_wait` is Ok exactly when the receiver has been
   polled for the value, fails exactly when the receiver was dropped before, and is pending otherwise;
   and what a poll returned is the value sent.
   */
  lemma WaitTellsConsumption<T>(ops: seq<Op<T>>)
    requires SenderFate(ops).Spent? && SenderFate(ops).waits
    ensures var c := Run(ops);
      && c.consumed == Collected(ops)
      && (Wait(c).Ready? <==> Collected(ops).Some?)
      && (Wait(c).Canceled? <==> Collected(ops).None? && Hung(ops))
      && (Wait(c).Pending? <==> Collected(ops).None? && !Hung(ops))
  {
    RunsTally(ops);
    RunsAreOrdered(ops);
  }

  /** Once the future has resolved, nothing that happens later makes it untrue. */
  lemma {:induction false} WaitIsFinal<T>(ops: seq<Op<T>>, more: seq<Op<T>>)
    requires Run(ops).side.Waiting? || Run(ops).side.Refused?
    requires !Wait(Run(ops)).Pending?
    ensures Run(ops + more).consumed.Some? == Run(ops).consumed.Some? && Wait(Run(ops + more)) == Wait(Run(ops))
    decreases |more|
  {
    if more == [] {
      assert ops + more == ops;
    } else {
      var before := more[..|more| - 1];
      assert (ops + more)[..|ops + more| - 1] == ops + before;
      WaitIsFinal(ops, before);
      RunsAreOrdered(ops + before);
      SideIsKept(ops, before);
    }
  }

  lemma {:induction false} SideIsKept<T>(ops: seq<Op<T>>, more: seq<Op<T>>)
    requires !Run(ops).side.Holding?
    ensures Run(ops + more).side == Run(ops).side
    decreases |more|
  {
    if more == [] {
      assert ops + more == ops;
    } else {
      assert (ops + more)[..|ops + more| - 1] == ops + more[..|more| - 1];
      SideIsKept(ops, more[..|more| - 1]);
    }
  }
}
