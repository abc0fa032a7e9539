/**
 A pub/sub session: the active subscriptions of one client, each with the closure that ends it,
 and the callbacks to run when the session is dropped.
 */
module Session {
  import opened Basics
  import opened JsonRpc
  import opened ClientMessages

  /** Subscription id and notification name. */
  type Key = (SubscriptionId, string)

  /** A closure that ends a subscription: it calls an unsubscribe handler. `mark` tells registrations apart. */
  datatype Remover = Remover(handler: nat, mark: nat)

  datatype Action =
    | Registered(key: Key, remover: Remover)
    | Ended(remover: Remover, handler: nat, id: SubscriptionId)   // `handler` was called for this registration
    | CallbackAdded(callback: nat)
    | CallbackRun(callback: nat)

  /** All that was done, the latest action last. */
  datatype Log = Empty | Then(before: Log, action: Action)

  datatype State = State(active: map<Key, Remover>, onDrop: seq<nat>, log: Log)

  const NEW := State(map[], [], Empty)

  function Add(s: State, key: Key, remover: Remover): State {
    var log := Then(s.log, Registered(key, remover));
    s.(active := s.active[key := remover],
       log := if key in s.active then Then(log, Ended(s.active[key], s.active[key].handler, key.0)) else log)
  }

  /** Takes one subscription off and has `handler` called for it. */
  function End(s: State, key: Key, handler: nat): State {
    if key in s.active then State(s.active - {key}, s.onDrop, Then(s.log, Ended(s.active[key], handler, key.0))) else s
  }

  function DropEntry(s: State, key: Key): State { if key in s.active then End(s, key, s.active[key].handler) else s }

  /** Draining the map in some order. */
  function DropEntries(s: State, order: seq<Key>): State {
    if order == [] then s else DropEntry(DropEntries(s, order[..|order| - 1]), order[|order| - 1])
  }

  function RunCallbacks(s: State): State
    decreases |s.onDrop|
  {
    if s.onDrop == [] then s else RunCallbacks(State(s.active, s.onDrop[1..], Then(s.log, CallbackRun(s.onDrop[0]))))
  }

  function Drop(s: State, order: seq<Key>): State { RunCallbacks(DropEntries(s, order)) }

  predicate Covers(order: seq<Key>, active: map<Key, Remover>) { forall key :: key in active ==> key in order }

  // ---------------------------------------------------------------- unsubscribe calls

  /** An unsubscribe call is either passed to the handler or refused. */
  datatype Outcome = Delegated(handler: nat, id: SubscriptionId) | Refused(error: Error)

  function RequestedId(params: Params): Option<SubscriptionId> {
    match params
    case Positional(args) => if |args| == 1 then ParseSubscriptionId(args[0]) else None
    case _ => None
  }

  /** The `Unsubscribe` method of notification `name` with its `handler`. */
  function UnsubscribeCall(s: State, name: string, handler: nat, params: Params): (State, Outcome) {
    match RequestedId(params)
    case None => (s, Refused(InvalidParams("Expected subscription id.")))
    case Some(id) =>
      if (id, name) in s.active then (End(s, (id, name), handler), Delegated(handler, id))
      else (s, Refused(InvalidParams("Invalid subscription id.")))
  }

  /** A subscription that is active is removed and ended with its id; one that is not is refused. */
  predicate EndsOrRefuses(s: State, key: Key, handler: nat, call: (State, Outcome)) {
    if key in s.active then
      && call.0 == State(s.active - {key}, s.onDrop, Then(s.log, Ended(s.active[key], handler, key.0)))
      && call.1 == Delegated(handler, key.0)
    else call == (s, Refused(Error(-32602, "Invalid subscription id.", None)))
  }

  ghost predicate NamesNone(params: Params) {
    && (forall text :: params != Positional([Text(text)]))
    && (forall n: U64 :: params != Positional([Number(Unsigned(n))]))
  }

  /** Only a list of one text or one unsigned number names a subscription; anything else changes nothing. */
  ghost predicate Unsubscribes(s: State, name: string, handler: nat, params: Params, call: (State, Outcome)) {
    && (forall text :: params == Positional([Text(text)]) ==> EndsOrRefuses(s, (TextId(text), name), handler, call))
    && (forall n: U64 :: params == Positional([Number(Unsigned(n))]) ==>
          EndsOrRefuses(s, (NumberId(n), name), handler, call))
    && (NamesNone(params) ==> call == (s, Refused(Error(-32602, "Expected subscription id.", None))))
  }

  lemma UnsubscribeCallEnds(s: State, name: string, handler: nat, params: Params)
    ensures Unsubscribes(s, name, handler, params, UnsubscribeCall(s, name, handler, params))
  {
    var call := UnsubscribeCall(s, name, handler, params);
    if params.Positional? && |params.args| == 1 {
      assert params == Positional([params.args[0]]);
    }
  }

  class ClientSession {
    var active: map<Key, Remover>
    var onDrop: seq<nat>
    ghost var log: Log

    ghost function Now(): State
      reads this
    {
      State(active, onDrop, log)
    }

    constructor ()
      ensures Now() == NEW
    {
      active, onDrop, log := map[], [], Empty;
    }

    method AddCallback(callback: nat)
      modifies this
      ensures Now() == State(old(active), old(onDrop) + [callback], Then(old(log), CallbackAdded(callback)))
    {
      onDrop := onDrop + [callback];
      log := Then(log, CallbackAdded(callback));
    }

    method AddSubscription(name: string, id: SubscriptionId, remover: Remover)
      modifies this
      ensures Now() == Add(old(Now()), (id, name), remover)
    {
      var key := (id, name);
      var displaced := if key in active then Some(active[key]) else None;
      active := active[key := remover];
      log := Then(log, Registered(key, remover));
      if displaced.Some? {
        Invoke(displaced.value, displaced.value.handler, id);
      }
    }

    method Invoke(remover: Remover, handler: nat, id: SubscriptionId)
      modifies this`log
      ensures log == Then(old(log), Ended(remover, handler, id))
    {
      log := Then(log, Ended(remover, handler, id));
    }

    method Unsubscribe(name: string, handler: nat, params: Params) returns (r: Outcome)
      modifies this
      ensures (Now(), r) == UnsubscribeCall(old(Now()), name, handler, params)
      ensures Unsubscribes(old(Now()), name, handler, params, (Now(), r))
    {
      UnsubscribeCallEnds(Now(), name, handler, params);
      var id := RequestedId(params);
      match id {
        case None => r := Refused(InvalidParams("Expected subscription id."));
        case Some(id) =>
          var key := (id, name);
          if key in active {
            ghost var remover := active[key];
            active := active - {key};
            log := Then(log, Ended(remover, handler, id));
            r := Delegated(handler, id);
          } else {
            r := Refused(InvalidParams("Invalid subscription id."));
          }
      }
    }

    method Close() returns (ghost order: seq<Key>)
      modifies this
      ensures Covers(order, old(active)) && Now() == Drop(old(Now()), order)
    {
      order := [];
      while active != map[]
        invariant Now() == DropEntries(old(Now()), order)
        invariant forall key :: key in old(active) ==> key in order || key in active
        invariant active.Keys <= old(active).Keys
        decreases active.Keys
      {
        var key :| key in active;
        var remover := active[key];
        active := active - {key};
        Invoke(remover, remover.handler, key.0);
        ghost var before := order;
        order := order + [key];
        assert order[..|order| - 1] == before;
      }
      ghost var drained := Now();
      while onDrop != []
        invariant RunCallbacks(drained) == RunCallbacks(Now())
        decreases |onDrop|
      {
        log := Then(log, CallbackRun(onDrop[0]));
        onDrop := onDrop[1..];
      }
    }
  }

  // ---------------------------------------------------------------- every subscription is ended exactly once

  function Registrations(log: Log, mark: nat): nat {
    match log
    case Empty => 0
    case Then(before, Registered(_, r)) => Registrations(before, mark) + if r.mark == mark then 1 else 0
    case Then(before, _) => Registrations(before, mark)
  }

  function Endings(log: Log, mark: nat): nat {
    match log
    case Empty => 0
    case Then(before, Ended(r, _, _)) => Endings(before, mark) + if r.mark == mark then 1 else 0
    case Then(before, _) => Endings(before, mark)
  }

  function Added(log: Log): seq<nat> {
    match log
    case Empty => []
    case Then(before, CallbackAdded(callback)) => Added(before) + [callback]
    case Then(before, _) => Added(before)
  }

  function Ran(log: Log): seq<nat> {
    match log
    case Empty => []
    case Then(before, CallbackRun(callback)) => Ran(before) + [callback]
    case Then(before, _) => Ran(before)
  }

  function Live(active: map<Key, Remover>, mark: nat): set<Key> { set key | key in active && active[key].mark == mark }

  predicate Balanced(s: State, mark: nat) {
    && Registrations(s.log, mark) == Endings(s.log, mark) + |Live(s.active, mark)|
    && Added(s.log) == Ran(s.log) + s.onDrop
  }

  /** What can happen to a session before it is dropped. */
  datatype Op =
    | Register(key: Key, remover: Remover)
    | Unsubscribe(name: string, handler: nat, params: Params)
    | OnDrop(callback: nat)

  function Apply(s: State, op: Op): State {
    match op
    case Register(key, remover) => Add(s, key, remover)
    case Unsubscribe(name, handler, params) => UnsubscribeCall(s, name, handler, params).0
    case OnDrop(callback) => State(s.active, s.onDrop + [callback], Then(s.log, CallbackAdded(callback)))
  }

  function ApplyAll(ops: seq<Op>): State {
    if ops == [] then NEW else Apply(ApplyAll(ops[..|ops| - 1]), ops[|ops| - 1])
  }

  lemma LiveRemoved(active: map<Key, Remover>, key: Key, mark: nat)
    ensures |Live(active - {key}, mark)|
         == |Live(active, mark)| - if key in active && active[key].mark == mark then 1 else 0
  {
    assert Live(active - {key}, mark) == Live(active, mark) - {key};
  }

  lemma LiveSet(active: map<Key, Remover>, key: Key, r: Remover, mark: nat)
    ensures |Live(active[key := r], mark)| == |Live(active - {key}, mark)| + if r.mark == mark then 1 else 0
  {
    assert Live(active[key := r], mark) == Live(active - {key}, mark) + if r.mark == mark then {key} else {};
  }

  lemma BalancedApply(s: State, op: Op, mark: nat)
    requires Balanced(s, mark)
    ensures Balanced(Apply(s, op), mark)
  {
    match op
    case Register(key, remover) =>
      LiveRemoved(s.active, key, mark);
      LiveSet(s.active, key, remover, mark);
      var log := Then(s.log, Registered(key, remover));
      assert Registrations(log, mark) == Registrations(s.log, mark) + if remover.mark == mark then 1 else 0;
      assert Endings(log, mark) == Endings(s.log, mark) && Added(log) == Added(s.log) && Ran(log) == Ran(s.log);
    case Unsubscribe(name, handler, params) =>
      if RequestedId(params).Some? { BalancedEnd(s, (RequestedId(params).value, name), handler, mark); }
    case OnDrop(callback) =>
      assert Ran(s.log) + s.onDrop + [callback] == Ran(s.log) + (s.onDrop + [callback]);
  }

  lemma BalancedEnd(s: State, key: Key, handler: nat, mark: nat)
    requires Balanced(s, mark)
    ensures Balanced(End(s, key, handler), mark)
  {
    if key in s.active { LiveRemoved(s.active, key, mark); }
  }

  lemma {:induction false} BalancedAlways(ops: seq<Op>, mark: nat)
    ensures Balanced(ApplyAll(ops), mark) && Ran(ApplyAll(ops).log) == []
  {
    if ops != [] {
      var s, op := ApplyAll(ops[..|ops| - 1]), ops[|ops| - 1];
      BalancedAlways(ops[..|ops| - 1], mark);
      BalancedApply(s, op, mark);
      assert op.Register? ==> Ran(Then(s.log, Registered(op.key, op.remover))) == Ran(s.log);
    }
  }

  lemma {:induction false} DropsAll(s: State, order: seq<Key>, mark: nat)
    requires Balanced(s, mark)
    ensures var d := DropEntries(s, order);
      Balanced(d, mark) && d.onDrop == s.onDrop && (forall key :: key in d.active ==> key in s.active && key !in order)
      && Registrations(d.log, mark) == Registrations(s.log, mark) && Added(d.log) == Added(s.log)
  {
    if order != [] {
      var before, key := DropEntries(s, order[..|order| - 1]), order[|order| - 1];
      DropsAll(s, order[..|order| - 1], mark);
      if key in before.active { BalancedEnd(before, key, before.active[key].handler, mark); }
      assert forall k :: k in order <==> k in order[..|order| - 1] || k == key;
    }
  }

  lemma {:induction false} CallbacksRun(s: State, mark: nat)
    requires Balanced(s, mark)
    ensures var d := RunCallbacks(s);
      Balanced(d, mark) && d.active == s.active && d.onDrop == []
      && Registrations(d.log, mark) == Registrations(s.log, mark) && Added(d.log) == Added(s.log)
    decreases |s.onDrop|
  {
    if s.onDrop != [] {
      assert Ran(s.log) + s.onDrop == Ran(s.log) + [s.onDrop[0]] + s.onDrop[1..];
      CallbacksRun(State(s.active, s.onDrop[1..], Then(s.log, CallbackRun(s.onDrop[0]))), mark);
    }
  }

  // ---------------------------------------------------------------- told from the operations alone

  /** How often a registration was made. */
  function MadeIn(ops: seq<Op>, mark: nat): nat {
    if ops == [] then 0
    else
      var last := ops[|ops| - 1];
      MadeIn(ops[..|ops| - 1], mark) + if last.Register? && last.remover.mark == mark then 1 else 0
  }

  /** The callbacks added, in order. */
  function CallbacksIn(ops: seq<Op>): seq<nat> {
    if ops == [] then []
    else
      var last := ops[|ops| - 1];
      CallbacksIn(ops[..|ops| - 1]) + if last.OnDrop? then [last.callback] else []
  }

  /** The latest registration under a key, unless an unsubscribe call has named the key since. */
  function LastOn(ops: seq<Op>, key: Key): Option<Remover> {
    if ops == [] then None
    else
      var before, last := ops[..|ops| - 1], ops[|ops| - 1];
      match last
      case Register(k, remover) => if k == key then Some(remover) else LastOn(before, key)
      case Unsubscribe(name, _, params) =>
        if name == key.1 && params == Positional([SubscriptionIdValue(key.0)]) then None else LastOn(before, key)
      case OnDrop(_) => LastOn(before, key)
  }

  lemma NamesKey(params: Params, id: SubscriptionId)
    ensures RequestedId(params) == Some(id) <==> params == Positional([SubscriptionIdValue(id)])
  {
    if params.Positional? && |params.args| == 1 {
      assert params == Positional([params.args[0]]);
      SubscriptionIdReadIff(params.args[0], id);
    }
  }

  /** What is active is what was registered last and not named by an unsubscribe call since. */
  lemma {:induction false} ActiveIsLast(ops: seq<Op>, key: Key)
    ensures LastOn(ops, key) == if key in ApplyAll(ops).active then Some(ApplyAll(ops).active[key]) else None
  {
    if ops != [] {
      var last := ops[|ops| - 1];
      ActiveIsLast(ops[..|ops| - 1], key);
      if last.Unsubscribe? { NamesKey(last.params, key.0); }
    }
  }

  lemma LogTells(s: State, op: Op, mark: nat)
    ensures Registrations(Apply(s, op).log, mark)
         == Registrations(s.log, mark) + if op.Register? && op.remover.mark == mark then 1 else 0
    ensures Added(Apply(s, op).log) == Added(s.log) + if op.OnDrop? then [op.callback] else []
  {
    if op.Register? {
      var log := Then(s.log, Registered(op.key, op.remover));
      assert Registrations(log, mark) == Registrations(s.log, mark) + if op.remover.mark == mark then 1 else 0;
      assert Added(log) == Added(s.log);
    }
  }

  lemma {:induction false} LogTellsOps(ops: seq<Op>, mark: nat)
    ensures Registrations(ApplyAll(ops).log, mark) == MadeIn(ops, mark) && Added(ApplyAll(ops).log) == CallbacksIn(ops)
  {
    if ops != [] {
      LogTellsOps(ops[..|ops| - 1], mark);
      LogTells(ApplyAll(ops[..|ops| - 1]), ops[|ops| - 1], mark);
    }
  }

  /**
   At any time a registration has been ended as often as it was made and is no longer active, and no
   callback has run; once the session is dropped every registration has been ended once for each time
   it was made, and the callbacks have run once each in the order they were added.
   */
  lemma TeardownIsExact(ops: seq<Op>, order: seq<Key>, mark: nat)
    requires Covers(order, ApplyAll(ops).active)
    ensures var s := ApplyAll(ops);
      Endings(s.log, mark) == MadeIn(ops, mark) - |Live(s.active, mark)| && Ran(s.log) == []
    ensures var d := Drop(ApplyAll(ops), order);
      d.active == map[] && Endings(d.log, mark) == MadeIn(ops, mark) && Ran(d.log) == CallbacksIn(ops)
  {
    BalancedAlways(ops, mark);
    LogTellsOps(ops, mark);
    DropsAll(ApplyAll(ops), order, mark);
    CallbacksRun(DropEntries(ApplyAll(ops), order), mark);
    var d := Drop(ApplyAll(ops), order);
    assert Live(d.active, mark) == {};
    assert Ran(d.log) + [] == Ran(d.log);
  }

  /** No subscription is registered or ended once a callback has run. */
  predicate CallbacksLast(log: Log) {
    log.Then? ==> CallbacksLast(log.before) && (log.action.CallbackRun? || Ran(log.before) == [])
  }

  lemma CallbacksLastApply(s: State, op: Op)
    requires CallbacksLast(s.log) && Ran(s.log) == []
    ensures CallbacksLast(Apply(s, op).log) && Ran(Apply(s, op).log) == []
  {
    if op.Register? { assert Ran(Then(s.log, Registered(op.key, op.remover))) == []; }
  }

  lemma {:induction false} EndingsCallNothing(s: State, order: seq<Key>)
    requires CallbacksLast(s.log) && Ran(s.log) == []
    ensures CallbacksLast(DropEntries(s, order).log) && Ran(DropEntries(s, order).log) == []
  {
    if order != [] { EndingsCallNothing(s, order[..|order| - 1]); }
  }

  lemma {:induction false} CallbacksEndNothing(s: State)
    requires CallbacksLast(s.log)
    ensures CallbacksLast(RunCallbacks(s).log)
    decreases |s.onDrop|
  {
    if s.onDrop != [] {
      CallbacksEndNothing(State(s.active, s.onDrop[1..], Then(s.log, CallbackRun(s.onDrop[0]))));
    }
  }

  lemma {:induction false} NoCallbackYet(ops: seq<Op>)
    ensures CallbacksLast(ApplyAll(ops).log) && Ran(ApplyAll(ops).log) == []
  {
    if ops != [] {
      NoCallbackYet(ops[..|ops| - 1]);
      CallbacksLastApply(ApplyAll(ops[..|ops| - 1]), ops[|ops| - 1]);
    }
  }

  /** In every run the callbacks come after every subscription has been ended. */
  lemma CallbacksComeLast(ops: seq<Op>, order: seq<Key>)
    ensures CallbacksLast(Drop(ApplyAll(ops), order).log)
  {
    NoCallbackYet(ops);
    EndingsCallNothing(ApplyAll(ops), order);
    CallbacksEndNothing(DropEntries(ApplyAll(ops), order));
  }

  // ---------------------------------------------------------------- what the handler is told

  predicate RegisteredAs(log: Log, remover: Remover, id: SubscriptionId) {
    log.Then? &&
    (|| (log.action.Registered? && log.action.remover == remover && log.action.key.0 == id)
     || RegisteredAs(log.before, remover, id))
  }

  /** Every ending is told the id that the registration it ends was made with, and comes after it. */
  predicate ToldTheirIds(log: Log) {
    log.Then? ==>
      && ToldTheirIds(log.before)
      && (log.action.Ended? ==> RegisteredAs(log.before, log.action.remover, log.action.id))
  }

  predicate Honest(s: State) {
    ToldTheirIds(s.log) && forall key :: key in s.active ==> RegisteredAs(s.log, s.active[key], key.0)
  }

  lemma HonestEnd(s: State, key: Key, handler: nat)
    requires Honest(s)
    ensures Honest(End(s, key, handler))
  {
  }

  lemma HonestApply(s: State, op: Op)
    requires Honest(s)
    ensures Honest(Apply(s, op))
  {
    if op.Unsubscribe? {
      if RequestedId(op.params).Some? { HonestEnd(s, (RequestedId(op.params).value, op.name), op.handler); }
    } else if op.Register? {
      var log := Then(s.log, Registered(op.key, op.remover));
      assert ToldTheirIds(log) && RegisteredAs(log, op.remover, op.key.0);
      assert forall key :: key in s.active ==> RegisteredAs(log, s.active[key], key.0);
    }
  }

  lemma {:induction false} HonestDrop(s: State, order: seq<Key>)
    requires Honest(s)
    ensures Honest(DropEntries(s, order))
  {
    if order != [] {
      var before, key := DropEntries(s, order[..|order| - 1]), order[|order| - 1];
      HonestDrop(s, order[..|order| - 1]);
      if key in before.active { HonestEnd(before, key, before.active[key].handler); }
    }
  }

  lemma {:induction false} HonestCallbacks(s: State)
    requires ToldTheirIds(s.log)
    ensures ToldTheirIds(RunCallbacks(s).log)
    decreases |s.onDrop|
  {
    if s.onDrop != [] {
      HonestCallbacks(State(s.active, s.onDrop[1..], Then(s.log, CallbackRun(s.onDrop[0]))));
    }
  }

  lemma {:induction false} HonestAlways(ops: seq<Op>)
    ensures Honest(ApplyAll(ops))
  {
    if ops != [] {
      HonestAlways(ops[..|ops| - 1]);
      HonestApply(ApplyAll(ops[..|ops| - 1]), ops[|ops| - 1]);
    }
  }

  /** In every run, the drop included, an unsubscribe handler is told the id its subscription was registered under. */
  lemma HandlersAreToldTheirIds(ops: seq<Op>, order: seq<Key>)
    ensures ToldTheirIds(Drop(ApplyAll(ops), order).log)
  {
    HonestAlways(ops);
    HonestDrop(ApplyAll(ops), order);
    HonestCallbacks(DropEntries(ApplyAll(ops), order));
  }

  // ---------------------------------------------------------------- which handler ends a subscription

  /** Every subscription that was ended was ended by the handler it was registered with. */
  predicate AllOwn(log: Log) {
    log.Then? ==> AllOwn(log.before) && (log.action.Ended? ==> log.action.handler == log.action.remover.handler)
  }

  /** An unsubscribe call brings the handler of the subscription it ends, if it ends one. */
  predicate Fitting(s: State, op: Op) {
    op.Unsubscribe? && RequestedId(op.params).Some? && (RequestedId(op.params).value, op.name) in s.active ==>
      s.active[(RequestedId(op.params).value, op.name)].handler == op.handler
  }

  lemma OwnApply(s: State, op: Op)
    ensures AllOwn(Apply(s, op).log) <==> AllOwn(s.log) && Fitting(s, op)
  {
    if op.Register? {
      assert AllOwn(Then(s.log, Registered(op.key, op.remover))) == AllOwn(s.log);
    }
  }

  /** The pairs of subscribe and unsubscribe methods: each with its notification name and its handler. */
  type Table = set<(string, nat)>

  /** A call of one of the table's methods, or a callback added. */
  predicate Offers(table: Table, op: Op) {
    match op
    case Register(key, remover) => (key.1, remover.handler) in table
    case Unsubscribe(name, handler, _) => (name, handler) in table
    case OnDrop(_) => true
  }

  predicate AllOf(table: Table, ops: seq<Op>) { forall i :: 0 <= i < |ops| ==> Offers(table, ops[i]) }

  /** No two pairs of methods with different handlers share a notification name. */
  predicate Separate(table: Table) { forall a, b :: a in table && b in table && a.0 == b.0 ==> a.1 == b.1 }

  lemma {:induction false} SeparateTableFits(table: Table, ops: seq<Op>)
    requires Separate(table) && AllOf(table, ops)
    ensures AllOwn(ApplyAll(ops).log)
    ensures forall key :: key in ApplyAll(ops).active ==> (key.1, ApplyAll(ops).active[key].handler) in table
  {
    if ops != [] {
      var before, op := ops[..|ops| - 1], ops[|ops| - 1];
      SeparateTableFits(table, before);
      assert Offers(table, op);
      if op.Unsubscribe? && RequestedId(op.params).Some? {
        var key := (RequestedId(op.params).value, op.name);
        if key in ApplyAll(before).active {
          assert (op.name, ApplyAll(before).active[key].handler) in table && (op.name, op.handler) in table;
        }
      }
      OwnApply(ApplyAll(before), op);
    }
  }

  /** Dropping a session calls each subscription's own handler. */
  lemma {:induction false} OwnEntries(s: State, order: seq<Key>)
    ensures AllOwn(DropEntries(s, order).log) <==> AllOwn(s.log)
  {
    if order != [] {
      OwnEntries(s, order[..|order| - 1]);
    }
  }

  lemma {:induction false} OwnCallbacks(s: State)
    ensures AllOwn(RunCallbacks(s).log) <==> AllOwn(s.log)
    decreases |s.onDrop|
  {
    if s.onDrop != [] {
      OwnCallbacks(State(s.active, s.onDrop[1..], Then(s.log, CallbackRun(s.onDrop[0]))));
    }
  }

  lemma OwnDrop(s: State, order: seq<Key>)
    ensures AllOwn(Drop(s, order).log) <==> AllOwn(s.log)
  {
    OwnEntries(s, order);
    OwnCallbacks(DropEntries(s, order));
  }

  /** A client subscribes with one method and unsubscribes with another of the same notification name. */
  function CrossedOps(id: SubscriptionId, name: string, first: nat, second: nat): seq<Op> {
    [Register((id, name), Remover(first, 0)), Unsubscribe(name, second, Positional([SubscriptionIdValue(id)]))]
  }

  /** Two pairs of methods under one notification name: the second ends what the first registered. */
  lemma ForeignHandler(id: SubscriptionId, name: string, first: nat, second: nat)
    requires first != second
    ensures !AllOwn(ApplyAll(CrossedOps(id, name, first, second)).log)
  {
    var key, ops := (id, name), CrossedOps(id, name, first, second);
    assert ops[..1] == [ops[0]] && ops[..1][..0] == [];
    assert ApplyAll(ops[..1]) == Add(NEW, key, Remover(first, 0));
    NamesKey(ops[1].params, id);
    OwnApply(ApplyAll(ops[..1]), ops[1]);
  }

  /**
   Over all runs of a table's methods and the drop, each subscription is ended by the handler it was
   registered with, if and only if no two pairs of methods with different handlers share a name.
   */
  lemma OwnHandlerIff(table: Table)
    ensures (forall ops, order :: AllOf(table, ops) ==> AllOwn(Drop(ApplyAll(ops), order).log)) <==> Separate(table)
  {
    if Separate(table) {
      forall ops, order | AllOf(table, ops)
        ensures AllOwn(Drop(ApplyAll(ops), order).log)
      {
        SeparateTableFits(table, ops);
        OwnDrop(ApplyAll(ops), order);
      }
    } else {
      var a, b :| a in table && b in table && a.0 == b.0 && a.1 != b.1;
      var ops := CrossedOps(NumberId(0), a.0, a.1, b.1);
      ForeignHandler(NumberId(0), a.0, a.1, b.1);
      OwnDrop(ApplyAll(ops), []);
      assert AllOf(table, ops);
    }
  }
}
