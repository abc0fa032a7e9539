/** A WebSocket session's slab of liveness signals: one slot for every task still running. */
module Liveness {
  import opened Basics

  /** A task's `LivenessPoll`. */
  type Task = nat

  /**
   The slab with the senders in its slots, the slot each running task remembers, the tasks that were
   signalled, and whether the session still exists.
   */
  datatype State = State(slab: map<nat, Option<Task>>, slots: map<Task, nat>, signalled: set<Task>, active: bool)

  datatype Event =
    | Spawn(task: Task, key: nat)
    | Finish(task: Task)
    | Close

  const INITIAL := State(map[], map[], {}, true)

  /** What the world outside keeps to: new tasks, vacant keys from the slab, one session drop. */
  predicate Allowed(s: State, e: Event) {
    match e
    case Spawn(task, key) => s.active && task !in s.slots && key !in s.slab
    case Finish(task) => task in s.slots
    case Close => s.active
  }

  function Taken(slab: map<nat, Option<Task>>): map<nat, Option<Task>> { map k | k in slab :: None }

  function Senders(slab: map<nat, Option<Task>>): set<Task> { set k | k in slab && slab[k].Some? :: slab[k].value }

  /** Nothing comes of removing a vacant slot: the slab panics. */
  function Step(s: State, e: Event): Option<State>
    requires Allowed(s, e)
  {
    match e
    case Spawn(task, key) => Some(s.(slab := s.slab[key := Some(task)], slots := s.slots[task := key]))
    case Finish(task) =>
      if s.slots[task] in s.slab then Some(s.(slab := s.slab - {s.slots[task]}, slots := s.slots - {task})) else None
    case Close => Some(State(Taken(s.slab), s.slots, s.signalled + Senders(s.slab), false))
  }

  /** A run that the world allows, up to a panic. */
  ghost predicate Reaches(events: seq<Event>, end: Option<State>) {
    if events == [] then end == Some(INITIAL)
    else
      exists before :: && Reaches(events[..|events| - 1], Some(before))
                       && Allowed(before, events[|events| - 1]) && end == Step(before, events[|events| - 1])
  }

  /** Polling the receiver: signalled, or cancelled because no slot holds the sender any more. */
  predicate Resolves(s: State, task: Task) {
    task in s.signalled || task !in Senders(s.slab)
  }

  predicate Distinct(slots: map<Task, nat>) {
    forall t, u :: t in slots && u in slots && t != u ==> slots[t] != slots[u]
  }

  /** The running tasks hold exactly the occupied slots, one each. */
  ghost predicate Sound(s: State) {
    && Distinct(s.slots)
    && (forall t :: t in s.slots ==> s.slots[t] in s.slab && s.slab[s.slots[t]] == (if s.active then Some(t) else None))
    && (forall k :: k in s.slab ==> exists t :: t in s.slots && s.slots[t] == k)
    && (s.active ==> s.signalled == {})
    && (!s.active ==> forall t :: t in s.slots ==> t in s.signalled)
  }

  lemma StepIsSound(s: State, e: Event)
    requires Sound(s) && Allowed(s, e)
    ensures Step(s, e).Some? && Sound(Step(s, e).value)
  {
    match e {
      case Spawn(task, key) =>
        var next := Step(s, e).value;
        forall k | k in next.slab
          ensures exists t :: t in next.slots && next.slots[t] == k
        {
          if k == key {
            assert next.slots[task] == key;
          } else {
            var t :| t in s.slots && s.slots[t] == k;
            assert next.slots[t] == k;
          }
        }
      case Finish(task) => FinishIsSound(s, task);
      case Close => CloseIsSound(s);
    }
  }

  lemma FinishIsSound(s: State, task: Task)
    requires Sound(s) && task in s.slots
    ensures Step(s, Finish(task)).Some? && Sound(Step(s, Finish(task)).value)
  {
    var next := Step(s, Finish(task)).value;
    forall k | k in next.slab
      ensures exists t :: t in next.slots && next.slots[t] == k
    {
      var t :| t in s.slots && s.slots[t] == k;
      assert next.slots[t] == k;
    }
  }

  lemma CloseIsSound(s: State)
    requires Sound(s) && s.active
    ensures Step(s, Close).Some? && Sound(Step(s, Close).value)
  {
    var next := Step(s, Close).value;
    forall t | t in s.slots
      ensures t in next.signalled
    {
      assert s.slab[s.slots[t]] == Some(t);
    }
  }

  /** In every run no vacant slot is removed, and running tasks and occupied slots correspond. */
  lemma {:induction false} RunsAreSound(events: seq<Event>, end: Option<State>)
    requires Reaches(events, end)
    ensures end.Some? && Sound(end.value)
  {
    if events != [] {
      var last := events[|events| - 1];
      var before :| Reaches(events[..|events| - 1], Some(before)) && Allowed(before, last) && end == Step(before, last);
      RunsAreSound(events[..|events| - 1], Some(before));
      StepIsSound(before, last);
    }
  }

  // ---------------------------------------------------------------- told from the events alone

  /** The slot of a task that was spawned and has not finished. */
  function SlotOf(events: seq<Event>, task: Task): Option<nat> {
    if events == [] then None
    else
      var before, last := events[..|events| - 1], events[|events| - 1];
      match last
      case Spawn(t, key) => if t == task then Some(key) else SlotOf(before, task)
      case Finish(t) => if t == task then None else SlotOf(before, task)
      case Close => SlotOf(before, task)
  }

  predicate Dropped(events: seq<Event>) {
    events != [] && (Dropped(events[..|events| - 1]) || events[|events| - 1].Close?)
  }

  lemma {:induction false} RunsTally(events: seq<Event>, end: Option<State>)
    requires Reaches(events, end)
    ensures end.Some? && end.value.active == !Dropped(events)
    ensures forall t: Task ::
      SlotOf(events, t) == if t in end.value.slots then Some(end.value.slots[t]) else None
  {
    RunsAreSound(events, end);
    if events != [] {
      var last := events[|events| - 1];
      var before :| Reaches(events[..|events| - 1], Some(before)) && Allowed(before, last) && end == Step(before, last);
      RunsTally(events[..|events| - 1], Some(before));
    }
  }

  lemma OccupiedIsHeld(events: seq<Event>, s: State, k: nat) returns (task: Task)
    requires Reaches(events, Some(s)) && k in s.slab
    ensures SlotOf(events, task) == Some(k)
  {
    RunsAreSound(events, Some(s));
    RunsTally(events, Some(s));
    task :| task in s.slots && s.slots[task] == k;
  }

  lemma HeldIsOccupied(events: seq<Event>, s: State, task: Task)
    requires Reaches(events, Some(s)) && SlotOf(events, task).Some?
    ensures SlotOf(events, task).value in s.slab
  {
    RunsAreSound(events, Some(s));
    RunsTally(events, Some(s));
    assert task in s.slots && s.slots[task] == SlotOf(events, task).value;
  }

  /** In every run the occupied slots are those of the tasks that run. */
  lemma SlotsAreOccupied(events: seq<Event>, s: State, k: nat)
    requires Reaches(events, Some(s))
    ensures k in s.slab <==> exists t: Task :: SlotOf(events, t) == Some(k)
  {
    if k in s.slab {
      var task := OccupiedIsHeld(events, s, k);
    } else {
      forall t: Task | SlotOf(events, t) == Some(k)
        ensures false
      {
        HeldIsOccupied(events, s, t);
      }
    }
  }

  /** In every run a running task has a slot of its own, and its poll resolves exactly when the session was dropped. */
  lemma ResolvesIffClosed(events: seq<Event>, s: State, task: Task, other: Task)
    requires Reaches(events, Some(s)) && SlotOf(events, task).Some?
    ensures Resolves(s, task) <==> Dropped(events)
    ensures other != task ==> SlotOf(events, other) != SlotOf(events, task)
  {
    RunsAreSound(events, Some(s));
    RunsTally(events, Some(s));
    assert task in s.slots && SlotOf(events, task) == Some(s.slots[task]);
    assert SlotOf(events, other) == if other in s.slots then Some(s.slots[other]) else None;
    if s.active {
      assert s.slab[s.slots[task]] == Some(task);
    }
  }

  class Session {
    var active: bool
    var slab: map<nat, Option<Task>>
    ghost var slots: map<Task, nat>
    ghost var signalled: set<Task>

    ghost function Now(): State
      reads this
    {
      State(slab, slots, signalled, active)
    }

    constructor ()
      ensures Now() == INITIAL
    {
      active, slab, slots, signalled := true, map[], map[], {};
    }

    method CreatePoll(task: Task, key: nat)
      requires Allowed(Now(), Spawn(task, key))
      modifies this
      ensures Some(Now()) == Step(old(Now()), Spawn(task, key))
    {
      slab := slab[key := Some(task)];
      slots := slots[task := key];
    }

    /** The slot is occupied, so removing it does not panic. */
    method DropPoll(task: Task, slot: nat)
      requires Sound(Now()) && Allowed(Now(), Finish(task)) && slot == slots[task]
      modifies this
      ensures Some(Now()) == Step(old(Now()), Finish(task))
    {
      assert slot in slab;
      slab := slab - {slot};
      slots := slots - {task};
    }

    method Drop()
      requires Allowed(Now(), Close)
      modifies this
      ensures Some(Now()) == Step(old(Now()), Close)
    {
      active := false;
      var rest := slab.Keys;
      while rest != {}
        invariant !active && slots == old(slots) && slab.Keys == old(slab).Keys && rest <= slab.Keys
        invariant forall k :: k in slab ==> slab[k] == if k in rest then old(slab)[k] else None
        invariant signalled
               == old(signalled) + set k | k in slab && k !in rest && old(slab)[k].Some? :: old(slab)[k].value
      {
        var k :| k in rest;
        if slab[k].Some? {
          signalled := signalled + {slab[k].value};
          slab := slab[k := None];
        }
        rest := rest - {k};
      }
      assert slab == Taken(old(slab));
      assert signalled == old(signalled) + Senders(old(slab));
    }
  }
}
