/** Sorting the annotated methods of an RPC trait into registrations. */
module Registrations {
  import opened Basics

  datatype Kind =
    | Rpc(hasMetadata: bool, isNotification: bool)
    | Subscribe(name: string)
    | Unsubscribe(name: string)

  /** An annotated method; `subscriber` is the type of its `Subscriber` argument. */
  datatype Method = Method(ident: string, kind: Kind, subscriber: Option<string>)

  datatype Registration =
    | Standard(item: Method, hasMetadata: bool)
    | Notification(item: Method, hasMetadata: bool)
    | PubSub(name: string, subscribes: seq<Method>, unsubscribe: Method)

  datatype Complaint =
    | AlreadyDefined(name: string)
    | MissingSubscribe(name: string)
    | InconsistentSubscriber(name: string)
    | MissingUnsubscribe(name: string)

  // ---------------------------------------------------------------- what is wanted

  /** The methods of a kind, in order. */
  function OfKind(methods: seq<Method>, kind: Kind): seq<Method> {
    if methods == [] then []
    else
      var last := methods[|methods| - 1];
      OfKind(methods[..|methods| - 1], kind) + if last.kind == kind then [last] else []
  }

  function Names(methods: seq<Method>): set<string> {
    set m | m in methods && !m.kind.Rpc? :: m.kind.name
  }

  predicate Consistent(subscribes: seq<Method>) {
    forall i, j :: 0 <= i < |subscribes| && 0 <= j < |subscribes|
                   && subscribes[i].subscriber.Some? && subscribes[j].subscriber.Some?
                   ==> subscribes[i].subscriber == subscribes[j].subscriber
  }

  /** A subscription is complete: one way out, some ways in, and they agree on the subscriber. */
  predicate Complete(methods: seq<Method>, name: string) {
    && |OfKind(methods, Unsubscribe(name))| == 1
    && |OfKind(methods, Subscribe(name))| >= 1
    && Consistent(OfKind(methods, Subscribe(name)))
  }

  predicate Justified(methods: seq<Method>, complaint: Complaint) {
    match complaint
    case AlreadyDefined(name) => |OfKind(methods, Unsubscribe(name))| >= 2
    case MissingSubscribe(name) => name in Names(methods) && OfKind(methods, Subscribe(name)) == []
    case InconsistentSubscriber(name) => name in Names(methods) && !Consistent(OfKind(methods, Subscribe(name)))
    case MissingUnsubscribe(name) => name in Names(methods) && OfKind(methods, Unsubscribe(name)) == []
  }

  /** The methods a registration is for. */
  function Members(r: Registration): multiset<Method> {
    if r.PubSub? then multiset(r.subscribes) + multiset{r.unsubscribe} else multiset{r.item}
  }

  function AllMembers(rs: seq<Registration>): multiset<Method> {
    if rs == [] then multiset{} else AllMembers(rs[..|rs| - 1]) + Members(rs[|rs| - 1])
  }

  /** A registration says of its methods what their annotations say. */
  predicate Faithful(methods: seq<Method>, r: Registration) {
    match r
    case Standard(item, meta) => item.kind == Rpc(meta, false)
    case Notification(item, meta) => item.kind == Rpc(meta, true)
    case PubSub(name, subscribes, unsubscribe) =>
      subscribes == OfKind(methods, Subscribe(name)) && [unsubscribe] == OfKind(methods, Unsubscribe(name))
  }

  /** The methods that are not of a subscription, in order. */
  function PlainOf(methods: seq<Method>): seq<Method> {
    if methods == [] then []
    else
      var last := methods[|methods| - 1];
      PlainOf(methods[..|methods| - 1]) + if last.kind.Rpc? then [last] else []
  }

  /** The methods registered by themselves, in order. */
  function PlainIn(rs: seq<Registration>): seq<Method> {
    if rs == [] then []
    else
      var last := rs[|rs| - 1];
      PlainIn(rs[..|rs| - 1]) + if last.PubSub? then [] else [last.item]
  }

  predicate AllFaithful(methods: seq<Method>, rs: seq<Registration>) {
    forall r :: r in rs ==> Faithful(methods, r)
  }

  // ---------------------------------------------------------------- counting

  lemma {:induction false} OfKindCounts(methods: seq<Method>, kind: Kind, m: Method)
    ensures multiset(OfKind(methods, kind))[m] == if m.kind == kind then multiset(methods)[m] else 0
  {
    if methods != [] {
      var front, last := methods[..|methods| - 1], methods[|methods| - 1];
      OfKindCounts(front, kind, m);
      assert methods == front + [last];
    }
  }

  lemma {:induction false} OfKindGrows(methods: seq<Method>, k: nat, kind: Kind)
    requires k <= |methods|
    ensures OfKind(methods[..k], kind) <= OfKind(methods, kind)
    decreases |methods|
  {
    if k == |methods| {
      assert methods[..k] == methods;
    } else {
      var front := methods[..|methods| - 1];
      assert front[..k] == methods[..k];
      OfKindGrows(front, k, kind);
    }
  }

  lemma {:induction false} OfKindEmpty(methods: seq<Method>, kind: Kind)
    requires forall m :: m in methods ==> m.kind != kind
    ensures OfKind(methods, kind) == []
  {
    if methods != [] {
      OfKindEmpty(methods[..|methods| - 1], kind);
    }
  }

  lemma OfKindNext(methods: seq<Method>, i: nat, kind: Kind)
    requires i < |methods|
    ensures OfKind(methods[..i + 1], kind)
         == OfKind(methods[..i], kind) + if methods[i].kind == kind then [methods[i]] else []
  {
    assert methods[..i + 1][..i] == methods[..i];
  }

  lemma NamesNext(methods: seq<Method>, i: nat)
    requires i < |methods|
    ensures Names(methods[..i + 1]) == Names(methods[..i]) + if methods[i].kind.Rpc? then {} else {methods[i].kind.name}
  {
    assert methods[..i + 1] == methods[..i] + [methods[i]];
  }

  /** A plain method, or one of a subscription in `done`, is registered as often as it occurs; others are not. */
  predicate Counted(methods: seq<Method>, done: set<string>, rs: seq<Registration>, m: Method) {
    AllMembers(rs)[m] == if m.kind.Rpc? || m.kind.name in done then multiset(methods)[m] else 0
  }

  /** The plain methods, and no others, are registered, in order. */
  ghost predicate Registered(methods: seq<Method>, rs: seq<Registration>) {
    PlainIn(rs) == PlainOf(methods) && forall m :: Counted(methods, {}, rs, m)
  }

  lemma PlainOfNext(methods: seq<Method>, i: nat)
    requires i < |methods|
    ensures PlainOf(methods[..i + 1]) == PlainOf(methods[..i]) + if methods[i].kind.Rpc? then [methods[i]] else []
  {
    assert methods[..i + 1][..i] == methods[..i];
  }

  lemma CountedNext(methods: seq<Method>, more: Method, rs: seq<Registration>, m: Method)
    requires Counted(methods, {}, rs, m) && !more.kind.Rpc?
    ensures Counted(methods + [more], {}, rs, m)
  {
  }

  lemma RegisterPlain(methods: seq<Method>, i: nat, rs: seq<Registration>, r: Registration)
    requires i < |methods| && Registered(methods[..i], rs)
    requires methods[i].kind.Rpc? && !r.PubSub? && r.item == methods[i]
    ensures Registered(methods[..i + 1], rs + [r])
  {
    var now, next, all := methods[..i], methods[..i + 1], rs + [r];
    assert all[..|rs|] == rs;
    assert next == now + [methods[i]];
    PlainOfNext(methods, i);
    forall m: Method
      ensures Counted(next, {}, all, m)
    {
      assert Counted(now, {}, rs, m);
    }
  }

  lemma SkipPubSub(methods: seq<Method>, i: nat, rs: seq<Registration>)
    requires i < |methods| && Registered(methods[..i], rs) && !methods[i].kind.Rpc?
    ensures Registered(methods[..i + 1], rs)
  {
    var now, next := methods[..i], methods[..i + 1];
    assert next == now + [methods[i]];
    PlainOfNext(methods, i);
    forall m: Method
      ensures Counted(next, {}, rs, m)
    {
      assert Counted(now, {}, rs, m);
      CountedNext(now, methods[i], rs, m);
    }
  }

  lemma PairMembers(methods: seq<Method>, r: Registration, m: Method)
    requires r.PubSub? && Faithful(methods, r)
    ensures Members(r)[m] == if !m.kind.Rpc? && m.kind.name == r.name then multiset(methods)[m] else 0
  {
    OfKindCounts(methods, Subscribe(r.name), m);
    OfKindCounts(methods, Unsubscribe(r.name), m);
    assert multiset{r.unsubscribe} == multiset(OfKind(methods, Unsubscribe(r.name)));
  }

  // ---------------------------------------------------------------- computing

  method SameSubscriber(subscribes: seq<Method>) returns (same: bool)
    ensures same == Consistent(subscribes)
  {
    var first: Option<string> := None;
    for i := 0 to |subscribes|
      invariant forall k :: 0 <= k < i && subscribes[k].subscriber.Some? ==> subscribes[k].subscriber == first
      invariant first.Some? ==> exists k :: 0 <= k < i && subscribes[k].subscriber == first
    {
      var next := subscribes[i].subscriber;
      if next.Some? {
        if first.None? {
          first := next;
        } else if next != first {
          return false;
        }
      }
    }
    same := true;
  }

  /** The subscribe methods of a subscription and its unsubscribe method, as far as they have been seen. */
  datatype Pair = Pair(subscribes: seq<Method>, unsubscribe: Option<Method>)

  predicate Seen(methods: seq<Method>, name: string, pair: Pair) {
    && pair.subscribes == OfKind(methods, Subscribe(name))
    && (if pair.unsubscribe.Some? then [pair.unsubscribe.value] else []) == OfKind(methods, Unsubscribe(name))
  }

  ghost predicate AllSeen(methods: seq<Method>, pairs: map<string, Pair>) {
    pairs.Keys == Names(methods) && forall name :: name in pairs ==> Seen(methods, name, pairs[name])
  }

  lemma NotSeen(methods: seq<Method>, name: string)
    requires name !in Names(methods)
    ensures Seen(methods, name, Pair([], None))
  {
    OfKindEmpty(methods, Subscribe(name));
    OfKindEmpty(methods, Unsubscribe(name));
  }

  lemma SeenNext(methods: seq<Method>, i: nat, name: string, pair: Pair)
    requires i < |methods| && Seen(methods[..i], name, pair)
    ensures methods[i].kind == Subscribe(name) ==>
      Seen(methods[..i + 1], name, pair.(subscribes := pair.subscribes + [methods[i]]))
    ensures methods[i].kind == Unsubscribe(name) && pair.unsubscribe.None? ==>
      Seen(methods[..i + 1], name, pair.(unsubscribe := Some(methods[i])))
    ensures methods[i].kind == Unsubscribe(name) && pair.unsubscribe.Some? ==>
      |OfKind(methods, Unsubscribe(name))| >= 2
    ensures methods[i].kind.Rpc? || methods[i].kind.name != name ==> Seen(methods[..i + 1], name, pair)
  {
    OfKindNext(methods, i, Subscribe(name));
    OfKindNext(methods, i, Unsubscribe(name));
    OfKindGrows(methods, i + 1, Unsubscribe(name));
  }

  lemma SeenOthers(methods: seq<Method>, i: nat, pairs: map<string, Pair>)
    requires i < |methods| && AllSeen(methods[..i], pairs)
    ensures forall name :: name in pairs && (methods[i].kind.Rpc? || methods[i].kind.name != name) ==>
      Seen(methods[..i + 1], name, pairs[name])
  {
    forall name | name in pairs && (methods[i].kind.Rpc? || methods[i].kind.name != name)
      ensures Seen(methods[..i + 1], name, pairs[name])
    {
      SeenNext(methods, i, name, pairs[name]);
    }
  }

  lemma AllSeenWith(methods: seq<Method>, pairs: map<string, Pair>, name: string, pair: Pair)
    requires Names(methods) == pairs.Keys + {name} && Seen(methods, name, pair)
    requires forall other :: other in pairs && name != other ==> Seen(methods, other, pairs[other])
    ensures AllSeen(methods, pairs[name := pair])
  {
  }

  lemma AllSeenNext(methods: seq<Method>, i: nat, pairs: map<string, Pair>, pair: Pair)
    requires i < |methods| && AllSeen(methods[..i], pairs) && !methods[i].kind.Rpc?
    requires Seen(methods[..i + 1], methods[i].kind.name, pair)
    ensures AllSeen(methods[..i + 1], pairs[methods[i].kind.name := pair])
  {
    NamesNext(methods, i);
    SeenOthers(methods, i, pairs);
    AllSeenWith(methods[..i + 1], pairs, methods[i].kind.name, pair);
  }

  lemma AllSeenSame(methods: seq<Method>, i: nat, pairs: map<string, Pair>)
    requires i < |methods| && AllSeen(methods[..i], pairs) && methods[i].kind.Rpc?
    ensures AllSeen(methods[..i + 1], pairs)
  {
    NamesNext(methods, i);
    SeenOthers(methods, i, pairs);
  }

  function PairOf(pairs: map<string, Pair>, name: string): Pair {
    if name in pairs then pairs[name] else Pair([], None)
  }

  lemma SeeSubscribe(methods: seq<Method>, i: nat, pairs: map<string, Pair>, name: string)
    requires i < |methods| && AllSeen(methods[..i], pairs) && methods[i].kind == Subscribe(name)
    ensures var pair := PairOf(pairs, name);
      AllSeen(methods[..i + 1], pairs[name := pair.(subscribes := pair.subscribes + [methods[i]])])
  {
    var pair := PairOf(pairs, name);
    NotSeenOrSeen(methods[..i], name, pairs);
    SeenNext(methods, i, name, pair);
    AllSeenNext(methods, i, pairs, pair.(subscribes := pair.subscribes + [methods[i]]));
  }

  lemma SeeUnsubscribe(methods: seq<Method>, i: nat, pairs: map<string, Pair>, name: string)
    requires i < |methods| && AllSeen(methods[..i], pairs) && methods[i].kind == Unsubscribe(name)
    ensures var pair := PairOf(pairs, name);
      if pair.unsubscribe.Some? then |OfKind(methods, Unsubscribe(name))| >= 2
      else AllSeen(methods[..i + 1], pairs[name := pair.(unsubscribe := Some(methods[i]))])
  {
    var pair := PairOf(pairs, name);
    NotSeenOrSeen(methods[..i], name, pairs);
    SeenNext(methods, i, name, pair);
    if pair.unsubscribe.None? {
      AllSeenNext(methods, i, pairs, pair.(unsubscribe := Some(methods[i])));
    }
  }

  /** The plain registrations in order, and the pubsub methods by subscription. */
  method CollectPairs(methods: seq<Method>)
    returns (complaint: Option<Complaint>, rs: seq<Registration>, pairs: map<string, Pair>)
    ensures complaint.Some? ==> complaint.value.AlreadyDefined? && Justified(methods, complaint.value)
    ensures complaint.None? ==>
      AllSeen(methods, pairs) && Registered(methods, rs) && AllFaithful(methods, rs)
  {
    complaint, rs, pairs := None, [], map[];
    for i := 0 to |methods|
      invariant AllSeen(methods[..i], pairs) && Registered(methods[..i], rs)
      invariant AllFaithful(methods, rs)
    {
      var item := methods[i];
      match item.kind {
        case Rpc(hasMetadata, isNotification) =>
          var r := if isNotification then Notification(item, hasMetadata) else Standard(item, hasMetadata);
          RegisterPlain(methods, i, rs, r);
          AllSeenSame(methods, i, pairs);
          rs := rs + [r];
        case Subscribe(name) =>
          var pair := PairOf(pairs, name);
          SeeSubscribe(methods, i, pairs, name);
          SkipPubSub(methods, i, rs);
          pairs := pairs[name := pair.(subscribes := pair.subscribes + [item])];
        case Unsubscribe(name) =>
          var pair := PairOf(pairs, name);
          SeeUnsubscribe(methods, i, pairs, name);
          if pair.unsubscribe.Some? {
            complaint := Some(AlreadyDefined(name));
            return;
          }
          SkipPubSub(methods, i, rs);
          pairs := pairs[name := pair.(unsubscribe := Some(item))];
      }
    }
    assert methods[..|methods|] == methods;
  }

  lemma NotSeenOrSeen(methods: seq<Method>, name: string, pairs: map<string, Pair>)
    requires AllSeen(methods, pairs)
    ensures Seen(methods, name, PairOf(pairs, name))
  {
    if name !in pairs {
      NotSeen(methods, name);
    }
  }

  /** One subscription, complete or complained about. */
  method RegisterSubscription(
    methods: seq<Method>, name: string, pair: Pair) returns (r: Result<Registration, Complaint>)
    requires name in Names(methods) && Seen(methods, name, pair)
    ensures r.Ok? <==> Complete(methods, name)
    ensures r.Ok? ==> r.value.PubSub? && r.value.name == name && Faithful(methods, r.value)
    ensures r.Err? ==> Justified(methods, r.error)
  {
    if pair.unsubscribe.None? {
      return Err(MissingUnsubscribe(name));
    }
    if pair.subscribes == [] {
      return Err(MissingSubscribe(name));
    }
    var same := SameSubscriber(pair.subscribes);
    if !same {
      return Err(InconsistentSubscriber(name));
    }
    r := Ok(PubSub(name, pair.subscribes, pair.unsubscribe.value));
  }

  /** The plain methods and those of the subscriptions in `done`, all complete, are registered. */
  ghost predicate Standing(methods: seq<Method>, done: set<string>, rs: seq<Registration>) {
    && PlainIn(rs) == PlainOf(methods) && AllFaithful(methods, rs)
    && (forall m :: Counted(methods, done, rs, m))
    && (forall name :: name in done ==> Complete(methods, name))
  }

  lemma CountedPair(methods: seq<Method>, done: set<string>, rs: seq<Registration>, r: Registration, m: Method)
    requires Counted(methods, done, rs, m) && r.PubSub? && r.name !in done && Faithful(methods, r)
    ensures Counted(methods, done + {r.name}, rs + [r], m)
  {
    assert (rs + [r])[..|rs|] == rs;
    PairMembers(methods, r, m);
  }

  lemma StandingNext(methods: seq<Method>, done: set<string>, rs: seq<Registration>, r: Registration)
    requires Standing(methods, done, rs)
    requires r.PubSub? && r.name !in done && Faithful(methods, r) && Complete(methods, r.name)
    ensures Standing(methods, done + {r.name}, rs + [r])
  {
    assert (rs + [r])[..|rs|] == rs;
    forall m: Method
      ensures Counted(methods, done + {r.name}, rs + [r], m)
    {
      assert Counted(methods, done, rs, m);
      CountedPair(methods, done, rs, r, m);
    }
  }

  lemma AllRegistered(methods: seq<Method>, rs: seq<Registration>)
    requires Standing(methods, Names(methods), rs)
    ensures AllMembers(rs) == multiset(methods)
  {
    forall m: Method
      ensures AllMembers(rs)[m] == multiset(methods)[m]
    {
      assert Counted(methods, Names(methods), rs, m);
      if m in multiset(methods) {
        assert m in methods;
      }
    }
  }

  method RegisterNext(
    methods: seq<Method>, ghost done: set<string>, rs: seq<Registration>, name: string, pair: Pair)
    returns (r: Result<seq<Registration>, Complaint>)
    requires name in Names(methods) && Seen(methods, name, pair) && name !in done && Standing(methods, done, rs)
    ensures r.Ok? ==> Standing(methods, done + {name}, r.value)
    ensures r.Err? ==> Justified(methods, r.error)
  {
    var one := RegisterSubscription(methods, name, pair);
    if one.Err? {
      return Err(one.error);
    }
    StandingNext(methods, done, rs, one.value);
    r := Ok(rs + [one.value]);
  }

  lemma TakeOne(names: set<string>, rest: set<string>, done: set<string>, name: string)
    requires rest <= names && done == names - rest && name in rest
    ensures name in names && name !in done
    ensures rest - {name} <= names && done + {name} == names - (rest - {name})
  {
  }

  /** The subscriptions, in no particular order. */
  method RegisterSubscriptions(methods: seq<Method>, plain: seq<Registration>, pairs: map<string, Pair>)
    returns (r: Result<seq<Registration>, Complaint>)
    requires AllSeen(methods, pairs) && Standing(methods, {}, plain)
    ensures r.Ok? ==> Standing(methods, Names(methods), r.value)
    ensures r.Err? ==> Justified(methods, r.error)
  {
    var rest := pairs.Keys;
    ghost var done: set<string> := {};
    r := Ok(plain);
    while rest != {}
      invariant rest <= pairs.Keys && done == pairs.Keys - rest
      invariant r.Ok? && Standing(methods, done, r.value)
    {
      var name :| name in rest;
      TakeOne(pairs.Keys, rest, done, name);
      r := RegisterNext(methods, done, r.value, name, pairs[name]);
      if r.Err? {
        return;
      }
      rest, done := rest - {name}, done + {name};
    }
    assert done == Names(methods);
  }

  /**
   Succeeds exactly when every subscription is complete; then every method is in exactly one
   registration, which repeats its annotation, the plain ones in order. A complaint is justified.
   */
  method ComputeRegistrations(methods: seq<Method>) returns (r: Result<seq<Registration>, Complaint>)
    ensures r.Ok? <==> forall name :: name in Names(methods) ==> Complete(methods, name)
    ensures r.Ok? ==> AllMembers(r.value) == multiset(methods)
    ensures r.Ok? ==> PlainIn(r.value) == PlainOf(methods)
    ensures r.Ok? ==> forall reg :: reg in r.value ==> Faithful(methods, reg)
    ensures r.Err? ==> Justified(methods, r.error)
  {
    var complaint, plain, pairs := CollectPairs(methods);
    if complaint.Some? {
      r := Err(complaint.value);
    } else {
      r := RegisterSubscriptions(methods, plain, pairs);
    }
    if r.Err? {
      ComplaintIsFatal(methods, r.error);
    } else {
      AllRegistered(methods, r.value);
    }
  }

  /** A justified complaint names a subscription that is not complete. */
  lemma ComplaintIsFatal(methods: seq<Method>, complaint: Complaint)
    requires Justified(methods, complaint)
    ensures complaint.name in Names(methods) && !Complete(methods, complaint.name)
  {
    if complaint.name !in Names(methods) {
      NotSeen(methods, complaint.name);
    }
  }
}
