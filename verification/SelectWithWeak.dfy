/** Merging two streams of which only the strong one may end the merged stream. */
module SelectWithWeak {
  datatype Answer<+T> = Item(value: T) | Ended | Pending

  /** A fused stream: what it will answer, `Pending` once that is used up, and whether it has ended. */
  datatype Source<T> = Source(answers: seq<Answer<T>>, ended: bool)

  function Take<T>(s: Source<T>): (Answer<T>, Source<T>) {
    if s.ended then (Ended, s)
    else if s.answers == [] then (Pending, s)
    else (s.answers[0], Source(s.answers[1..], s.answers[0].Ended?))
  }

  datatype Side = Strong | Weak

  /** Every poll of an inner stream so far. */
  datatype Log<T> = Empty | Then(before: Log<T>, side: Side, answer: Answer<T>)

  datatype Select<T> = Select(strong: Source<T>, weak: Source<T>, useStrong: bool, log: Log<T>)

  /** What is left of a call. */
  function Rest<T>(s: Select<T>, checkedStrong: bool): (Select<T>, Answer<T>)
    decreases if checkedStrong then 0 else 2, if s.useStrong then 0 else 1
  {
    if s.useStrong then
      var (answer, strong) := Take(s.strong);
      var log := Then(s.log, Strong, answer);
      match answer
      case Item(_) => (Select(strong, s.weak, false, log), answer)
      case Ended => (Select(strong, s.weak, true, log), Ended)
      case Pending =>
        if checkedStrong then (Select(strong, s.weak, true, log), Pending)
        else Rest(Select(strong, s.weak, false, log), true)
    else
      var (answer, weak) := Take(s.weak);
      var next := Select(s.strong, weak, true, Then(s.log, Weak, answer));
      if answer.Item? then (next, answer) else Rest(next, checkedStrong)
  }

  function PollNext<T>(s: Select<T>): (Select<T>, Answer<T>) { Rest(s, false) }

  class Selector<T> {
    var strong: Source<T>
    var weak: Source<T>
    var useStrong: bool
    ghost var log: Log<T>

    ghost function Now(): Select<T>
      reads this
    {
      Select(strong, weak, useStrong, log)
    }

    constructor (strong: Source<T>, weak: Source<T>)
      ensures Now() == Select(strong, weak, false, Empty)
    {
      this.strong, this.weak, useStrong, log := strong, weak, false, Empty;
    }

    method Next() returns (r: Answer<T>)
      modifies this
      ensures (Now(), r) == PollNext(old(Now()))
    {
      var checkedStrong := false;
      while true
        invariant PollNext(old(Now())) == Rest(Now(), checkedStrong)
        decreases if checkedStrong then 0 else 2, if useStrong then 0 else 1
      {
        if useStrong {
          var (answer, source) := Take(strong);
          strong, log := source, Then(log, Strong, answer);
          match answer {
            case Item(_) =>
              useStrong := false;
              return answer;
            case Ended => return Ended;
            case Pending =>
              if !checkedStrong {
                useStrong := false;
              } else {
                return Pending;
              }
          }
          checkedStrong := true;
        } else {
          useStrong := true;
          var (answer, source) := Take(weak);
          weak, log := source, Then(log, Weak, answer);
          if answer.Item? {
            return answer;
          }
        }
      }
    }
  }

  // ---------------------------------------------------------------- one call

  function Polls<T>(log: Log<T>): nat { if log.Empty? then 0 else 1 + Polls(log.before) }

  function Valued<T>(answer: Answer<T>): seq<T> { if answer.Item? then [answer.value] else [] }

  /** The items that polls of either side gave, in order. */
  function Items<T>(log: Log<T>): seq<T> { if log.Empty? then [] else Items(log.before) + Valued(log.answer) }

  /** The items that polls of one side gave, in order. */
  function ItemsFrom<T>(side: Side, log: Log<T>): seq<T> {
    if log.Empty? then []
    else if log.side == side then ItemsFrom(side, log.before) + Valued(log.answer)
    else ItemsFrom(side, log.before)
  }

  lemma {:induction false} RestIsHonest<T>(s: Select<T>, checked: bool)
    ensures var (next, answer) := Rest(s, checked);
      && next.log.Then? && next.log.answer == answer
      && Items(next.log) == Items(s.log) + Valued(answer)
      && Polls(next.log) <= Polls(s.log) + (if checked then 1 else 3) + (if s.useStrong then 0 else 1)
      && (!answer.Item? ==> next.log.side == Strong && next.useStrong)
      && (answer.Ended? ==> next.strong.ended)
      && (answer.Pending? && Polls(next.log) >= Polls(s.log) + 2 ==>
            next.log.before.Then? && next.log.before.side == Weak && !next.log.before.answer.Item?)
      && (answer.Pending? && !(checked && s.useStrong) ==> Polls(next.log) >= Polls(s.log) + 2)
      && (answer.Pending? && checked && s.useStrong ==> next.log.before == s.log)
    decreases if checked then 0 else 2, if s.useStrong then 0 else 1
  {
    if s.useStrong {
      var (answer, strong) := Take(s.strong);
      if answer.Pending? && !checked {
        RestIsHonest(Select(strong, s.weak, false, Then(s.log, Strong, answer)), true);
      }
    } else {
      var (answer, weak) := Take(s.weak);
      if !answer.Item? {
        RestIsHonest(Select(s.strong, weak, true, Then(s.log, Weak, answer)), checked);
      }
    }
  }

  /**
   A call makes at most four polls and answers what the last one said, the only one with an item. It
   tells the end only when the strong stream ended, and `Pending` only when it polled both streams
   and neither had an item when last polled.
   */
  lemma CallIsHonest<T>(s: Select<T>)
    ensures var (next, answer) := PollNext(s);
      && next.log.Then? && next.log.answer == answer
      && Items(next.log) == Items(s.log) + Valued(answer)
      && Polls(s.log) < Polls(next.log) <= Polls(s.log) + 4
      && (answer.Ended? ==> next.log.side == Strong && next.strong.ended)
      && (answer.Pending? ==>
            && Polls(next.log) >= Polls(s.log) + 2 && next.log.side == Strong
            && next.log.before.side == Weak && !next.log.before.answer.Item?)
  {
    RestIsHonest(s, false);
    RestExtends(s, false);
  }

  lemma {:induction false} RestExtends<T>(s: Select<T>, checked: bool)
    ensures Polls(Rest(s, checked).0.log) > Polls(s.log)
    decreases if checked then 0 else 2, if s.useStrong then 0 else 1
  {
    if s.useStrong {
      var (answer, strong) := Take(s.strong);
      if answer.Pending? && !checked {
        RestExtends(Select(strong, s.weak, false, Then(s.log, Strong, answer)), true);
      }
    } else {
      var (answer, weak) := Take(s.weak);
      if !answer.Item? {
        RestExtends(Select(s.strong, weak, true, Then(s.log, Weak, answer)), checked);
      }
    }
  }

  // ---------------------------------------------------------------- runs

  function Run<T>(s: Select<T>, n: nat): (Select<T>, seq<Answer<T>>) {
    if n == 0 then (s, [])
    else
      var before := Run(s, n - 1);
      var call := PollNext(before.0);
      (call.0, before.1 + [call.1])
  }

  /** The items among the answers of the merged stream, in order. */
  function Output<T>(answers: seq<Answer<T>>): seq<T> {
    if answers == [] then [] else Output(answers[..|answers| - 1]) + Valued(answers[|answers| - 1])
  }

  /** The items a stream has still to give. */
  function Supply<T>(s: Source<T>): seq<T>
    decreases |s.answers|
  {
    if s.ended || s.answers == [] then []
    else
      var (answer, rest) := Take(s);
      Valued(answer) + Supply(rest)
  }

  /** The weak stream is never polled twice running, nor the strong one after it gave an item. */
  predicate TakesTurns<T>(log: Log<T>) {
    log.Empty? || log.before.Empty? ||
    (&& TakesTurns(log.before)
     && (log.before.side == Weak ==> log.side == Strong)
     && (log.before.side == Strong && log.before.answer.Item? ==> log.side == Weak))
  }

  /** What holds after every single poll, started from the streams `strong` and `weak`. */
  ghost predicate Merging<T>(strong: Source<T>, weak: Source<T>, s: Select<T>) {
    && Supply(strong) == ItemsFrom(Strong, s.log) + Supply(s.strong)
    && Supply(weak) == ItemsFrom(Weak, s.log) + Supply(s.weak)
    && TakesTurns(s.log)
    && (s.log.Then? && s.log.side == Weak ==> s.useStrong)
    && (s.log.Then? && s.log.side == Strong && s.log.answer.Item? ==> !s.useStrong)
  }

  lemma SupplyTake<T>(given: seq<T>, s: Source<T>, all: seq<T>)
    requires all == given + Supply(s)
    ensures var (answer, rest) := Take(s); all == given + Valued(answer) + Supply(rest)
  {
  }

  lemma {:induction false} RestMerges<T>(strong: Source<T>, weak: Source<T>, s: Select<T>, checked: bool)
    requires Merging(strong, weak, s)
    ensures Merging(strong, weak, Rest(s, checked).0)
    decreases if checked then 0 else 2, if s.useStrong then 0 else 1
  {
    if s.useStrong {
      SupplyTake(ItemsFrom(Strong, s.log), s.strong, Supply(strong));
      var (answer, source) := Take(s.strong);
      if answer.Pending? && !checked {
        RestMerges(strong, weak, Select(source, s.weak, false, Then(s.log, Strong, answer)), true);
      }
    } else {
      SupplyTake(ItemsFrom(Weak, s.log), s.weak, Supply(weak));
      var (answer, source) := Take(s.weak);
      if !answer.Item? {
        RestMerges(strong, weak, Select(s.strong, source, true, Then(s.log, Weak, answer)), checked);
      }
    }
  }

  /**
   Over every run the output is a merge of what the two streams gave, in the order of the polls,
   nothing lost and nothing repeated; and the streams take turns.
   */
  lemma {:induction false} RunMerges<T>(strong: Source<T>, weak: Source<T>, n: nat)
    ensures var (s, answers) := Run(Select(strong, weak, false, Empty), n);
      && Output(answers) == Items(s.log)
      && Supply(strong) == ItemsFrom(Strong, s.log) + Supply(s.strong)
      && Supply(weak) == ItemsFrom(Weak, s.log) + Supply(s.weak)
      && TakesTurns(s.log)
    ensures Merging(strong, weak, Run(Select(strong, weak, false, Empty), n).0)
  {
    if n > 0 {
      RunMerges(strong, weak, n - 1);
      var (s, answers) := Run(Select(strong, weak, false, Empty), n - 1);
      RestMerges(strong, weak, s, false);
      RestIsHonest(s, false);
      var all := answers + [PollNext(s).1];
      assert all[..|all| - 1] == answers;
    }
  }

  /** Once the merged stream has ended it stays ended. */
  lemma {:induction false} EndIsFinal<T>(s: Select<T>, n: nat)
    requires PollNext(s).1.Ended?
    ensures PollNext(Run(s, n + 1).0).1.Ended? && Run(s, n + 1).0.strong.ended && Run(s, n + 1).0.useStrong
  {
    if n == 0 {
      RestIsHonest(s, false);
    } else {
      EndIsFinal(s, n - 1);
    }
  }

  /** A stream that always has an item, until `items` is used up. */
  function Ready<T>(items: seq<T>): Source<T> {
    Source(seq(|items|, i requires 0 <= i < |items| => Item(items[i])), false)
  }

  lemma ReadyTake<T>(items: seq<T>, k: nat)
    requires k < |items|
    ensures Take(Ready(items[k..])) == (Item(items[k]), Ready(items[k + 1..]))
  {
    assert Ready(items[k..]).answers[1..] == Ready(items[k + 1..]).answers;
  }

  /** Two streams that always have an item are heard by turns, the weak one first. */
  lemma {:induction false} ReadyStreamsAlternate<T>(strong: seq<T>, weak: seq<T>, n: nat)
    requires n <= |strong| && n <= |weak|
    ensures var (s, answers) := Run(Select(Ready(strong), Ready(weak), false, Empty), n);
      && s.strong == Ready(strong[n / 2..]) && s.weak == Ready(weak[(n + 1) / 2..]) && s.useStrong == (n % 2 == 1)
      && |answers| == n
      && forall i :: 0 <= i < n ==> answers[i] == Item(if i % 2 == 0 then weak[i / 2] else strong[i / 2])
  {
    if n == 0 {
      assert strong[0..] == strong && weak[0..] == weak;
    } else {
      ReadyStreamsAlternate(strong, weak, n - 1);
      if n % 2 == 0 {
        ReadyTake(strong, n / 2 - 1);
      } else {
        ReadyTake(weak, n / 2);
      }
    }
  }
}
