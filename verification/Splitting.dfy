/** Cutting strings at separators. */
module Splitting {
  import opened Basics

  /** The part before the first separator and, if there is one, the part after it. */
  function Cut(s: string, sep: string): (r: (string, Option<string>))
    requires sep != []
    ensures r.1.Some? ==> |r.1.value| < |s|
  {
    if sep <= s then ([], Some(s[|sep|..]))
    else if s == [] then ([], None)
    else
      var (front, rest) := Cut(s[1..], sep);
      ([s[0]] + front, rest)
  }

  /** Cutting loses nothing but the separator. */
  lemma {:induction false} CutIsWhole(s: string, sep: string)
    requires sep != []
    ensures var (front, rest) := Cut(s, sep); s == front + (if rest.Some? then sep + rest.value else [])
  {
    if !(sep <= s) && s != [] {
      CutIsWhole(s[1..], sep);
    }
  }

  /** The first piece of a split. */
  function Head(s: string, sep: string): string
    requires sep != []
  {
    Cut(s, sep).0
  }

  /** All the pieces of a split. */
  function Split(s: string, sep: string): (pieces: seq<string>)
    requires sep != []
    ensures pieces != []
    decreases |s|
  {
    match Cut(s, sep)
    case (piece, None) => [piece]
    case (piece, Some(rest)) => [piece] + Split(rest, sep)
  }

  predicate Free(s: string, sep: string)
    requires sep != []
  {
    Cut(s, sep).1.None?
  }

  /** The first piece of a split does not hold the separator. */
  lemma {:induction false} HeadIsFree(s: string, sep: string)
    requires sep != []
    ensures Free(Head(s, sep), sep) && Head(s, sep) <= s
  {
    if !(sep <= s) && s != [] {
      var front := Head(s[1..], sep);
      HeadIsFree(s[1..], sep);
      assert ([s[0]] + front)[1..] == front;
      assert [s[0]] + front <= s;
    }
  }

  /** A separator whose first character does not occur before it is found. */
  lemma {:induction false} CutAt(front: string, sep: string, rest: string)
    requires sep != [] && sep[0] !in front
    ensures Cut(front + sep + rest, sep) == (front, Some(rest))
  {
    var s := front + sep + rest;
    if front == [] {
      assert s == sep + rest;
    } else {
      var next := front[1..];
      CutAt(next, sep, rest);
      assert s[1..] == next + sep + rest;
      assert s[0] == front[0] != sep[0];
      assert front == [front[0]] + next;
    }
  }

  lemma {:induction false} FreeWithout(s: string, sep: string)
    requires sep != [] && sep[0] !in s
    ensures Cut(s, sep) == (s, None)
  {
    if s != [] {
      FreeWithout(s[1..], sep);
      assert s == [s[0]] + s[1..];
    }
  }

  /** A string free of a one-character separator does not hold that character. */
  lemma {:induction false} FreeOfChar(s: string, c: char)
    requires Free(s, [c])
    ensures c !in s
  {
    if s != [] {
      assert [c] <= s <==> s[0] == c;
      FreeOfChar(s[1..], c);
    }
  }

  lemma HeadWithoutChar(s: string, c: char)
    ensures c !in Head(s, [c])
    ensures forall d :: d in Head(s, [c]) ==> d in s
  {
    HeadIsFree(s, [c]);
    FreeOfChar(Head(s, [c]), c);
  }

  lemma {:induction false} FreeIsWhole(s: string, sep: string)
    requires sep != [] && Free(s, sep)
    ensures Cut(s, sep) == (s, None)
  {
    if s != [] {
      FreeIsWhole(s[1..], sep);
      assert s == [s[0]] + s[1..];
    }
  }

  lemma PartsOf(s: string, sep: string)
    requires sep != []
    ensures var (front, rest) := Cut(s, sep);
      (forall c :: c in front ==> c in s) && (rest.Some? ==> forall c :: c in rest.value ==> c in s)
  {
    CutIsWhole(s, sep);
  }

  // ---------------------------------------------------------------- the protocol separator

  const SLASHES := "://"

  lemma StartsWithSlashes(s: string)
    ensures SLASHES <= s <==> |s| >= 3 && s[0] == ':' && s[1] == '/' && s[2] == '/'
  {
  }

  /** No proper beginning of the separator is also its end, so it is found right after a string free of it. */
  lemma {:induction false} CutAtSlashes(front: string, rest: string)
    requires Free(front, SLASHES)
    ensures Cut(front + SLASHES + rest, SLASHES) == (front, Some(rest))
  {
    var s := front + SLASHES + rest;
    if front == [] {
      assert s == SLASHES + rest;
    } else {
      NotYet(front, rest);
      assert s[1..] == front[1..] + SLASHES + rest;
      CutAtSlashes(front[1..], rest);
      assert front == [front[0]] + front[1..];
    }
  }

  lemma NotYet(front: string, rest: string)
    requires front != [] && Free(front, SLASHES)
    ensures !(SLASHES <= front + SLASHES + rest)
  {
    var s := front + SLASHES + rest;
    StartsWithSlashes(s);
    StartsWithSlashes(front);
    assert |front| == 1 ==> s[1] == ':';
    assert |front| == 2 ==> s[2] == ':';
  }

  lemma {:induction false} NoSlashNoSlashes(s: string)
    requires '/' !in s
    ensures Cut(s, SLASHES) == (s, None)
  {
    if s != [] {
      StartsWithSlashes(s);
      NoSlashNoSlashes(s[1..]);
      assert s == [s[0]] + s[1..];
    }
  }
}
