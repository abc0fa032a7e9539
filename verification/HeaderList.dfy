/** Lists of header names: joined in a response, split in a request. */
module HeaderList {
  import opened Splitting

  const COMMA := ", "

  /** Every name followed by the separator. */
  function Followed(names: seq<string>): string {
    if names == [] then "" else names[0] + COMMA + Followed(names[1..])
  }

  /** The value of a header in a response: the separator is dropped after the last name. */
  function Join(names: seq<string>): string {
    var all := Followed(names);
    if |all| < |COMMA| then "" else all[..|all| - |COMMA|]
  }

  function SplitEach(pieces: seq<string>): seq<string> {
    if pieces == [] then [] else Split(pieces[0], ",") + SplitEach(pieces[1..])
  }

  /** The names in the value of a request header. */
  function Names(value: string): seq<string> { SplitEach(Split(value, COMMA)) }

  predicate CommaFree(names: seq<string>) { forall i :: 0 <= i < |names| ==> ',' !in names[i] }

  lemma {:induction false} FollowedLong(names: seq<string>)
    requires names != []
    ensures |Followed(names)| >= |COMMA|
    ensures Join(names) == names[0] + (if |names| == 1 then "" else COMMA + Join(names[1..]))
  {
    var all := Followed(names);
    if |names| > 1 {
      FollowedLong(names[1..]);
      var rest := Followed(names[1..]);
      assert all[..|all| - |COMMA|] == names[0] + COMMA + rest[..|rest| - |COMMA|];
    } else {
      assert names[1..] == [];
      assert Followed(names[1..]) == "";
      assert all == names[0] + COMMA;
      assert all[..|all| - |COMMA|] == names[0] + "";
    }
  }

  lemma FirstPiece(name: string, rest: string)
    requires ',' !in name
    ensures Split(name, COMMA) == [name]
    ensures Split(name + COMMA + rest, COMMA) == [name] + Split(rest, COMMA)
  {
    FreeWithout(name, COMMA);
    CutAt(name, COMMA, rest);
  }

  lemma {:induction false} JoinSplits(names: seq<string>)
    requires names != [] && CommaFree(names)
    ensures Split(Join(names), COMMA) == names
  {
    var name, rest := names[0], names[1..];
    FollowedLong(names);
    FirstPiece(name, Join(rest));
    assert names == [name] + rest;
    if rest == [] {
      assert Join(names) == name;
    } else {
      assert Join(names) == name + COMMA + Join(rest);
      JoinSplits(rest);
    }
  }

  lemma {:induction false} SplitEachSame(names: seq<string>)
    requires CommaFree(names)
    ensures SplitEach(names) == names
  {
    if names != [] {
      FreeWithout(names[0], ",");
      SplitEachSame(names[1..]);
    }
  }

  lemma {:induction false} SplitIsCommaFree(s: string)
    ensures CommaFree(Split(s, ","))
    decreases |s|
  {
    var (piece, rest) := Cut(s, ",");
    HeadWithoutChar(s, ',');
    if rest.Some? {
      SplitIsCommaFree(rest.value);
    }
  }

  lemma {:induction false} SplitEachIsCommaFree(pieces: seq<string>)
    ensures CommaFree(SplitEach(pieces)) && (pieces != [] ==> SplitEach(pieces) != [])
  {
    if pieces != [] {
      SplitIsCommaFree(pieces[0]);
      SplitEachIsCommaFree(pieces[1..]);
    }
  }

  /** A list comes back from its joined form exactly when it is not empty and no name holds a comma. */
  lemma ListRoundTripIff(names: seq<string>)
    ensures Names(Join(names)) == names <==> names != [] && CommaFree(names)
  {
    SplitEachIsCommaFree(Split(Join(names), COMMA));
    if names != [] && CommaFree(names) {
      JoinSplits(names);
      SplitEachSame(names);
    }
  }
}
