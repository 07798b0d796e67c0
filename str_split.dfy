/** Splitting a string on a single-character delimiter, as absl::StrSplit
    does with a character delimiter, and the inverse join. */
module StrSplit {

  /** The pieces of `s` between occurrences of `delim`, in order. Empty
      pieces are kept: the empty string gives one empty piece, and a string
      with n delimiters gives n + 1 pieces (SplitCount). */
  function Split(s: string, delim: char): (pieces: seq<string>)
    ensures |pieces| >= 1
    decreases |s|
  {
    if s == [] then [""]
    else
      assert s == [s[0]] + s[1..];
      var rest := Split(s[1..], delim);
      if s[0] == delim then [""] + rest
      else [[s[0]] + rest[0]] + rest[1..]
  }

  /** One piece more than there are delimiters in the input. */
  lemma {:induction false} SplitCount(s: string, delim: char)
    ensures |Split(s, delim)| == multiset(s)[delim] + 1
  {
    if s != [] {
      SplitCount(s[1..], delim);
      assert s == [s[0]] + s[1..];
      assert multiset(s) == multiset{s[0]} + multiset(s[1..]);
    }
  }

  /** The pieces put back together with `delim` between neighbours. */
  function Join(pieces: seq<string>, delim: char): string
    requires |pieces| >= 1
  {
    if |pieces| == 1 then pieces[0] else pieces[0] + [delim] + Join(pieces[1..], delim)
  }

  /** No piece contains the delimiter. */
  lemma {:induction false} SplitPiecesAvoidDelimiter(s: string, delim: char)
    ensures forall p :: p in Split(s, delim) ==> delim !in p
  {
    if s != [] {
      SplitPiecesAvoidDelimiter(s[1..], delim);
      var rest := Split(s[1..], delim);
      if s[0] != delim {
        assert forall p :: p in rest[1..] ==> p in rest;
        assert delim !in rest[0];
      }
    }
  }

  /** Nothing is lost by splitting: joining the pieces gives the input back. */
  lemma {:induction false} JoinSplit(s: string, delim: char)
    ensures Join(Split(s, delim), delim) == s
  {
    if s != [] {
      JoinSplit(s[1..], delim);
      JoinSplitStep(s, delim);
    }
  }

  /** One step of JoinSplit: the claim for `s` follows from the claim for its tail. */
  lemma JoinSplitStep(s: string, delim: char)
    requires s != []
    requires Join(Split(s[1..], delim), delim) == s[1..]
    ensures Join(Split(s, delim), delim) == s
  {
    var rest := Split(s[1..], delim);
    var pieces := Split(s, delim);
    assert s == [s[0]] + s[1..];
    if s[0] == delim {
      assert pieces == [""] + rest;
      assert pieces[1..] == rest;
      assert Join(pieces, delim) == pieces[0] + [delim] + Join(rest, delim);
    } else {
      assert pieces == [[s[0]] + rest[0]] + rest[1..];
      if |rest| == 1 {
        assert Join(pieces, delim) == pieces[0];
      } else {
        assert pieces[1..] == rest[1..];
        assert Join(pieces, delim) == pieces[0] + [delim] + Join(rest[1..], delim);
        assert Join(rest, delim) == rest[0] + [delim] + Join(rest[1..], delim);
      }
    }
  }

  /** A string without the delimiter is a single piece. */
  lemma {:induction false} SplitWithoutDelimiter(p: string, delim: char)
    requires delim !in p
    ensures Split(p, delim) == [p]
  {
    if p != [] {
      SplitWithoutDelimiter(p[1..], delim);
      assert p == [p[0]] + p[1..];
    }
  }

  /** A delimiter-free piece followed by the delimiter splits off as one piece. */
  lemma {:induction false} SplitAfterPiece(p: string, delim: char, rest: string)
    requires delim !in p
    ensures Split(p + [delim] + rest, delim) == [p] + Split(rest, delim)
  {
    if p == [] {
      assert p + [delim] + rest == [delim] + rest;
    } else {
      SplitAfterPiece(p[1..], delim, rest);
      assert (p + [delim] + rest)[1..] == p[1..] + [delim] + rest;
      assert [p[0]] + p[1..] == p;
    }
  }

  /** Splitting undoes joining pieces that are free of the delimiter. */
  lemma {:induction false} SplitJoin(pieces: seq<string>, delim: char)
    requires |pieces| >= 1
    requires forall p :: p in pieces ==> delim !in p
    ensures Split(Join(pieces, delim), delim) == pieces
  {
    if |pieces| == 1 {
      SplitWithoutDelimiter(pieces[0], delim);
    } else {
      SplitJoin(pieces[1..], delim);
      SplitAfterPiece(pieces[0], delim, Join(pieces[1..], delim));
      assert [pieces[0]] + pieces[1..] == pieces;
    }
  }
}
