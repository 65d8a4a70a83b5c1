/** The functions of Go's `strings` package that the provider uses, for a
    cut set or separator of one character (the provider only ever passes
    "/" and ","). */
module GoStrings {

  predicate AllChar(s: string, c: char) {
    forall i :: 0 <= i < |s| ==> s[i] == c
  }

  /** Neither end of `s` is `c`. */
  predicate TrimmedOf(s: string, c: char) {
    s == [] || (s[0] != c && s[|s| - 1] != c)
  }

  /** `strings.TrimLeft(s, string(c))`: `r` is the suffix of `s` left once
      the leading run of `c` is gone. */
  function TrimLeft(s: string, c: char): (r: string)
    ensures |r| <= |s| && r == s[|s| - |r|..]
    ensures AllChar(s[..|s| - |r|], c)
    ensures r == [] || r[0] != c
  {
    if |s| > 0 && s[0] == c then
      var r := TrimLeft(s[1..], c);
      assert s[1..][|s| - 1 - |r|..] == s[|s| - |r|..];
      assert s[..|s| - |r|] == [c] + s[1..][..|s| - 1 - |r|];
      r
    else s
  }

  /** `strings.TrimRight(s, string(c))`: `r` is the prefix of `s` left once
      the trailing run of `c` is gone. */
  function TrimRight(s: string, c: char): (r: string)
    ensures |r| <= |s| && r == s[..|r|]
    ensures AllChar(s[|r|..], c)
    ensures r == [] || r[|r| - 1] != c
  {
    if |s| > 0 && s[|s| - 1] == c then
      var r := TrimRight(s[..|s| - 1], c);
      assert s[..|s| - 1][..|r|] == s[..|r|];
      assert s[|r|..] == s[..|s| - 1][|r|..] + [c];
      r
    else s
  }

  /** `strings.Trim(s, string(c))`: `s` is `r` with runs of `c` around it,
      and neither end of `r` is `c`. */
  function Trim(s: string, c: char): (r: string)
    ensures TrimmedOf(r, c)
    ensures |r| <= |s|
    ensures exists a :: TrimmedAt(s, c, r, a)
  {
    var left := TrimLeft(s, c);
    var r := TrimRight(left, c);
    var a := |s| - |left|;
    assert r == left[..|r|];
    assert s[a..a + |r|] == r by {
      assert left == s[a..];
    }
    assert AllChar(s[a + |r|..], c) by {
      assert s[a + |r|..] == left[|r|..];
    }
    assert TrimmedOf(r, c) by {
      if r != [] {
        assert r[0] == left[0];
      }
    }
    assert TrimmedAt(s, c, r, a);
    r
  }

  /** `s` is `r` at offset `a` with nothing but `c` before and after it. */
  predicate TrimmedAt(s: string, c: char, r: string, a: int) {
    0 <= a <= |s| - |r| && s[a..a + |r|] == r
    && AllChar(s[..a], c) && AllChar(s[a + |r|..], c)
  }

  /** A string whose ends are not `c` is its own trim. */
  lemma TrimOfTrimmed(s: string, c: char)
    requires TrimmedOf(s, c)
    ensures Trim(s, c) == s
  {
  }

  /** Trimming twice trims no more than trimming once. */
  lemma TrimIdempotent(s: string, c: char)
    ensures Trim(Trim(s, c), c) == Trim(s, c)
  {
    TrimOfTrimmed(Trim(s, c), c);
  }

  /** One more `c` at either end makes no difference to the trim. */
  lemma {:induction false} TrimIgnoresOuterChar(s: string, c: char)
    ensures Trim([c] + s, c) == Trim(s, c)
    ensures Trim(s + [c], c) == Trim(s, c)
  {
    assert ([c] + s)[1..] == s;
    TrimRightIgnoresLastChar(TrimLeft(s, c), c);
    TrimLeftAppend(s, c);
  }

  lemma TrimRightIgnoresLastChar(s: string, c: char)
    ensures TrimRight(s + [c], c) == TrimRight(s, c)
  {
    assert (s + [c])[..|s + [c]| - 1] == s;
  }

  /** Appending `c` after `s` changes the left trim only by that `c`. */
  lemma {:induction false} TrimLeftAppend(s: string, c: char)
    ensures TrimRight(TrimLeft(s + [c], c), c) == TrimRight(TrimLeft(s, c), c)
  {
    if |s| > 0 && s[0] == c {
      assert (s + [c])[1..] == s[1..] + [c];
      TrimLeftAppend(s[1..], c);
    } else if |s| == 0 {
      assert TrimLeft([c], c) == TrimLeft([c][1..], c);
    } else {
      assert TrimLeft(s + [c], c) == s + [c];
      TrimRightIgnoresLastChar(s, c);
    }
  }

  /** `strings.HasPrefix(s, p)`. */
  predicate HasPrefix(s: string, p: string) {
    |p| <= |s| && s[..|p|] == p
  }

  /** `strings.Join(xs, string(sep))`: the first element comes first and is
      followed by a separator when more elements follow; joining elements
      free of the separator yields a separator exactly when there are two or
      more of them. */
  function Join(xs: seq<string>, sep: char): (r: string)
    ensures |xs| >= 1 ==> |xs[0]| <= |r| && r[..|xs[0]|] == xs[0]
    ensures |xs| >= 2 ==> |xs[0]| < |r| && r[|xs[0]|] == sep
    ensures (forall k :: 0 <= k < |xs| ==> sep !in xs[k]) ==> (sep in r <==> |xs| >= 2)
  {
    if |xs| == 0 then ""
    else if |xs| == 1 then xs[0]
    else xs[0] + [sep] + Join(xs[1..], sep)
  }

  /** `strings.Split(s, string(sep))`: the pieces between separators; at
      least one piece, and no piece holds the separator. */
  function Split(s: string, sep: char): (pieces: seq<string>)
    ensures |pieces| >= 1
    ensures forall k :: 0 <= k < |pieces| ==> sep !in pieces[k]
  {
    if |s| == 0 then [""]
    else if s[0] == sep then [""] + Split(s[1..], sep)
    else
      var rest := Split(s[1..], sep);
      [[s[0]] + rest[0]] + rest[1..]
  }

  /** Joining the pieces of a split gives back the string. */
  lemma {:induction false} JoinSplit(s: string, sep: char)
    ensures Join(Split(s, sep), sep) == s
  {
    if |s| == 0 {
    } else if s[0] == sep {
      JoinSplit(s[1..], sep);
      assert s == [sep] + s[1..];
    } else {
      var rest := Split(s[1..], sep);
      var pieces := [[s[0]] + rest[0]] + rest[1..];
      assert Split(s, sep) == pieces;
      JoinSplit(s[1..], sep);
      if |rest| == 1 {
        assert Join(pieces, sep) == [s[0]] + rest[0];
      } else {
        assert pieces[1..] == rest[1..];
        assert Join(pieces, sep) == [s[0]] + rest[0] + [sep] + Join(rest[1..], sep);
        assert Join(rest, sep) == rest[0] + [sep] + Join(rest[1..], sep);
      }
      assert s == [s[0]] + s[1..];
    }
  }

  /** Join peels off its first element. */
  lemma JoinCons(xs: seq<string>, sep: char)
    requires |xs| >= 1
    ensures Join(xs, sep) == xs[0] + (if |xs| == 1 then "" else [sep] + Join(xs[1..], sep))
  {
  }

  /** A string without the separator splits into itself. */
  lemma {:induction false} SplitWithoutSep(x: string, sep: char)
    requires sep !in x
    ensures Split(x, sep) == [x]
  {
    if |x| > 0 {
      assert sep != x[0] && sep !in x[1..];
      SplitWithoutSep(x[1..], sep);
      assert x == [x[0]] + x[1..];
    }
  }

  /** Splitting `x` + sep + `t`, with no separator in `x`, yields `x` first. */
  lemma {:induction false} SplitAfterPiece(x: string, t: string, sep: char)
    requires sep !in x
    ensures Split(x + [sep] + t, sep) == [x] + Split(t, sep)
  {
    var s := x + [sep] + t;
    if |x| == 0 {
      assert s[0] == sep && s[1..] == t;
    } else {
      assert s[0] == x[0] && s[0] != sep;
      assert s[1..] == x[1..] + [sep] + t;
      assert sep !in x[1..];
      SplitAfterPiece(x[1..], t, sep);
      assert x == [x[0]] + x[1..];
    }
  }

  /** Splitting a join of separator-free pieces gives back the pieces. */
  lemma {:induction false} SplitJoin(xs: seq<string>, sep: char)
    requires |xs| >= 1
    requires forall k :: 0 <= k < |xs| ==> sep !in xs[k]
    ensures Split(Join(xs, sep), sep) == xs
  {
    if |xs| == 1 {
      SplitWithoutSep(xs[0], sep);
    } else {
      SplitJoin(xs[1..], sep);
      SplitAfterPiece(xs[0], Join(xs[1..], sep), sep);
      assert xs == [xs[0]] + xs[1..];
    }
  }
}
