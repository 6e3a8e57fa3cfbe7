/** The part of Go's `strings` package that the command engine relies on:
    `strings.Split(text, " ")` with a one-character separator. */
module Strings {

  const Space: char := ' '

  /** `strings.Split(s, " ")`: the pieces between the spaces of `s`, empty
      pieces included; the empty string gives one empty piece. */
  function Split(s: string): (pieces: seq<string>)
    ensures |pieces| >= 1
    decreases |s|
  {
    if |s| == 0 then [""]
    else
      var rest := Split(s[1..]);
      if s[0] == Space then [""] + rest
      else [[s[0]] + rest[0]] + rest[1..]
  }

  /** `strings.Join(pieces, " ")`, the inverse of Split. */
  function Join(pieces: seq<string>): (s: string)
    requires |pieces| >= 1
    decreases |pieces|
  {
    if |pieces| == 1 then pieces[0] else pieces[0] + [Space] + Join(pieces[1..])
  }

  /** Number of spaces in `s`. */
  function Spaces(s: string): nat
    decreases |s|
  {
    if |s| == 0 then 0 else (if s[0] == Space then 1 else 0) + Spaces(s[1..])
  }

  /** Splitting and joining again gives back the text. */
  lemma {:induction false} JoinSplit(s: string)
    ensures Join(Split(s)) == s
    decreases |s|
  {
    if |s| > 0 {
      JoinSplit(s[1..]);
      var rest := Split(s[1..]);
      if s[0] == Space {
        assert Split(s)[1..] == rest;
      } else {
        var ps := Split(s);
        assert ps[1..] == rest[1..];
        if |rest| == 1 {
          assert Join(ps) == [s[0]] + rest[0];
        } else {
          assert Join(rest) == rest[0] + [Space] + Join(rest[1..]);
        }
        assert s == [s[0]] + s[1..];
      }
    }
  }

  /** No piece holds a space, and there is exactly one piece more than
      there are spaces. */
  lemma {:induction false} SplitShape(s: string)
    ensures |Split(s)| == Spaces(s) + 1
    ensures forall i :: 0 <= i < |Split(s)| ==> Space !in Split(s)[i]
    decreases |s|
  {
    if |s| > 0 {
      SplitShape(s[1..]);
      var rest := Split(s[1..]);
      var ps := Split(s);
      if s[0] != Space {
        forall i | 0 <= i < |ps| ensures Space !in ps[i] {
          if i > 0 { assert ps[i] == rest[i]; }
        }
      } else {
        forall i | 0 <= i < |ps| ensures Space !in ps[i] {
          if i > 0 { assert ps[i] == rest[i - 1]; }
        }
      }
    }
  }

  /** Joining pieces that hold no space and splitting again gives back the
      pieces. */
  lemma {:induction false} SplitJoin(pieces: seq<string>)
    requires |pieces| >= 1
    requires forall i :: 0 <= i < |pieces| ==> Space !in pieces[i]
    ensures Split(Join(pieces)) == pieces
    decreases |pieces|
  {
    if |pieces| == 1 {
      SplitWord(pieces[0], "");
      assert pieces[0] + "" == pieces[0];
      assert Split("") == [""];
    } else {
      SplitJoin(pieces[1..]);
      SplitAfterWord(pieces[0], Join(pieces[1..]));
      assert pieces == [pieces[0]] + pieces[1..];
    }
  }

  /** A word without spaces in front of `rest` joins the first piece of `rest`. */
  lemma {:induction false} SplitWord(w: string, rest: string)
    requires Space !in w
    ensures Split(w + rest) == [w + Split(rest)[0]] + Split(rest)[1..]
    decreases |w|
  {
    var sr := Split(rest);
    if |w| == 0 {
      assert w + rest == rest;
      assert w + sr[0] == sr[0];
      assert sr == [sr[0]] + sr[1..];
    } else {
      SplitWord(w[1..], rest);
      var r := Split(w[1..] + rest);
      assert (w + rest)[0] == w[0];
      assert (w + rest)[1..] == w[1..] + rest;
      assert r[0] == w[1..] + sr[0];
      assert r[1..] == sr[1..];
      assert [w[0]] + (w[1..] + sr[0]) == w + sr[0];
    }
  }

  /** Splitting `"a b"` where `a` has no space gives `a` and the split of `b`. */
  lemma SplitAfterWord(a: string, b: string)
    requires Space !in a
    ensures Split(a + [Space] + b) == [a] + Split(b)
  {
    var t := [Space] + b;
    SplitWord(a, t);
    assert a + [Space] + b == a + t;
    assert t[0] == Space && t[1..] == b;
    assert Split(t) == [""] + Split(b);
    assert a + "" == a;
  }
}
