/** Splitting a string on a one-character separator, as JavaScript's
    `String.prototype.split` does with a one-character string argument, and
    its inverse, `Array.prototype.join`. */
module Text {

  /** The pieces of `s` between occurrences of `sep`, in order. Every
      occurrence of `sep` ends a piece, so an empty string gives one empty
      piece and adjacent separators give an empty piece between them. */
  function Split(s: string, sep: char): (r: seq<string>)
    ensures |r| >= 1
    ensures forall i :: 0 <= i < |r| ==> sep !in r[i]
    decreases |s|
  {
    if s == [] then [""]
    else
      var rest := Split(s[1..], sep);
      if s[0] == sep then [""] + rest
      else [[s[0]] + rest[0]] + rest[1..]
  }

  /** The pieces glued back together with `sep` between neighbours. */
  function Join(pieces: seq<string>, sep: char): string
  {
    if |pieces| == 0 then ""
    else if |pieces| == 1 then pieces[0]
    else pieces[0] + [sep] + Join(pieces[1..], sep)
  }

  /** The number of occurrences of `c` in `s`. */
  function Count(s: string, c: char): nat
  {
    if s == [] then 0
    else (if s[0] == c then 1 else 0) + Count(s[1..], c)
  }

  /** Joining two or more pieces puts a separator right after the first. */
  lemma JoinCons(pieces: seq<string>, sep: char)
    requires |pieces| >= 2
    ensures Join(pieces, sep) == pieces[0] + [sep] + Join(pieces[1..], sep)
  {
  }

  /** Joining the pieces of a split gives back the string that was split. */
  lemma {:induction false} JoinSplit(s: string, sep: char)
    ensures Join(Split(s, sep), sep) == s
    decreases |s|
  {
    if s != [] {
      var rest := Split(s[1..], sep);
      JoinSplit(s[1..], sep);
      assert s == [s[0]] + s[1..];
      if s[0] == sep {
        var r := [""] + rest;
        assert r[1..] == rest;
        JoinCons(r, sep);
      } else if |rest| == 1 {
      } else {
        var r := [[s[0]] + rest[0]] + rest[1..];
        assert r[1..] == rest[1..];
        JoinCons(r, sep);
        JoinCons(rest, sep);
      }
    }
  }

  /** A split yields exactly one piece more than there are separators. */
  lemma {:induction false} SplitCount(s: string, sep: char)
    ensures |Split(s, sep)| == Count(s, sep) + 1
    decreases |s|
  {
    if s != [] {
      SplitCount(s[1..], sep);
    }
  }

  /** A piece without separators splits into itself alone. */
  lemma {:induction false} SplitPlain(p: string, sep: char)
    requires sep !in p
    ensures Split(p, sep) == [p]
    decreases |p|
  {
    if p != [] {
      SplitPlain(p[1..], sep);
      assert p == [p[0]] + p[1..];
    }
  }

  /** A separator-free piece followed by a separator splits off as the first piece. */
  lemma {:induction false} SplitAfter(p: string, sep: char, t: string)
    requires sep !in p
    ensures Split(p + [sep] + t, sep) == [p] + Split(t, sep)
    decreases |p|
  {
    var s := p + [sep] + t;
    if p == [] {
      assert s[1..] == t;
    } else {
      assert s[1..] == p[1..] + [sep] + t;
      SplitAfter(p[1..], sep, t);
      assert p == [p[0]] + p[1..];
    }
  }

  /** Splitting the join of separator-free pieces gives back those pieces:
      with JoinSplit, Split and Join are inverse to each other. */
  lemma {:induction false} SplitJoin(pieces: seq<string>, sep: char)
    requires |pieces| >= 1
    requires forall i :: 0 <= i < |pieces| ==> sep !in pieces[i]
    ensures Split(Join(pieces, sep), sep) == pieces
    decreases |pieces|
  {
    if |pieces| == 1 {
      SplitPlain(pieces[0], sep);
    } else {
      JoinCons(pieces, sep);
      SplitAfter(pieces[0], sep, Join(pieces[1..], sep));
      SplitJoin(pieces[1..], sep);
      assert pieces == [pieces[0]] + pieces[1..];
    }
  }

  /** The first two pieces of a split of `s`, read back off `s`: the first
      piece is followed by a separator, then the second piece, then either
      the end of `s` or another separator. */
  lemma SplitFirstTwo(s: string, sep: char)
    requires |Split(s, sep)| >= 2
    ensures var m := Split(s, sep);
      m[0] + [sep] + m[1] <= s &&
      (|m[0] + [sep] + m[1]| == |s| || s[|m[0] + [sep] + m[1]|] == sep)
  {
    var m := Split(s, sep);
    JoinSplit(s, sep);
    JoinCons(m, sep);
    if |m| > 2 {
      JoinCons(m[1..], sep);
      assert s == m[0] + [sep] + m[1] + ([sep] + Join(m[2..], sep));
    } else {
      assert s == m[0] + [sep] + m[1];
    }
  }
}
