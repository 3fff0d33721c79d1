/**
 * Newline-separated text: Python's `"\n".join(parts)` and its inverse
 * `s.split("\n")`, with the laws that connect them.
 */
module Lines {

  const Newline: char := '\n'

  /** The number of characters in all the parts together. */
  function TotalLength(parts: seq<string>): nat
  {
    if |parts| == 0 then 0 else |parts[0]| + TotalLength(parts[1..])
  }

  /**
   * `"\n".join(parts)`: the parts in order, one newline between neighbours.
   * Its length is that of the parts plus one per separator, and it starts
   * with the first part.
   */
  function JoinNewline(parts: seq<string>): (r: string)
    ensures |parts| == 0 ==> r == ""
    ensures |parts| > 0 ==> |r| == TotalLength(parts) + |parts| - 1
    ensures |parts| > 0 ==> r[..|parts[0]|] == parts[0]
  {
    if |parts| == 0 then ""
    else if |parts| == 1 then parts[0]
    else parts[0] + [Newline] + JoinNewline(parts[1..])
  }

  /** `s.split("\n")`: the maximal newline-free pieces of `s`, in order. */
  function SplitNewline(s: string): (r: seq<string>)
    ensures |r| >= 1
    ensures forall i :: 0 <= i < |r| ==> Newline !in r[i]
  {
    if |s| == 0 then [""]
    else if s[0] == Newline then [""] + SplitNewline(s[1..])
    else
      var t := SplitNewline(s[1..]);
      [[s[0]] + t[0]] + t[1..]
  }

  /** Appending a part adds one newline and the part at the end. */
  lemma {:induction false} JoinNewlineSnoc(parts: seq<string>, p: string)
    requires |parts| > 0
    ensures JoinNewline(parts + [p]) == JoinNewline(parts) + [Newline] + p
  {
    if |parts| == 1 {
      assert parts + [p] == [parts[0], p];
      assert [parts[0], p][1..] == [p];
    } else {
      assert (parts + [p])[1..] == parts[1..] + [p];
      JoinNewlineSnoc(parts[1..], p);
    }
  }

  /** Putting a part in front of a non-empty list adds it and one newline at the start. */
  lemma JoinNewlineCons(p: string, parts: seq<string>)
    requires |parts| > 0
    ensures JoinNewline([p] + parts) == p + [Newline] + JoinNewline(parts)
  {
    assert ([p] + parts)[1..] == parts;
  }

  /** A newline-free string is a single piece. */
  lemma {:induction false} SplitNoNewline(a: string)
    requires Newline !in a
    ensures SplitNewline(a) == [a]
  {
    if |a| > 0 {
      assert Newline !in a[1..] by {
        forall i | 0 <= i < |a[1..]| ensures a[1..][i] != Newline {
          assert a[1..][i] == a[i + 1];
        }
      }
      SplitNoNewline(a[1..]);
      assert [a[0]] + a[1..] == a;
    }
  }

  /** A newline-free first line followed by a newline splits off as its own piece. */
  lemma {:induction false} SplitFirstLine(a: string, rest: string)
    requires Newline !in a
    ensures SplitNewline(a + [Newline] + rest) == [a] + SplitNewline(rest)
  {
    var s := a + [Newline] + rest;
    if |a| == 0 {
      assert s[1..] == rest;
    } else {
      assert Newline !in a[1..] by {
        forall i | 0 <= i < |a[1..]| ensures a[1..][i] != Newline {
          assert a[1..][i] == a[i + 1];
        }
      }
      assert s[1..] == a[1..] + [Newline] + rest;
      SplitFirstLine(a[1..], rest);
      assert [a[0]] + a[1..] == a;
    }
  }

  /** Splitting undoes joining, when no part contains a newline. */
  lemma {:induction false} SplitJoin(parts: seq<string>)
    requires |parts| > 0
    requires forall i :: 0 <= i < |parts| ==> Newline !in parts[i]
    ensures SplitNewline(JoinNewline(parts)) == parts
  {
    if |parts| == 1 {
      SplitNoNewline(parts[0]);
    } else {
      SplitFirstLine(parts[0], JoinNewline(parts[1..]));
      SplitJoin(parts[1..]);
      assert [parts[0]] + parts[1..] == parts;
    }
  }

  /** Extending the first part of a non-empty list extends the start of its join. */
  lemma {:induction false} JoinNewlineExtendFirst(c: char, parts: seq<string>)
    requires |parts| > 0
    ensures JoinNewline([[c] + parts[0]] + parts[1..]) == [c] + JoinNewline(parts)
  {
    var first, rest := parts[0], parts[1..];
    if |rest| == 0 {
      assert [[c] + first] + rest == [[c] + first];
      assert parts == [first];
    } else {
      JoinNewlineCons([c] + first, rest);
      assert parts == [first] + rest;
      JoinNewlineCons(first, rest);
      var j := JoinNewline(rest);
      assert ([c] + first) + [Newline] + j == [c] + (first + [Newline] + j);
    }
  }

  /** Joining undoes splitting, for every string. */
  lemma {:induction false} JoinSplit(s: string)
    ensures JoinNewline(SplitNewline(s)) == s
  {
    if |s| > 0 {
      JoinSplit(s[1..]);
      if s[0] == Newline {
        JoinNewlineCons("", SplitNewline(s[1..]));
      } else {
        JoinNewlineExtendFirst(s[0], SplitNewline(s[1..]));
      }
      assert [s[0]] + s[1..] == s;
    }
  }
}
