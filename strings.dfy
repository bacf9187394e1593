/** Python's `str.split(sep)` for a one-character separator and `str.strip()`
    with no argument, as the volume specification of main.py uses them. */
module Strings {

  /** `c.isspace()` in Python 3: the ASCII whitespace, the four information
      separators and the Unicode space characters. */
  predicate IsSpace(c: char) {
    var n := c as int;
    n == 0x20 || 0x09 <= n <= 0x0d || 0x1c <= n <= 0x1f || n == 0x85 || n == 0xa0
    || n == 0x1680 || 0x2000 <= n <= 0x200a || n == 0x2028 || n == 0x2029
    || n == 0x202f || n == 0x205f || n == 0x3000
  }

  ghost predicate AllSpace(s: string) {
    forall i :: 0 <= i < |s| ==> IsSpace(s[i])
  }

  /** Neither starts nor ends with whitespace. */
  predicate IsStripped(s: string) {
    s == [] || (!IsSpace(s[0]) && !IsSpace(s[|s| - 1]))
  }

  /** `s.lstrip()`: drops the leading whitespace and nothing else. */
  function StripStart(s: string): (r: string)
    ensures |r| <= |s|
    ensures r == [] || !IsSpace(r[0])
  {
    if |s| > 0 && IsSpace(s[0]) then StripStart(s[1..]) else s
  }

  /** `s.rstrip()`: drops the trailing whitespace and nothing else. */
  function StripEnd(s: string): (r: string)
    ensures |r| <= |s|
    ensures r == [] || (!IsSpace(r[|r| - 1]) && r[0] == s[0])
  {
    if |s| > 0 && IsSpace(s[|s| - 1]) then StripEnd(s[..|s| - 1]) else s
  }

  /** What lstrip() cut off: whitespace in front. */
  lemma {:induction false} StripStartParts(s: string) returns (w: string)
    ensures s == w + StripStart(s) && AllSpace(w)
  {
    if |s| > 0 && IsSpace(s[0]) {
      var rest := StripStartParts(s[1..]);
      w := [s[0]] + rest;
      assert s == [s[0]] + (rest + StripStart(s));
      assert forall i :: 1 <= i < |w| ==> w[i] == rest[i - 1];
    } else {
      w := [];
    }
  }

  /** What rstrip() cut off: whitespace behind. */
  lemma {:induction false} StripEndParts(s: string) returns (w: string)
    ensures s == StripEnd(s) + w && AllSpace(w)
  {
    if |s| > 0 && IsSpace(s[|s| - 1]) {
      var rest := StripEndParts(s[..|s| - 1]);
      w := rest + [s[|s| - 1]];
      assert s == (StripEnd(s) + rest) + [s[|s| - 1]];
    } else {
      w := [];
    }
  }

  /** `s.strip()`: what is left once the whitespace on both sides is cut
      off (StripParts says what was cut). */
  function Strip(s: string): (r: string)
    ensures IsStripped(r) && |r| <= |s|
  {
    var t := StripStart(s);
    StripEnd(t)
  }

  /** Stripping a stripped string changes nothing. */
  lemma StripStripped(s: string)
    requires IsStripped(s)
    ensures Strip(s) == s
  {
  }

  /** `[n.strip() for n in parts]` */
  function StripEach(parts: seq<string>): (r: seq<string>)
    ensures |r| == |parts|
    ensures forall i :: 0 <= i < |r| ==> r[i] == Strip(parts[i]) && IsStripped(r[i])
  {
    seq(|parts|, i requires 0 <= i < |parts| => Strip(parts[i]))
  }

  /** `s.split(sep)`: the pieces between the occurrences of `sep`; an empty
      string gives one empty piece. */
  function Split(s: string, sep: char): (r: seq<string>)
    ensures |r| >= 1
    ensures forall i :: 0 <= i < |r| ==> sep !in r[i]
  {
    if |s| == 0 then [""]
    else
      var rest := Split(s[1..], sep);
      if s[0] == sep then [""] + rest else [[s[0]] + rest[0]] + rest[1..]
  }

  /** `sep.join(parts)`, the inverse of Split. */
  function Join(parts: seq<string>, sep: char): string {
    if |parts| == 0 then ""
    else if |parts| == 1 then parts[0]
    else parts[0] + [sep] + Join(parts[1..], sep)
  }

  /** Splitting loses nothing: joining the pieces gives the string back. */
  lemma {:induction false} JoinSplit(s: string, sep: char)
    ensures Join(Split(s, sep), sep) == s
  {
    if |s| > 0 {
      var rest := Split(s[1..], sep);
      JoinSplit(s[1..], sep);
      if s[0] == sep {
        assert Split(s, sep) == [""] + rest;
        assert ([""] + rest)[1..] == rest;
      } else {
        var parts := [[s[0]] + rest[0]] + rest[1..];
        assert Split(s, sep) == parts;
        if |rest| == 1 {
          assert Join(rest, sep) == rest[0];
        } else {
          assert parts[1..] == rest[1..];
          assert Join(rest, sep) == rest[0] + [sep] + Join(rest[1..], sep);
        }
      }
    }
  }

  /** A string without the separator is one piece. */
  lemma {:induction false} SplitNoSeparator(p: string, sep: char)
    requires sep !in p
    ensures Split(p, sep) == [p]
  {
    if |p| > 0 {
      SplitNoSeparator(p[1..], sep);
      assert [p[0]] + p[1..] == p;
    }
  }

  /** A piece followed by the separator splits off first. */
  lemma {:induction false} SplitCons(p: string, sep: char, t: string)
    requires sep !in p
    ensures Split(p + [sep] + t, sep) == [p] + Split(t, sep)
  {
    if |p| == 0 {
      assert p + [sep] + t == [sep] + t;
      assert ([sep] + t)[1..] == t;
    } else {
      SplitCons(p[1..], sep, t);
      assert (p + [sep] + t)[1..] == p[1..] + [sep] + t;
      assert [p[0]] + p[1..] == p;
    }
  }

  /** Joining pieces free of the separator and splitting again gives the pieces back. */
  lemma {:induction false} SplitJoin(parts: seq<string>, sep: char)
    requires |parts| >= 1
    requires forall i :: 0 <= i < |parts| ==> sep !in parts[i]
    ensures Split(Join(parts, sep), sep) == parts
  {
    if |parts| == 1 {
      SplitNoSeparator(parts[0], sep);
    } else {
      SplitJoin(parts[1..], sep);
      SplitCons(parts[0], sep, Join(parts[1..], sep));
    }
  }

  /** The number of pieces is one more than the number of separators. */
  function Count(s: string, c: char): nat {
    if |s| == 0 then 0 else (if s[0] == c then 1 else 0) + Count(s[1..], c)
  }

  lemma {:induction false} SplitCount(s: string, sep: char)
    ensures |Split(s, sep)| == Count(s, sep) + 1
  {
    if |s| > 0 {
      SplitCount(s[1..], sep);
    }
  }

  /** Whitespace in front does not change what lstrip leaves. */
  lemma {:induction false} StripStartPadded(w: string, t: string)
    requires AllSpace(w)
    ensures StripStart(w + t) == StripStart(t)
  {
    if |w| == 0 {
      assert w + t == t;
    } else {
      assert (w + t)[0] == w[0] && IsSpace(w[0]);
      assert (w + t)[1..] == w[1..] + t;
      StripStartPadded(w[1..], t);
    }
  }

  /** Whitespace behind does not change what rstrip leaves. */
  lemma {:induction false} StripEndPadded(t: string, w: string)
    requires AllSpace(w)
    ensures StripEnd(t + w) == StripEnd(t)
  {
    if |w| == 0 {
      assert t + w == t;
    } else {
      assert (t + w)[|t + w| - 1] == w[|w| - 1] && IsSpace(w[|w| - 1]);
      assert (t + w)[..|t + w| - 1] == t + w[..|w| - 1];
      StripEndPadded(t, w[..|w| - 1]);
    }
  }

  lemma {:induction false} StripTrailingPadded(t: string, w: string)
    requires AllSpace(w)
    ensures StripEnd(StripStart(t + w)) == StripEnd(StripStart(t))
  {
    if |t| == 0 {
      assert t + w == w;
      StripStartPadded(w, "");
      assert w + "" == w;
    } else if IsSpace(t[0]) {
      assert (t + w)[1..] == t[1..] + w;
      StripTrailingPadded(t[1..], w);
    } else {
      StripEndPadded(t, w);
    }
  }

  /** strip() ignores whitespace added on either side. */
  lemma StripPadded(w1: string, t: string, w2: string)
    requires AllSpace(w1) && AllSpace(w2)
    ensures Strip(w1 + t + w2) == Strip(t)
  {
    assert w1 + t + w2 == w1 + (t + w2);
    StripStartPadded(w1, t + w2);
    StripTrailingPadded(t, w2);
  }

  /** Splitting after strip() then stripping every piece is the same as
      stripping the pieces of the unstripped string: the separator is not
      whitespace, so the outer strip only shortens the first and last piece. */
  lemma StripThenSplit(s: string, sep: char)
    requires !IsSpace(sep)
    ensures StripEach(Split(Strip(s), sep)) == StripEach(Split(s, sep))
  {
    var w1, w2 := StripParts(s);
    StripEachOfDecomposed(s, w1, Strip(s), w2, sep);
  }

  /** What strip() cut off: whitespace on each side. */
  lemma StripParts(s: string) returns (w1: string, w2: string)
    ensures s == w1 + Strip(s) + w2 && AllSpace(w1) && AllSpace(w2)
  {
    w1 := StripStartParts(s);
    w2 := StripEndParts(StripStart(s));
  }

  /** What `[n.strip() for n in parts]` cut off each part: whitespace on
      each side, and nothing else. */
  lemma {:induction false} StripEachParts(parts: seq<string>) returns (fronts: seq<string>, backs: seq<string>)
    ensures |fronts| == |backs| == |parts|
    ensures forall i :: 0 <= i < |parts| ==>
      parts[i] == fronts[i] + StripEach(parts)[i] + backs[i] && AllSpace(fronts[i]) && AllSpace(backs[i])
  {
    if parts == [] {
      return [], [];
    }
    var n := |parts| - 1;
    var f, b := StripEachParts(parts[..n]);
    var w1, w2 := StripParts(parts[n]);
    fronts, backs := f + [w1], b + [w2];
  }

  lemma StripEachOfDecomposed(s: string, w1: string, m: string, w2: string, sep: char)
    requires s == w1 + m + w2
    requires AllSpace(w1) && AllSpace(w2) && !IsSpace(sep)
    ensures StripEach(Split(m, sep)) == StripEach(Split(s, sep))
  {
    StripEachOfPadded(w1, m, w2, sep);
  }

  lemma StripEachOfPadded(w1: string, m: string, w2: string, sep: char)
    requires AllSpace(w1) && AllSpace(w2) && !IsSpace(sep)
    ensures StripEach(Split(w1 + m + w2, sep)) == StripEach(Split(m, sep))
  {
    NoSeparatorInSpace(w1, sep);
    NoSeparatorInSpace(w2, sep);
    SplitPadded(w1, m, w2, sep);
    StripEachEqual(Split(m, sep), Split(w1 + m + w2, sep), w1, w2);
  }

  /** Splitting a string padded on both sides pads the first and last piece. */
  lemma SplitPadded(w1: string, m: string, w2: string, sep: char)
    requires sep !in w1 && sep !in w2
    ensures Split(w1 + m + w2, sep) == Padded(w1, Split(m, sep), w2)
  {
    var parts := Split(m, sep);
    JoinSplit(m, sep);
    JoinPadded(w1, parts, w2, sep);
    PaddedPieces(w1, parts, w2, sep);
    SplitJoin(Padded(w1, parts, w2), sep);
  }

  lemma NoSeparatorInSpace(w: string, sep: char)
    requires AllSpace(w) && !IsSpace(sep)
    ensures sep !in w
  {
    assert forall i :: 0 <= i < |w| ==> w[i] != sep;
  }

  /** `parts` with `w1` put in front of the first piece and `w2` after the last. */
  function Padded(w1: string, parts: seq<string>, w2: string): (r: seq<string>)
    requires |parts| >= 1
    ensures |r| == |parts|
    ensures |parts| == 1 ==> r[0] == w1 + parts[0] + w2
    ensures |parts| > 1 ==> r[0] == w1 + parts[0] && r[|parts| - 1] == parts[|parts| - 1] + w2
    ensures forall i :: 0 < i < |parts| - 1 ==> r[i] == parts[i]
  {
    if |parts| == 1 then [w1 + parts[0] + w2]
    else [w1 + parts[0]] + parts[1..|parts| - 1] + [parts[|parts| - 1] + w2]
  }

  lemma PaddedPieces(w1: string, parts: seq<string>, w2: string, sep: char)
    requires |parts| >= 1 && sep !in w1 && sep !in w2
    requires forall i :: 0 <= i < |parts| ==> sep !in parts[i]
    ensures forall i :: 0 <= i < |parts| ==> sep !in Padded(w1, parts, w2)[i]
  {
    var r := Padded(w1, parts, w2);
    forall i | 0 <= i < |parts| ensures sep !in r[i] {
      if |parts| == 1 {
        assert r[i] == w1 + parts[0] + w2;
      } else if i == 0 {
        assert r[i] == w1 + parts[0];
      } else if i == |parts| - 1 {
        assert r[i] == parts[i] + w2;
      } else {
        assert r[i] == parts[i];
      }
    }
  }

  lemma StripEachEqual(parts: seq<string>, padded: seq<string>, w1: string, w2: string)
    requires |parts| >= 1 && AllSpace(w1) && AllSpace(w2)
    requires padded == Padded(w1, parts, w2)
    ensures StripEach(parts) == StripEach(padded)
  {
    var n := |parts|;
    forall i | 0 <= i < n ensures Strip(padded[i]) == Strip(parts[i]) {
      StripPaddedPiece(parts, w1, w2, i);
    }
    assert StripEach(parts) == StripEach(padded);
  }

  lemma StripPaddedFront(w: string, t: string)
    requires AllSpace(w)
    ensures Strip(w + t) == Strip(t)
  {
    StripPadded(w, t, "");
    assert w + t + "" == w + t;
  }

  lemma StripPaddedBack(t: string, w: string)
    requires AllSpace(w)
    ensures Strip(t + w) == Strip(t)
  {
    StripPadded("", t, w);
    assert "" + t + w == t + w;
  }

  lemma StripPaddedPiece(parts: seq<string>, w1: string, w2: string, i: nat)
    requires |parts| >= 1 && AllSpace(w1) && AllSpace(w2) && i < |parts|
    ensures Strip(Padded(w1, parts, w2)[i]) == Strip(parts[i])
  {
    var n := |parts|;
    var padded := Padded(w1, parts, w2);
    if n == 1 {
      StripPadded(w1, parts[0], w2);
    } else if i == 0 {
      StripPaddedFront(w1, parts[0]);
    } else if i == n - 1 {
      StripPaddedBack(parts[i], w2);
    }
  }

  /** Joining the padded pieces pads the joined string. */
  lemma JoinPadded(w1: string, parts: seq<string>, w2: string, sep: char)
    requires |parts| >= 1
    ensures Join(Padded(w1, parts, w2), sep) == w1 + Join(parts, sep) + w2
  {
    var padded := Padded(w1, parts, w2);
    if |parts| > 1 {
      JoinAppendLast(parts[1..], w2, sep);
      assert parts[1..][..|parts| - 2] == parts[1..|parts| - 1];
      assert padded[1..] == parts[1..][..|parts[1..]| - 1] + [parts[1..][|parts[1..]| - 1] + w2];
    }
  }

  lemma {:induction false} JoinAppendLast(parts: seq<string>, w: string, sep: char)
    requires |parts| >= 1
    ensures Join(parts[..|parts| - 1] + [parts[|parts| - 1] + w], sep) == Join(parts, sep) + w
  {
    var q := parts[..|parts| - 1] + [parts[|parts| - 1] + w];
    if |parts| > 1 {
      JoinAppendLast(parts[1..], w, sep);
      assert q[1..] == parts[1..][..|parts[1..]| - 1] + [parts[1..][|parts[1..]| - 1] + w];
    }
  }
}
