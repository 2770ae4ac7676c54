/**
 * String primitives the service-control layer relies on: substring tests
 * (what `regexp.MatchString` does for a pattern without metacharacters),
 * the first `<literal>([0-9]+)` capture (what `FindStringSubmatch` returns
 * for the two PID patterns), and `strings.Join` with its inverse.
 */
module Text {

  datatype Option<+T> = None | Some(value: T)

  predicate IsDigit(c: char) {
    '0' <= c <= '9'
  }

  predicate AllDigits(s: string) {
    forall k :: 0 <= k < |s| ==> IsDigit(s[k])
  }

  /** `pat` occurs in `s` starting at index `i`. */
  predicate OccursAt(s: string, pat: string, i: nat) {
    i + |pat| <= |s| && s[i..i + |pat|] == pat
  }

  /** Declarative substring relation. */
  ghost predicate Occurs(s: string, pat: string) {
    exists i: nat :: OccursAt(s, pat, i)
  }

  lemma OccursShift(s: string, pat: string)
    requires s != [] && !(pat <= s)
    ensures Occurs(s, pat) <==> Occurs(s[1..], pat)
  {
    if Occurs(s, pat) {
      var i: nat :| OccursAt(s, pat, i);
      assert s[1..][i - 1..i - 1 + |pat|] == s[i..i + |pat|];
      assert OccursAt(s[1..], pat, i - 1);
    }
    if Occurs(s[1..], pat) {
      var j: nat :| OccursAt(s[1..], pat, j);
      assert s[1..][j..j + |pat|] == s[j + 1..j + 1 + |pat|];
      assert OccursAt(s, pat, j + 1);
    }
  }

  /** Substring search: true exactly when `pat` occurs somewhere in `s`. */
  function Contains(s: string, pat: string): (b: bool)
    ensures b <==> Occurs(s, pat)
    decreases |s|
  {
    if pat <= s then
      assert OccursAt(s, pat, 0);
      true
    else if s == [] then
      false
    else
      OccursShift(s, pat);
      Contains(s[1..], pat)
  }

  /** Placing `pat` between any two strings makes it occur. */
  lemma OccursInside(a: string, pat: string, b: string)
    ensures Occurs(a + pat + b, pat)
  {
    assert (a + pat + b)[|a|..|a| + |pat|] == pat;
    assert OccursAt(a + pat + b, pat, |a|);
  }

  /** An occurrence survives extending the string on either side. */
  lemma OccursExtend(a: string, s: string, b: string, pat: string)
    requires Occurs(s, pat)
    ensures Occurs(a + s + b, pat)
  {
    var i: nat :| OccursAt(s, pat, i);
    assert (a + s + b)[|a| + i..|a| + i + |pat|] == s[i..i + |pat|];
    assert OccursAt(a + s + b, pat, |a| + i);
  }

  /** `lit` starts at `i` and is followed by at least one digit: a match of `lit([0-9]+)`. */
  predicate MatchAt(s: string, lit: string, i: nat) {
    OccursAt(s, lit, i) && i + |lit| < |s| && IsDigit(s[i + |lit|])
  }

  /** The longest run of digits at the front of `t` (the greedy `[0-9]+`). */
  function DigitRun(t: string): (r: string)
    ensures r <= t && AllDigits(r)
    ensures |r| < |t| ==> !IsDigit(t[|r|])
  {
    if t != [] && IsDigit(t[0]) then [t[0]] + DigitRun(t[1..]) else []
  }

  /** The leftmost match position at or after `i`. */
  function FirstMatchFrom(s: string, lit: string, i: nat): (r: Option<nat>)
    requires i <= |s|
    ensures r.Some? ==> i <= r.value && MatchAt(s, lit, r.value)
    ensures r.Some? ==> forall j: nat :: i <= j < r.value ==> !MatchAt(s, lit, j)
    ensures r.None? ==> forall j: nat :: i <= j ==> !MatchAt(s, lit, j)
    decreases |s| - i
  {
    if i == |s| then None
    else if MatchAt(s, lit, i) then Some(i)
    else FirstMatchFrom(s, lit, i + 1)
  }

  /**
   * The capture group of the leftmost match of `lit([0-9]+)` in `s`, as
   * `FindStringSubmatch(s)[1]` gives it, or None when there is no match.
   */
  function Capture(s: string, lit: string): (r: Option<string>)
    ensures r.None? <==> forall j: nat :: !MatchAt(s, lit, j)
    ensures r.Some? ==>
      exists i: nat ::
        && MatchAt(s, lit, i)
        && (forall j: nat :: j < i ==> !MatchAt(s, lit, j))
        && OccursAt(s, lit + r.value, i)
        && (i + |lit| + |r.value| < |s| ==> !IsDigit(s[i + |lit| + |r.value|]))
    ensures r.Some? ==> r.value != [] && AllDigits(r.value)
  {
    match FirstMatchFrom(s, lit, 0)
    case None => None
    case Some(i) =>
      var d := DigitRun(s[i + |lit|..]);
      assert s[i..i + |lit| + |d|] == s[i..i + |lit|] + s[i + |lit|..][..|d|];
      Some(d)
  }

  /** The digit run at the front of `d + rest` is `d` when `rest` does not start with a digit. */
  lemma {:induction false} DigitRunOf(d: string, rest: string)
    requires AllDigits(d)
    requires rest == [] || !IsDigit(rest[0])
    ensures DigitRun(d + rest) == d
    decreases |d|
  {
    if d != [] {
      DigitRunOf(d[1..], rest);
      assert (d + rest)[1..] == d[1..] + rest;
      assert [d[0]] + d[1..] == d;
    }
  }

  /** A match of `lit([0-9]+)` with none before it is the one `Capture` reports. */
  lemma CaptureOfFirst(s: string, lit: string, i: nat)
    requires MatchAt(s, lit, i)
    requires forall j: nat :: j < i ==> !MatchAt(s, lit, j)
    ensures Capture(s, lit) == Some(DigitRun(s[i + |lit|..]))
  {
    assert FirstMatchFrom(s, lit, 0) == Some(i);
  }

  /**
   * When no match of `lit([0-9]+)` starts inside the text before `lit`, the
   * capture is the digit run right after that `lit`.
   */
  lemma CaptureAfter(pre: string, lit: string, d: string, post: string)
    requires forall j: nat :: j < |pre| ==> !MatchAt(pre + lit + (d + post), lit, j)
    requires d != [] && AllDigits(d)
    requires post == [] || !IsDigit(post[0])
    ensures Capture(pre + lit + (d + post), lit) == Some(d)
  {
    var s := pre + lit + (d + post);
    assert s[|pre|..|pre| + |lit|] == lit && s[|pre| + |lit|..] == d + post;
    CaptureOfFirst(s, lit, |pre|);
    DigitRunOf(d, post);
  }

  /** A pattern whose first character is absent from `s` does not occur in `s`. */
  lemma AbsentHead(s: string, pat: string)
    requires pat != [] && pat[0] !in s
    ensures !Occurs(s, pat)
  {
    forall i: nat | i + |pat| <= |s|
      ensures !OccursAt(s, pat, i)
    {
      assert s[i..i + |pat|][0] == s[i];
    }
  }

  /** `strings.Join`: the elements of `xs` with `sep` between each adjacent pair. */
  function Join(xs: seq<string>, sep: string): string
    decreases |xs|
  {
    if |xs| == 0 then ""
    else if |xs| == 1 then xs[0]
    else xs[0] + sep + Join(xs[1..], sep)
  }

  /** `strings.Split` on a one-character separator; like Go, it returns one field for the empty string. */
  function Split(s: string, sep: char): (r: seq<string>)
    ensures |r| > 0
    decreases |s|
  {
    if s == [] then [""]
    else
      var rest := Split(s[1..], sep);
      if s[0] == sep then [""] + rest
      else [[s[0]] + rest[0]] + rest[1..]
  }

  /** Splitting a separator-free field followed by the separator gives that field first. */
  lemma {:induction false} SplitField(x: string, sep: char, tail: string)
    requires sep !in x
    ensures Split(x + [sep] + tail, sep) == [x] + Split(tail, sep)
    decreases |x|
  {
    if x == [] {
      assert x + [sep] + tail == [sep] + tail;
      assert ([sep] + tail)[1..] == tail;
    } else {
      var s := x + [sep] + tail;
      assert s[0] == x[0] && s[1..] == x[1..] + [sep] + tail;
      SplitField(x[1..], sep, tail);
      assert [x[0]] + x[1..] == x;
    }
  }

  /** A field without the separator splits to itself. */
  lemma {:induction false} SplitPlain(x: string, sep: char)
    requires sep !in x
    ensures Split(x, sep) == [x]
    decreases |x|
  {
    if x != [] {
      SplitPlain(x[1..], sep);
      assert [x[0]] + x[1..] == x;
    }
  }

  /**
   * Joining is undone by splitting, as long as no element contains the
   * separator: no information is lost by the space-joining of argument and
   * dependency lists when the elements contain no space.
   */
  lemma {:induction false} SplitJoin(xs: seq<string>, sep: char)
    requires |xs| > 0
    requires forall k :: 0 <= k < |xs| ==> sep !in xs[k]
    ensures Split(Join(xs, [sep]), sep) == xs
    decreases |xs|
  {
    if |xs| == 1 {
      SplitPlain(xs[0], sep);
    } else {
      SplitJoin(xs[1..], sep);
      SplitField(xs[0], sep, Join(xs[1..], [sep]));
      assert [xs[0]] + xs[1..] == xs;
    }
  }

  /** Every element of a joined list occurs in the joined text. */
  lemma {:induction false} JoinHasElement(xs: seq<string>, sep: string, k: nat)
    requires k < |xs|
    ensures Occurs(Join(xs, sep), xs[k])
    decreases |xs|
  {
    if |xs| == 1 {
      OccursInside("", xs[0], "");
      assert "" + xs[0] + "" == xs[0];
    } else if k == 0 {
      OccursInside("", xs[0], sep + Join(xs[1..], sep));
      assert "" + xs[0] + (sep + Join(xs[1..], sep)) == Join(xs, sep);
    } else {
      JoinHasElement(xs[1..], sep, k - 1);
      OccursExtend(xs[0] + sep, Join(xs[1..], sep), "", xs[k]);
      assert xs[0] + sep + Join(xs[1..], sep) + "" == Join(xs, sep);
    }
  }

  /**
   * An element that is neither first nor last occurs in the joined text with
   * a separator on each side: it is a whole field, not part of a longer one.
   */
  lemma {:induction false} JoinHasInner(xs: seq<string>, sep: string, k: nat)
    requires 0 < k && k + 1 < |xs|
    ensures Occurs(Join(xs, sep), sep + xs[k] + sep)
    decreases |xs|
  {
    var tail := xs[1..];
    if k == 1 {
      assert tail[0] == xs[1] && tail[1..] == xs[2..];
      OccursInside(xs[0], sep + xs[1] + sep, Join(xs[2..], sep));
      assert xs[0] + (sep + xs[1] + sep) + Join(xs[2..], sep) == Join(xs, sep);
    } else {
      JoinHasInner(tail, sep, k - 1);
      assert tail[k - 1] == xs[k];
      OccursExtend(xs[0] + sep, Join(tail, sep), "", sep + xs[k] + sep);
      assert xs[0] + sep + Join(tail, sep) + "" == Join(xs, sep);
    }
  }
}
