/**
 * The build-tag bump in `bump.py`: every line of `.travis.yml` that carries a
 * `TAG=YYYY-MM-DD.NN` stamp gets today's date, and the two-digit counter goes
 * up by one when the stamp is already today's, or restarts at 1 otherwise.
 * Every other line is copied as it is. The clock is a parameter (`today`).
 *
 * The line pattern is the regular expression
 *   (?P<pre>.*TAG=)(?P<date>\d{4}-\d{2}-\d{2})\.(?P<ver>\d{2})?(?P<post>[.\s]*)$
 * applied with `re.match` and `re.I`; `MatchTag` is the longest-prefix-first search
 * the regular-expression engine performs, and `MatchTag` with `MatchTagComplete`
 * proves it finds exactly the decompositions the pattern describes.
 */
module Bump {
  import opened Runtime
  import opened Text

  /* ---------------------------------------------------------------- dates */

  datatype Date = Date(year: nat, month: nat, day: nat)

  predicate IsLeap(y: nat) {
    y % 4 == 0 && (y % 100 != 0 || y % 400 == 0)
  }

  function DaysInMonth(y: nat, m: nat): nat
    requires 1 <= m <= 12
  {
    if m == 2 then (if IsLeap(y) then 29 else 28)
    else if m == 4 || m == 6 || m == 9 || m == 11 then 30
    else 31
  }

  /** The dates `datetime.datetime(y, m, d)` accepts; any other raises ValueError. */
  predicate ValidDate(d: Date) {
    1 <= d.year <= 9999 && 1 <= d.month <= 12 && 1 <= d.day <= DaysInMonth(d.year, d.month)
  }

  /* ------------------------------------------------------- the tag pattern */

  predicate DigitsIn(s: string, i: nat, j: nat)
    requires i <= j <= |s|
  {
    forall k :: i <= k < j ==> IsDigit(s[k])
  }

  /** `\d{4}-\d{2}-\d{2}` */
  predicate DateShape(s: string) {
    |s| == 10 && DigitsIn(s, 0, 4) && s[4] == '-' && DigitsIn(s, 5, 7) && s[7] == '-' && DigitsIn(s, 8, 10)
  }

  /** `\d{2}` */
  predicate TwoDigits(s: string) {
    |s| == 2 && IsDigit(s[0]) && IsDigit(s[1])
  }

  /** `[.\s]*` */
  predicate Filler(s: string) {
    forall k :: 0 <= k < |s| ==> s[k] == '.' || IsSpace(s[k])
  }

  /** `.*TAG=` under `re.I`: ends in "tag=" in any case, and holds no newline (`.` stops at one). */
  predicate TagPrefix(pre: string) {
    |pre| >= 4 && Lower(pre[|pre| - 4..]) == "tag=" && '\n' !in pre
  }

  /** The `date`, `ver` and `post` groups of a match. */
  datatype Stamp = Stamp(date: string, ver: Option<string>, post: string)

  /** All four groups of a match. */
  datatype Tag = Tag(pre: string, stamp: Stamp)

  predicate WellFormed(st: Stamp) {
    DateShape(st.date) && (st.ver.Some? ==> TwoDigits(st.ver.value)) && Filler(st.post)
  }

  function VerText(ver: Option<string>): string {
    match ver
    case None => ""
    case Some(v) => v
  }

  function StampText(st: Stamp): string {
    st.date + "." + VerText(st.ver) + st.post
  }

  /** The pattern, read as a grammar: `l` splits into groups shaped as `t` says. */
  predicate Matches(l: string, t: Tag) {
    l == t.pre + StampText(t.stamp) && TagPrefix(t.pre) && WellFormed(t.stamp)
  }

  /**
   * The part of the pattern after `TAG=`, on the rest `s` of the line. When
   * two digits follow the dot they are the counter (and if the rest is not
   * filler, leaving the counter out cannot help: a digit is not filler).
   */
  function ParseStamp(s: string): (r: Option<Stamp>)
    ensures r.Some? ==> s == StampText(r.value) && WellFormed(r.value)
  {
    if |s| < 11 || !DateShape(s[..10]) || s[10] != '.' then None
    else
      var tail := s[11..];
      var st :=
        if |tail| >= 2 && IsDigit(tail[0]) && IsDigit(tail[1])
        then Stamp(s[..10], Some(tail[..2]), tail[2..])
        else Stamp(s[..10], None, tail);
      if Filler(st.post) then Some(st) else None
  }

  /** `pre` ending at `p`, and the rest of the pattern from there. */
  function MatchFrom(l: string, p: nat): (r: Option<Tag>)
    requires p <= |l|
    ensures r.Some? ==> Matches(l, r.value) && |r.value.pre| == p
  {
    if TagPrefix(l[..p]) then
      match ParseStamp(l[p..])
      case None => None
      case Some(st) =>
        assert l == l[..p] + l[p..];
        Some(Tag(l[..p], st))
    else None
  }

  /** The greedy `.*` tries the longest `pre` first, then shorter ones. */
  function Search(l: string, p: nat): (r: Option<Tag>)
    requires p <= |l|
    ensures r.Some? ==> Matches(l, r.value) && |r.value.pre| <= p
    decreases p
  {
    if p < 4 then None
    else
      match MatchFrom(l, p)
      case Some(t) => Some(t)
      case None => Search(l, p - 1)
  }

  /** `re.match(pattern, l, re.I)` with its groups. */
  function MatchTag(l: string): (r: Option<Tag>)
    ensures r.Some? ==> Matches(l, r.value)
  {
    Search(l, |l|)
  }

  /* ------------------------------------------------------------- the bump */

  /** The stamp's date as `datetime` reads it, `int` of each dash-separated field. */
  function DateOf(date: string): Date
    requires DateShape(date)
  {
    Date(DigitsValue(date[..4]), DigitsValue(date[5..7]), DigitsValue(date[8..10]))
  }

  /** `'{:>04}-{:>02}-{:>02}'.format(year, month, day)` */
  function DateText(d: Date): string {
    ZeroPad(d.year, 4) + "-" + ZeroPad(d.month, 2) + "-" + ZeroPad(d.day, 2)
  }

  /** The new counter: one more than the old on the same day (1 when there was none), else 1. */
  function NextCounter(t: Tag, today: Date): (n: nat)
    requires WellFormed(t.stamp)
    ensures 1 <= n <= 100
  {
    if DateOf(t.stamp.date) == today then
      match t.stamp.ver
      case None => 1
      case Some(v) => TwoDigitsBelow(v); DigitsValue(v) + 1
    else 1
  }

  /** Two digits read as a number below 100. */
  lemma TwoDigitsBelow(v: string)
    requires TwoDigits(v)
    ensures DigitsValue(v) < 100
  {
    assert v[..1][..0] == [] && v[..1][0] == v[0];
    assert DigitsValue(v[..1]) == DigitValue(v[0]);
    assert DigitsValue(v) == 10 * DigitValue(v[0]) + DigitValue(v[1]);
  }

  /** One iteration of the loop: the rewritten line, or the ValueError of an impossible date. */
  function BumpLine(today: Date, l: string): (r: Result<string>)
    ensures MatchTag(l).None? ==> r == Ok(l)
    ensures r.Err? <==> MatchTag(l).Some? && !ValidDate(DateOf(MatchTag(l).value.stamp.date))
    ensures r.Err? ==> r.error == ValueError
  {
    match MatchTag(l)
    case None => Ok(l)
    case Some(t) =>
      if !ValidDate(DateOf(t.stamp.date)) then Err(ValueError)
      else Ok(t.pre + DateText(today) + "." + ZeroPad(NextCounter(t, today), 2) + t.stamp.post)
  }

  /** The whole file: every line bumped, in order; the first impossible date aborts the run. */
  function BumpAll(today: Date, lines: seq<string>): (r: Result<seq<string>>)
    ensures r.Ok? ==> |r.value| == |lines|
    ensures r.Err? ==> r.error == ValueError
    decreases |lines|
  {
    if lines == [] then Ok([])
    else
      var init :- BumpAll(today, lines[..|lines| - 1]);
      var last :- BumpLine(today, lines[|lines| - 1]);
      Ok(init + [last])
  }

  /** The loop of the script, appending each line's result to `newlines`. */
  method BumpLines(today: Date, lines: seq<string>) returns (r: Result<seq<string>>)
    ensures r == BumpAll(today, lines)
  {
    var newlines := [];
    for i := 0 to |lines|
      invariant BumpAll(today, lines[..i]) == Ok(newlines)
    {
      assert lines[..i + 1][..i] == lines[..i];
      var line := BumpLine(today, lines[i]);
      if line.Err? {
        BumpAllFailed(today, lines, i + 1);
        return Err(line.error);
      }
      newlines := newlines + [line.value];
    }
    assert lines[..|lines|] == lines;
    return Ok(newlines);
  }

  /** Once a line has failed, the file fails with the same error, whatever follows. */
  lemma {:induction false} BumpAllFailed(today: Date, lines: seq<string>, k: nat)
    requires k <= |lines| && BumpAll(today, lines[..k]).Err?
    ensures BumpAll(today, lines) == BumpAll(today, lines[..k])
    decreases |lines|
  {
    if k == |lines| {
      assert lines[..k] == lines;
    } else {
      var init := lines[..|lines| - 1];
      assert init[..k] == lines[..k];
      BumpAllFailed(today, init, k);
    }
  }

  /* --------------------------------------------------- the pattern, proved */

  /** `ParseStamp` accepts exactly the texts the grammar describes, and splits them in the only way. */
  lemma StampMeaning(s: string, st: Stamp)
    ensures ParseStamp(s) == Some(st) <==> s == StampText(st) && WellFormed(st)
  {
    if s == StampText(st) && WellFormed(st) {
      var tail := s[11..];
      assert s[..10] == st.date && s[10] == '.';
      assert tail == VerText(st.ver) + st.post;
      if st.ver.None? && |tail| >= 2 {
        assert tail[0] == st.post[0];
      }
    }
  }

  /** Nothing the stamp grammar admits is an equals sign. */
  lemma StampHasNoEquals(s: string)
    ensures ParseStamp(s).Some? ==> '=' !in s
  {
    if ParseStamp(s).Some? {
      StampChars(s, ParseStamp(s).value);
    }
  }

  lemma StampChars(s: string, st: Stamp)
    requires s == StampText(st) && WellFormed(st)
    ensures '=' !in s
  {
    forall k | 0 <= k < |s|
      ensures s[k] != '='
    {
      if k < 10 {
        assert s[k] == st.date[k];
      } else if k > 10 && k < 11 + |VerText(st.ver)| {
        assert s[k] == VerText(st.ver)[k - 11];
      } else if k >= 11 + |VerText(st.ver)| {
        assert s[k] == st.post[k - 11 - |VerText(st.ver)|];
      }
    }
  }

  /** A `pre` ending past `p` would need an "=" inside the stamp found at `p`, so the search reaches `p`. */
  lemma {:induction false} SearchFinds(l: string, p: nat, k: nat)
    requires p <= k <= |l| && '=' !in l[p..]
    ensures Search(l, k) == Search(l, p)
    decreases k
  {
    if k > p {
      if k >= 4 {
        assert l[k - 1] == l[p..][k - 1 - p];
        LowerEquals(l[..k][|l[..k]| - 4..]);
        assert MatchFrom(l, k) == None;
      }
      SearchFinds(l, p, k - 1);
    }
  }

  /** A `pre` ending at or before `k` leaves an "=" at `p - 1` in the stamp, which the stamp cannot hold. */
  lemma {:induction false} SearchBelowEquals(l: string, p: nat, k: nat)
    requires k < p <= |l| && l[p - 1] == '='
    ensures Search(l, k) == None
    decreases k
  {
    if k >= 4 {
      assert l[k..][p - 1 - k] == '=';
      assert '=' in l[k..];
      StampHasNoEquals(l[k..]);
      assert MatchFrom(l, k) == None;
      SearchBelowEquals(l, p, k - 1);
    }
  }

  /** `Lower` keeps an "=" where it was and makes none. */
  lemma LowerEquals(s: string)
    requires |s| == 4
    ensures Lower(s) == "tag=" ==> s[3] == '='
  {
    assert Lower(s)[3] == LowerChar(s[3]);
  }

  /**
   * Any decomposition the pattern describes is the one the search returns
   * (with `MatchTag`'s own contract: the search finds exactly the matches, and
   * there is never more than one).
   */
  lemma MatchTagComplete(l: string, t: Tag)
    requires Matches(l, t)
    ensures MatchTag(l) == Some(t)
  {
    var p := |t.pre|;
    assert l[..p] == t.pre && l[p..] == StampText(t.stamp);
    StampMeaning(l[p..], t.stamp);
    StampChars(l[p..], t.stamp);
    SearchFinds(l, p, |l|);
  }

  /* ------------------------------------------------------------ numerals */

  function Pow10(w: nat): nat {
    if w == 0 then 1 else 10 * Pow10(w - 1)
  }

  lemma {:induction false} NatToStringFits(n: nat, w: nat)
    requires 1 <= w && n < Pow10(w)
    ensures |NatToString(n)| <= w
    decreases n
  {
    if n >= 10 {
      NatToStringFits(n / 10, w - 1);
    }
  }

  lemma {:induction false} NatToStringValue(n: nat)
    ensures DigitsValue(NatToString(n)) == n
    decreases n
  {
    var s := NatToString(n);
    if n >= 10 {
      NatToStringValue(n / 10);
      assert s[..|s| - 1] == NatToString(n / 10);
    }
  }

  /** Leading zeros do not change `int(s)`. */
  lemma {:induction false} ZerosValue(z: string, s: string)
    requires forall k :: 0 <= k < |z| ==> z[k] == '0'
    requires forall k :: 0 <= k < |s| ==> IsDigit(s[k])
    ensures DigitsValue(z + s) == DigitsValue(s)
    decreases |s|
  {
    if s == [] {
      assert z + s == z;
      AllZeros(z);
    } else {
      assert (z + s)[..|z + s| - 1] == z + s[..|s| - 1];
      ZerosValue(z, s[..|s| - 1]);
    }
  }

  lemma {:induction false} AllZeros(z: string)
    requires forall k :: 0 <= k < |z| ==> z[k] == '0'
    ensures DigitsValue(z) == 0
    decreases |z|
  {
    if z != [] {
      AllZeros(z[..|z| - 1]);
    }
  }

  /** A number below 10^w is written in exactly `w` digits, which read back as the number. */
  lemma ZeroPadExact(n: nat, w: nat)
    requires 1 <= w && n < Pow10(w)
    ensures |ZeroPad(n, w)| == w && DigitsValue(ZeroPad(n, w)) == n
  {
    var s := NatToString(n);
    NatToStringFits(n, w);
    NatToStringValue(n);
    if |s| < w {
      ZerosValue(seq(w - |s|, _ => '0'), s);
    }
  }

  /** Today's date is written in the stamp's shape and reads back as today. */
  lemma DateTextRoundTrip(d: Date)
    requires ValidDate(d)
    ensures DateShape(DateText(d)) && DateOf(DateText(d)) == d
  {
    assert Pow10(2) == 100 && Pow10(4) == 10000;
    ZeroPadExact(d.year, 4);
    ZeroPadExact(d.month, 2);
    ZeroPadExact(d.day, 2);
    var s := DateText(d);
    assert s[..4] == ZeroPad(d.year, 4);
    assert s[5..7] == ZeroPad(d.month, 2);
    assert s[8..10] == ZeroPad(d.day, 2);
  }

  /* ---------------------------------------------------- the bump, proved */

  /** The stamp a bump writes: today's date and the counter `n` in two digits, between the old `pre` and `post`. */
  function Bumped(t: Tag, today: Date, n: nat): Tag {
    Tag(t.pre, Stamp(DateText(today), Some(ZeroPad(n, 2)), t.stamp.post))
  }

  /**
   * A bumped line (counter at most 99) matches the pattern again, keeping
   * `pre` and `post`, showing today's date and the new counter, and the date
   * and counter read back as today and that counter.
   */
  lemma BumpRematches(today: Date, l: string)
    requires ValidDate(today) && MatchTag(l).Some?
    requires var t := MatchTag(l).value; ValidDate(DateOf(t.stamp.date)) && NextCounter(t, today) <= 99
    ensures BumpLine(today, l).Ok?
    ensures var t := MatchTag(l).value; var n := NextCounter(t, today);
      MatchTag(BumpLine(today, l).value) == Some(Bumped(t, today, n)) &&
      DateOf(DateText(today)) == today && DigitsValue(ZeroPad(n, 2)) == n
  {
    var t := MatchTag(l).value;
    var n := NextCounter(t, today);
    assert Pow10(2) == 100;
    ZeroPadExact(n, 2);
    DateTextRoundTrip(today);
    var u := Bumped(t, today, n);
    assert Matches(BumpLine(today, l).value, u);
    MatchTagComplete(BumpLine(today, l).value, u);
  }

  /** Two bumps on the same day move the counter up by two. */
  lemma BumpTwice(today: Date, l: string)
    requires ValidDate(today) && MatchTag(l).Some?
    requires var t := MatchTag(l).value; ValidDate(DateOf(t.stamp.date)) && NextCounter(t, today) <= 98
    ensures BumpLine(today, l).Ok? && BumpLine(today, BumpLine(today, l).value).Ok?
    ensures var t := MatchTag(l).value;
      MatchTag(BumpLine(today, BumpLine(today, l).value).value) == Some(Bumped(t, today, NextCounter(t, today) + 1))
  {
    var t := MatchTag(l).value;
    var n := NextCounter(t, today);
    BumpRematches(today, l);
    var r1 := BumpLine(today, l).value;
    var u := MatchTag(r1).value;
    assert u == Bumped(t, today, n);
    assert NextCounter(u, today) == n + 1;
    BumpRematches(today, r1);
    assert Bumped(u, today, n + 1) == Bumped(t, today, n + 1);
  }

  /**
   * On the same day, a counter of 99 becomes "100", which the two-digit
   * counter of the pattern no longer admits: the line stops matching, and
   * every later run leaves it as it is.
   */
  lemma OverflowFreezes(today: Date, l: string)
    requires ValidDate(today) && MatchTag(l).Some?
    requires var t := MatchTag(l).value; DateOf(t.stamp.date) == today && t.stamp.ver == Some("99")
    ensures BumpLine(today, l).Ok?
    ensures var r := BumpLine(today, l).value; MatchTag(r).None? && BumpLine(today, r) == Ok(r)
  {
    var t := MatchTag(l).value;
    assert DigitsValue("99") == 99 && DigitsValue("9") == 9;
    assert NextCounter(t, today) == 100;
    assert ZeroPad(100, 2) == "100" by {
      assert NatToString(100) == NatToString(10) + "0";
      assert NatToString(10) == "10";
    }
    DateTextRoundTrip(today);
    ThreeDigitCounter(t.pre, DateText(today), t.stamp.post);
  }

  /** A line whose counter has three digits does not match the pattern. */
  lemma ThreeDigitCounter(pre: string, d: string, post: string)
    requires TagPrefix(pre) && DateShape(d) && Filler(post)
    ensures MatchTag(pre + d + "." + "100" + post).None?
  {
    var r := pre + d + "." + "100" + post;
    var p := |pre|;
    var rest := d + "." + "100" + post;
    assert r == pre + rest;
    assert r[..p] == pre && r[p..] == rest;
    assert ParseStamp(rest) == None by {
      assert rest[..10] == d && rest[10] == '.';
      assert rest[11..][..2] == "10" && rest[11..][2..][0] == '0';
    }
    assert '=' !in rest by {
      forall k | 0 <= k < |rest|
        ensures rest[k] != '='
      {
        if k < 10 {
          assert rest[k] == d[k];
        } else if k >= 14 {
          assert rest[k] == post[k - 14];
        }
      }
    }
    SearchFinds(r, p, |r|);
    LowerEquals(pre[p - 4..]);
    assert r[p - 1] == pre[p - 4..][3];
    SearchBelowEquals(r, p, p - 1);
  }


  /**
   * The file as a whole: it aborts exactly when some stamp holds an impossible
   * date; otherwise it has the same lines in the same order, each one bumped
   * on its own (so lines without a stamp are kept as they are).
   */
  lemma {:induction false} BumpAllMeaning(today: Date, lines: seq<string>)
    ensures BumpAll(today, lines).Err? <==> exists i :: 0 <= i < |lines| && BumpLine(today, lines[i]).Err?
    ensures BumpAll(today, lines).Ok? ==>
      var r := BumpAll(today, lines).value;
      |r| == |lines| && forall i :: 0 <= i < |lines| ==> BumpLine(today, lines[i]) == Ok(r[i])
    decreases |lines|
  {
    if lines != [] {
      var init, last := lines[..|lines| - 1], lines[|lines| - 1];
      BumpAllMeaning(today, init);
      if BumpAll(today, init).Err? {
        var i :| 0 <= i < |init| && BumpLine(today, init[i]).Err?;
        assert lines[i] == init[i];
      } else if BumpLine(today, last).Err? {
        assert BumpAll(today, lines).Err?;
      } else {
        var r := BumpAll(today, init).value + [BumpLine(today, last).value];
        assert BumpAll(today, lines) == Ok(r);
        forall i | 0 <= i < |lines|
          ensures BumpLine(today, lines[i]) == Ok(r[i])
        {
          if i < |init| {
            assert lines[i] == init[i];
          }
        }
      }
    }
  }
}
