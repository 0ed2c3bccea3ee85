/**
 * The LRC lyric parser: `parseTime` and `parseLRC` of the lyric utilities.
 *
 * Times are seconds as `real`. Every fraction a time tag can carry has at most
 * three digits, so each time the parser produces is an exact decimal and no
 * floating-point rounding is involved.
 *
 * `Parsed` is the specification of `parseLRC` as a function of the input text;
 * the method `ParseLrc` follows the loops of `parseLRC` step by step and is proved
 * to compute it. The lemmas after it state what the parser promises.
 */
module LyricParser {
  import opened Wrappers
  import opened JsString

  /** One lyric line: start time and duration in seconds, display text, position. */
  datatype LyricLine = LyricLine(time: real, duration: real, text: string, index: int)

  /** `noTimestamp` marks lyrics without usable timing (display only). */
  datatype ParseResult = ParseResult(lines: seq<LyricLine>, noTimestamp: bool)

  /** Duration given to the last line of timed lyrics. */
  const LastLineDuration: real := 5.0

  // ---------------------------------------------------------------------------
  // parseTime

  /** `parseFloat(p)` on the seconds part `ss` or `ss.fff` of a tag. */
  function SecondsValue(p: string): (v: real)
    ensures v >= 0.0
  {
    var parts := Split(p, '.');
    if |parts| == 1 then IntValue(p) as real
    else IntValue(parts[0]) as real + FractionValue(parts[1])
  }

  /** The value of the digits after a decimal point. */
  function FractionValue(f: string): (v: real)
    ensures 0.0 <= v
  {
    var num := IntValue(f) as real;
    var den := Pow10(|f|) as real;
    assert den >= 1.0;
    num / den
  }

  /**
   * `parseTime`: a tag body with exactly one `:` is minutes * 60 + seconds;
   * any other body (in particular `mm:ss:fff`) is 0.
   */
  function ParseTime(body: string): (seconds: real)
    ensures seconds >= 0.0
  {
    var parts := Split(body, ':');
    if |parts| != 2 then 0.0
    else (IntValue(parts[0]) * 60) as real + SecondsValue(parts[1])
  }

  // ---------------------------------------------------------------------------
  // The time-tag scanner: `/\[(\d{1,2}:\d{1,2}(?:[.:]\d{1,3})?)\]/g`

  /** Number of ASCII digits in `s` from position `p` on. */
  function DigitRun(s: string, p: nat): (n: nat)
    requires p <= |s|
    ensures p + n <= |s|
    decreases |s| - p
  {
    if p < |s| && IsDigit(s[p]) then 1 + DigitRun(s, p + 1) else 0
  }

  /** Number of ASCII letters in `s` from position `p` on. */
  function LetterRun(s: string, p: nat): (n: nat)
    requires p <= |s|
    ensures p + n <= |s|
    decreases |s| - p
  {
    if p < |s| && IsAsciiLetter(s[p]) then 1 + LetterRun(s, p + 1) else 0
  }

  /** Every character of `s` in `[i, j)` is a digit. */
  predicate DigitsIn(s: string, i: nat, j: nat)
    requires i <= j <= |s|
  {
    forall k :: i <= k < j ==> IsDigit(s[k])
  }

  /**
   * A time tag found in a line, by position: `[` at `start`, the `:` after the
   * minutes at `colon`, the seconds ending at `secondsEnd`, and the match ending
   * just after `]` at `end`. A separator and fraction sit between `secondsEnd`
   * and the `]` when `secondsEnd < end - 1`.
   */
  datatype TimeTag = TimeTag(start: nat, colon: nat, secondsEnd: nat, end: nat)

  /**
   * The time tag that starts at position `p` of `s`, if the regular expression
   * matches there. Digit runs that are too long make the match fail: no amount
   * of backtracking lets `\d{1,2}` stop inside a longer run and still be
   * followed by `:`, `.`, or `]`.
   */
  function TagAt(s: string, p: nat): (m: Option<TimeTag>)
    requires p <= |s|
    ensures m.Some? ==> m.value.start == p && p + 5 <= m.value.end <= |s|
  {
    if p < |s| && s[p] == '[' then MinutesThen(s, p, p + 1 + DigitRun(s, p + 1)) else None
  }

  function MinutesThen(s: string, p: nat, q: nat): (m: Option<TimeTag>)
    requires p < q <= |s|
    ensures m.Some? ==> m.value.start == p && p + 5 <= m.value.end <= |s|
  {
    if 1 <= q - p - 1 <= 2 && q < |s| && s[q] == ':' then SecondsThen(s, p, q, q + 1 + DigitRun(s, q + 1)) else None
  }

  function SecondsThen(s: string, p: nat, q: nat, r: nat): (m: Option<TimeTag>)
    requires p < q < r <= |s| && q - p >= 2
    ensures m.Some? ==> m.value.start == p && p + 5 <= m.value.end <= |s|
  {
    if 1 <= r - q - 1 <= 2 && r < |s| then
      if s[r] == ']' then Some(TimeTag(p, q, r, r + 1))
      else if s[r] == '.' || s[r] == ':' then FractionThen(s, p, q, r, r + 1 + DigitRun(s, r + 1))
      else None
    else None
  }

  function FractionThen(s: string, p: nat, q: nat, r: nat, e: nat): (m: Option<TimeTag>)
    requires p < q < r < e <= |s| && q - p >= 2 && r - q >= 2
    ensures m.Some? ==> m.value.start == p && p + 5 <= m.value.end <= |s|
  {
    if 1 <= e - r - 1 <= 3 && e < |s| && s[e] == ']' then Some(TimeTag(p, q, r, e + 1)) else None
  }

  /** The text of capture group 1 (`match[1]`): everything between the brackets. */
  function Capture(s: string, t: TimeTag): string
    requires t.start + 2 <= t.end <= |s|
  {
    s[t.start + 1 .. t.end - 1]
  }

  /**
   * The text from `p` on has the shape `[mm:ss]`, `[mm:ss.fff]` or `[mm:ss:fff]`
   * with the pieces at the positions `t` names: one or two digits of minutes,
   * one or two of seconds, one to three of fraction.
   */
  predicate IsTag(s: string, t: TimeTag) {
    && t.start < t.colon < t.secondsEnd < t.end <= |s|
    && s[t.start] == '[' && s[t.colon] == ':' && s[t.end - 1] == ']'
    && 1 <= t.colon - t.start - 1 <= 2 && DigitsIn(s, t.start + 1, t.colon)
    && 1 <= t.secondsEnd - t.colon - 1 <= 2 && DigitsIn(s, t.colon + 1, t.secondsEnd)
    && (t.secondsEnd < t.end - 1 ==>
          (s[t.secondsEnd] == '.' || s[t.secondsEnd] == ':')
          && 1 <= t.end - 1 - t.secondsEnd - 1 <= 3 && DigitsIn(s, t.secondsEnd + 1, t.end - 1))
  }

  /** The digit run is made of digits and is maximal. */
  lemma {:induction false} DigitRunIsMaximal(s: string, p: nat)
    requires p <= |s|
    ensures DigitsIn(s, p, p + DigitRun(s, p))
    ensures p + DigitRun(s, p) < |s| ==> !IsDigit(s[p + DigitRun(s, p)])
    decreases |s| - p
  {
    if p < |s| && IsDigit(s[p]) {
      DigitRunIsMaximal(s, p + 1);
    }
  }

  /** Every tag the scanner accepts has the regular expression's shape. */
  lemma TagAtShape(s: string, p: nat)
    requires p <= |s| && TagAt(s, p).Some?
    ensures IsTag(s, TagAt(s, p).value)
  {
    var t := TagAt(s, p).value;
    DigitRunIsMaximal(s, p + 1);
    DigitRunIsMaximal(s, t.colon + 1);
    DigitRunIsMaximal(s, t.secondsEnd + 1);
  }

  /** Conversely, text of a tag's shape is found by the scanner, with exactly those positions. */
  lemma TagAtComplete(s: string, t: TimeTag)
    requires IsTag(s, t)
    ensures TagAt(s, t.start).Some? && TagAt(s, t.start).value == t
  {
    DigitRunOfDigits(s, t.start + 1, t.colon);
    DigitRunOfDigits(s, t.colon + 1, t.secondsEnd);
    if t.secondsEnd < t.end - 1 {
      DigitRunOfDigits(s, t.secondsEnd + 1, t.end - 1);
    }
  }

  /** A run of digits that is followed by a non-digit is the maximal run. */
  lemma {:induction false} DigitRunOfDigits(s: string, i: nat, j: nat)
    requires i <= j < |s| && DigitsIn(s, i, j) && !IsDigit(s[j])
    ensures DigitRun(s, i) == j - i
    decreases j - i
  {
    if i < j {
      DigitRunOfDigits(s, i + 1, j);
    }
  }

  /** `timeRegex.exec(line)` with `lastIndex == from`: the leftmost tag at or after `from`. */
  function NextTag(s: string, from: nat): (m: Option<TimeTag>)
    requires from <= |s|
    ensures m.Some? ==> from <= m.value.start && m.value.start + 5 <= m.value.end <= |s|
    decreases |s| - from
  {
    if TagAt(s, from).Some? then TagAt(s, from)
    else if from == |s| then None
    else NextTag(s, from + 1)
  }

  /** `NextTag` finds the leftmost match: there is none before it, and none at all when it fails. */
  lemma {:induction false} NextTagIsLeftmost(s: string, from: nat)
    requires from <= |s|
    ensures NextTag(s, from).Some? ==> TagAt(s, NextTag(s, from).value.start) == NextTag(s, from)
    ensures NextTag(s, from).Some? ==> forall p :: from <= p < NextTag(s, from).value.start ==> TagAt(s, p).None?
    ensures NextTag(s, from).None? ==> forall p :: from <= p <= |s| ==> TagAt(s, p).None?
    decreases |s| - from
  {
    if TagAt(s, from).None? && from < |s| {
      NextTagIsLeftmost(s, from + 1);
    }
  }

  /** All tags found by repeated `exec` from position `from`, in order of position. */
  function TagsFrom(s: string, from: nat): (tags: seq<TimeTag>)
    requires from <= |s|
    ensures forall k :: 0 <= k < |tags| ==> from <= tags[k].start && tags[k].start + 5 <= tags[k].end <= |s|
    ensures forall k :: 0 <= k < |tags| - 1 ==> tags[k].end <= tags[k + 1].start
    decreases |s| - from
  {
    match NextTag(s, from)
    case None => []
    case Some(m) => [m] + TagsFrom(s, m.end)
  }

  /** Every tag `TagsFrom` lists is one the regular expression matches, with its shape. */
  lemma {:induction false} TagsFromAreMatches(s: string, from: nat)
    requires from <= |s|
    ensures forall k :: 0 <= k < |TagsFrom(s, from)| ==>
      TagAt(s, TagsFrom(s, from)[k].start) == Some(TagsFrom(s, from)[k]) && IsTag(s, TagsFrom(s, from)[k])
    decreases |s| - from
  {
    NextTagIsLeftmost(s, from);
    var m := NextTag(s, from);
    if m.Some? {
      TagAtShape(s, m.value.start);
      TagsFromAreMatches(s, m.value.end);
    }
  }

  /** The times of a sequence of tags of `s`, in the same order. */
  function TimesOf(s: string, tags: seq<TimeTag>): (times: seq<real>)
    requires forall k :: 0 <= k < |tags| ==> tags[k].start + 2 <= tags[k].end <= |s|
  {
    seq(|tags|, k requires 0 <= k < |tags| => ParseTime(Capture(s, tags[k])))
  }

  /** `lastIndex` after the scan: the end of the last tag, or 0 when there is none. */
  function LastTagEnd(tags: seq<TimeTag>): nat {
    if tags == [] then 0 else tags[|tags| - 1].end
  }

  /** `mm:ss`: one `:` and no `.`. */
  lemma ParseTimeWhole(m: string, x: string)
    requires ':' !in m && ':' !in x && '.' !in x
    ensures ParseTime(m + [':'] + x) == (IntValue(m) * 60 + IntValue(x)) as real
  {
    SplitAtFirst(m, ':', x);
    SplitWithoutSeparator(x, ':');
    SplitWithoutSeparator(x, '.');
  }

  /** `mm:ss.fff`: the fraction is added. */
  lemma ParseTimeDot(m: string, x: string, f: string)
    requires ':' !in m && ':' !in x && ':' !in f && '.' !in x && '.' !in f
    ensures ParseTime(m + [':'] + (x + ['.'] + f))
         == (IntValue(m) * 60 + IntValue(x)) as real + FractionValue(f)
  {
    var y := x + ['.'] + f;
    assert ':' !in y by {
      forall k | 0 <= k < |y| ensures y[k] != ':' {
        if k < |x| { assert y[k] == x[k]; } else if k > |x| { assert y[k] == f[k - |x| - 1]; }
      }
    }
    SplitAtFirst(m, ':', y);
    SplitWithoutSeparator(y, ':');
    assert Split(m + [':'] + y, ':') == [m, y];
    SplitAtFirst(x, '.', f);
    SplitWithoutSeparator(f, '.');
    assert Split(y, '.') == [x, f];
    assert SecondsValue(y) == IntValue(x) as real + FractionValue(f);
  }

  /** `mm:ss:fff`: two colons, so `parseTime` gives 0. */
  lemma ParseTimeColon(m: string, x: string, f: string)
    requires ':' !in m && ':' !in x && ':' !in f
    ensures ParseTime(m + [':'] + (x + [':'] + f)) == 0.0
  {
    SplitAtFirst(m, ':', x + [':'] + f);
    SplitAtFirst(x, ':', f);
    SplitWithoutSeparator(f, ':');
  }

  /** `parseTime(match[1])` on the capture of a tag `[mm:ss]` is minutes * 60 + seconds. */
  lemma WholeTagTime(s: string, t: TimeTag)
    requires IsTag(s, t) && t.secondsEnd == t.end - 1
    ensures ParseTime(Capture(s, t))
         == (IntValue(s[t.start + 1 .. t.colon]) * 60 + IntValue(s[t.colon + 1 .. t.secondsEnd])) as real
  {
    var mins, secs := s[t.start + 1 .. t.colon], s[t.colon + 1 .. t.secondsEnd];
    DigitsHaveNoSeparator(s, t.start + 1, t.colon);
    DigitsHaveNoSeparator(s, t.colon + 1, t.secondsEnd);
    assert Capture(s, t) == mins + [':'] + secs;
    ParseTimeWhole(mins, secs);
  }

  /**
   * `parseTime(match[1])` on the capture of a tag `[mm:ss.fff]` adds the
   * fraction; on a tag `[mm:ss:fff]` it is 0, since that capture has two colons.
   */
  lemma FractionTagTime(s: string, t: TimeTag)
    requires IsTag(s, t) && t.secondsEnd < t.end - 1
    ensures ParseTime(Capture(s, t))
         == if s[t.secondsEnd] == ':' then 0.0
            else ((IntValue(s[t.start + 1 .. t.colon]) * 60 + IntValue(s[t.colon + 1 .. t.secondsEnd])) as real
                  + FractionValue(s[t.secondsEnd + 1 .. t.end - 1]))
  {
    var mins, secs, frac := s[t.start + 1 .. t.colon], s[t.colon + 1 .. t.secondsEnd], s[t.secondsEnd + 1 .. t.end - 1];
    DigitsHaveNoSeparator(s, t.start + 1, t.colon);
    DigitsHaveNoSeparator(s, t.colon + 1, t.secondsEnd);
    DigitsHaveNoSeparator(s, t.secondsEnd + 1, t.end - 1);
    assert Capture(s, t) == mins + [':'] + (secs + [s[t.secondsEnd]] + frac);
    if s[t.secondsEnd] == '.' {
      ParseTimeDot(mins, secs, frac);
    } else {
      ParseTimeColon(mins, secs, frac);
    }
  }

  lemma DigitsHaveNoSeparator(s: string, i: nat, j: nat)
    requires i <= j <= |s| && DigitsIn(s, i, j)
    ensures ':' !in s[i .. j] && '.' !in s[i .. j]
  {
    forall k | 0 <= k < j - i ensures s[i .. j][k] != ':' && s[i .. j][k] != '.' {
      assert IsDigit(s[i + k]);
    }
  }

  /** The worked example of `parseTime`: `'01:02.410'` is 62.41 seconds. */
  lemma ParseTimeExample()
    ensures ParseTime("01:02.410") == 62.41
  {
    assert "01:02.410" == "01" + [':'] + ("02" + ['.'] + "410");
    ParseTimeDot("01", "02", "410");
    assert IntValue("01") == 1 && IntValue("02") == 2 && IntValue("410") == 410;
    assert Pow10(|"410"|) == 1000;
    assert FractionValue("410") == 0.41;
  }

  // ---------------------------------------------------------------------------
  // Lines

  /** `lrcStr.split(/\r?\n/)`: the pieces between line feeds, each losing one `\r` before its line feed. */
  function SplitLines(s: string): (lines: seq<string>)
    ensures |lines| == Count(s, '\n') + 1
  {
    CrDropped(Split(s, '\n'))
  }

  /** Every piece but the last loses one `\r` at its end. */
  function CrDropped(parts: seq<string>): (r: seq<string>)
    ensures |r| == |parts|
  {
    seq(|parts|, k requires 0 <= k < |parts| => if k < |parts| - 1 then WithoutCr(parts[k]) else parts[k])
  }

  function WithoutCr(a: string): string {
    if |a| > 0 && a[|a| - 1] == '\r' then a[..|a| - 1] else a
  }

  /** The text with the `\r` of every `\r\n` pair removed: what joining the lines with `\n` should give. */
  function CrlfAsLf(s: string): string {
    if s == [] then []
    else if |s| >= 2 && s[0] == '\r' && s[1] == '\n' then ['\n'] + CrlfAsLf(s[2..])
    else [s[0]] + CrlfAsLf(s[1..])
  }

  /** The lines, joined again with line feeds, are the text with each `\r\n` turned into `\n`. */
  lemma SplitLinesJoin(s: string)
    ensures Join(SplitLines(s), "\n") == CrlfAsLf(s)
  {
    SplitPiecesHaveNoSeparator(s, '\n');
    JoinSplit(s, '\n');
    JoinCrDropped(Split(s, '\n'));
  }

  lemma {:induction false} SplitPiecesHaveNoSeparator(s: string, sep: char)
    ensures forall k :: 0 <= k < |Split(s, sep)| ==> sep !in Split(s, sep)[k]
  {
    if s != [] {
      SplitPiecesHaveNoSeparator(s[1..], sep);
    }
  }

  lemma {:induction false} JoinCrDropped(parts: seq<string>)
    requires |parts| >= 1
    requires forall k :: 0 <= k < |parts| ==> '\n' !in parts[k]
    ensures Join(CrDropped(parts), "\n") == CrlfAsLf(Join(parts, "\n"))
  {
    var r := CrDropped(parts);
    if |parts| == 1 {
      NoCrlf(parts[0]);
    } else {
      var rest := parts[1..];
      assert r[1..] == CrDropped(rest);
      JoinCrDropped(rest);
      CrlfAfterPiece(parts[0], Join(rest, "\n"));
    }
  }

  /** Text without line feeds has no `\r\n` pair to change. */
  lemma {:induction false} NoCrlf(a: string)
    requires '\n' !in a
    ensures CrlfAsLf(a) == a
  {
    if a != [] {
      assert a[1..] == a[1..] && '\n' !in a[1..];
      NoCrlf(a[1..]);
      if |a| >= 2 {
        assert a[1] != '\n';
      }
    }
  }

  /** A piece followed by a line feed loses the `\r` just before it. */
  lemma {:induction false} CrlfAfterPiece(a: string, b: string)
    requires '\n' !in a
    ensures CrlfAsLf(a + "\n" + b) == WithoutCr(a) + "\n" + CrlfAsLf(b)
  {
    var s := a + "\n" + b;
    if a == [] {
      assert s == ['\n'] + b && s[1..] == b;
    } else if a == ['\r'] {
      assert s[2..] == b;
    } else {
      assert '\n' !in a[1..];
      assert s[1..] == a[1..] + "\n" + b;
      CrlfAfterPiece(a[1..], b);
      if |a| >= 2 {
        assert a[1] == s[1] && a[1] != '\n';
      }
      assert WithoutCr(a) == [a[0]] + WithoutCr(a[1..]);
    }
  }

  /** `.filter((line) => line.trim())`. */
  function NonBlank(lines: seq<string>): (kept: seq<string>)
    ensures |kept| <= |lines|
    ensures forall k :: 0 <= k < |kept| ==> Trim(kept[k]) != []
  {
    if lines == [] then []
    else
      var last := lines[|lines| - 1];
      NonBlank(lines[..|lines| - 1]) + (if Trim(last) != [] then [last] else [])
  }

  /** The filter keeps exactly the lines that are not blank. */
  lemma {:induction false} NonBlankMembers(lines: seq<string>, x: string)
    ensures x in NonBlank(lines) <==> x in lines && Trim(x) != []
  {
    if lines != [] {
      var init := lines[..|lines| - 1];
      NonBlankMembers(init, x);
      assert lines == init + [lines[|lines| - 1]];
    }
  }

  /** The filter keeps the order of the lines: filtering two texts in turn is filtering them together. */
  lemma {:induction false} NonBlankAppend(a: seq<string>, b: seq<string>)
    ensures NonBlank(a + b) == NonBlank(a) + NonBlank(b)
  {
    if b == [] {
      assert a + b == a;
    } else {
      var init := b[..|b| - 1];
      NonBlankAppend(a, init);
      assert (a + b)[..|a + b| - 1] == a + init;
      assert (a + b)[|a + b| - 1] == b[|b| - 1];
    }
  }

  /** `/^\[[a-zA-Z]+:/.test(line)`: a metadata tag such as `[ti:...]`. */
  predicate IsMetadataLine(line: string) {
    |line| > 0 && line[0] == '['
    && var n := LetterRun(line, 1);
       n >= 1 && 1 + n < |line| && line[1 + n] == ':'
  }

  /** `line.startsWith('{')`: a JSON metadata row. */
  predicate IsJsonLine(line: string) {
    |line| > 0 && line[0] == '{'
  }

  /** What one input line contributes. */
  datatype LineKind = Skipped | Untimed(text: string) | Timed(times: seq<real>, text: string)

  function Classify(line: string): LineKind {
    if IsJsonLine(line) || IsMetadataLine(line) then Skipped
    else
      var tags := TagsFrom(line, 0);
      if tags == [] then Untimed(Trim(line))
      else Timed(TimesOf(line, tags), Trim(line[LastTagEnd(tags)..]))
  }

  /** The entries pushed for one line; `counter` is the running `index` of untimed entries. */
  function LineEntries(kind: LineKind, counter: nat): seq<LyricLine> {
    match kind
    case Skipped => []
    case Untimed(text) => if text != [] then [LyricLine(0.0, 0.0, text, counter)] else []
    case Timed(times, text) => seq(|times|, k requires 0 <= k < |times| => LyricLine(times[k], 0.0, text, 0))
  }

  predicate PushesUntimed(line: string) {
    Classify(line).Untimed? && Classify(line).text != []
  }

  predicate IsMultiTag(line: string) {
    Classify(line).Timed? && |Classify(line).times| > 1
  }

  /** The value of the `index` counter after the given lines. */
  function UntimedCount(lines: seq<string>): nat {
    if lines == [] then 0
    else UntimedCount(lines[..|lines| - 1]) + (if PushesUntimed(lines[|lines| - 1]) then 1 else 0)
  }

  /** The `result` array after the main loop has processed the given lines. */
  function Collect(lines: seq<string>): seq<LyricLine> {
    if lines == [] then []
    else
      var prefix := lines[..|lines| - 1];
      Collect(prefix) + LineEntries(Classify(lines[|lines| - 1]), UntimedCount(prefix))
  }

  /** `needSort` after the given lines: some line carried more than one tag. */
  predicate NeedSort(lines: seq<string>) {
    lines != [] && (NeedSort(lines[..|lines| - 1]) || IsMultiTag(lines[|lines| - 1]))
  }

  /** `result.some((line) => line.time > 0)`. */
  predicate HasValidTime(entries: seq<LyricLine>) {
    exists k :: 0 <= k < |entries| && entries[k].time > 0.0
  }

  /** The untimed branch: positions become the indices, nothing else changes. */
  function Reindexed(entries: seq<LyricLine>): seq<LyricLine> {
    seq(|entries|, i requires 0 <= i < |entries| => entries[i].(index := i))
  }

  /** The timed branch's last loop: indices, and durations up to the next line (5 s for the last). */
  function WithDurations(entries: seq<LyricLine>): seq<LyricLine> {
    seq(|entries|, i requires 0 <= i < |entries| =>
      entries[i].(index := i,
                  duration := if i < |entries| - 1 then entries[i + 1].time - entries[i].time
                              else LastLineDuration))
  }

  // ---------------------------------------------------------------------------
  // Sorting: `result.sort((a, b) => a.time - b.time)`, a stable sort by time

  predicate IsTimeOrdered(s: seq<LyricLine>) {
    forall i, j :: 0 <= i < j < |s| ==> s[i].time <= s[j].time
  }

  /** Inserts `x` after every element whose time is not later than its own. */
  function InsertByTime(s: seq<LyricLine>, x: LyricLine): (r: seq<LyricLine>)
    ensures |r| == |s| + 1
  {
    if s == [] || s[|s| - 1].time <= x.time then s + [x]
    else InsertByTime(s[..|s| - 1], x) + [s[|s| - 1]]
  }

  /** The stable sort by time, as insertion sort. */
  function SortedByTime(s: seq<LyricLine>): (r: seq<LyricLine>)
    ensures |r| == |s|
  {
    if s == [] then [] else InsertByTime(SortedByTime(s[..|s| - 1]), s[|s| - 1])
  }

  /** The entries of `s` whose time is `v`, in their order in `s`. */
  function WithTime(s: seq<LyricLine>, v: real): seq<LyricLine> {
    if s == [] then []
    else if s[|s| - 1].time == v then WithTime(s[..|s| - 1], v) + [s[|s| - 1]]
    else WithTime(s[..|s| - 1], v)
  }

  /** Where `InsertByTime` puts `x`: after the elements not later than it, before the later ones. */
  lemma {:induction false} InsertAt(s: seq<LyricLine>, x: LyricLine, j: nat)
    requires j <= |s|
    requires j == 0 || s[j - 1].time <= x.time
    requires forall k :: j <= k < |s| ==> s[k].time > x.time
    ensures InsertByTime(s, x) == s[..j] + [x] + s[j..]
  {
    if j < |s| {
      var init := s[..|s| - 1];
      InsertAt(init, x, j);
      assert init[..j] == s[..j];
      assert init[j..] + [s[|s| - 1]] == s[j..];
    }
  }

  lemma {:induction false} InsertPosition(s: seq<LyricLine>, x: LyricLine) returns (j: nat)
    ensures j <= |s|
    ensures j == 0 || s[j - 1].time <= x.time
    ensures forall k :: j <= k < |s| ==> s[k].time > x.time
    ensures InsertByTime(s, x) == s[..j] + [x] + s[j..]
  {
    if s == [] || s[|s| - 1].time <= x.time {
      j := |s|;
    } else {
      j := InsertPosition(s[..|s| - 1], x);
    }
    InsertAt(s, x, j);
  }

  /** Putting `x` between the entries not later than it and the later ones keeps an ordered sequence ordered. */
  lemma InsertKeepsOrder(p: seq<LyricLine>, x: LyricLine, j: nat)
    requires IsTimeOrdered(p) && j <= |p|
    requires j == 0 || p[j - 1].time <= x.time
    requires forall k :: j <= k < |p| ==> p[k].time > x.time
    ensures IsTimeOrdered(p[..j] + [x] + p[j..])
  {
    var r := p[..j] + [x] + p[j..];
    forall a, b | 0 <= a < b < |r| ensures r[a].time <= r[b].time {
      if b < j || a > j {
      } else if a == j {
        assert r[b] == p[b - 1];
      } else if b == j {
        assert r[a] == p[a] && p[a].time <= p[j - 1].time;
      } else {
        assert r[a] == p[a] && r[b] == p[b - 1];
      }
    }
  }

  /** `SortedByTime` orders by time. */
  lemma {:induction false} SortedByTimeIsOrdered(s: seq<LyricLine>)
    ensures IsTimeOrdered(SortedByTime(s))
  {
    if s != [] {
      var init, x := s[..|s| - 1], s[|s| - 1];
      SortedByTimeIsOrdered(init);
      var p := SortedByTime(init);
      var j := InsertPosition(p, x);
      InsertKeepsOrder(p, x, j);
    }
  }

  /** `SortedByTime` rearranges its input and nothing else. */
  lemma {:induction false} SortedByTimeIsPermutation(s: seq<LyricLine>)
    ensures multiset(SortedByTime(s)) == multiset(s)
  {
    if s != [] {
      var init, x := s[..|s| - 1], s[|s| - 1];
      SortedByTimeIsPermutation(init);
      var p := SortedByTime(init);
      var j := InsertPosition(p, x);
      MultisetSplit(p, j);
      MultisetSnoc(s);
    }
  }

  lemma MultisetSnoc(s: seq<LyricLine>)
    requires s != []
    ensures multiset(s) == multiset(s[..|s| - 1]) + multiset{s[|s| - 1]}
  {
    assert s == s[..|s| - 1] + [s[|s| - 1]];
  }

  lemma MultisetSplit(s: seq<LyricLine>, j: nat)
    requires j <= |s|
    ensures multiset(s) == multiset(s[..j]) + multiset(s[j..])
  {
    assert s == s[..j] + s[j..];
  }

  /** `SortedByTime` keeps entries of equal time in their input order. */
  lemma {:induction false} SortedByTimeIsStable(s: seq<LyricLine>, v: real)
    ensures WithTime(SortedByTime(s), v) == WithTime(s, v)
  {
    if s != [] {
      SortedByTimeIsStable(s[..|s| - 1], v);
      InsertKeepsWithTime(SortedByTime(s[..|s| - 1]), s[|s| - 1], v);
    }
  }

  /** Inserting `x` puts it after every entry of its own time. */
  lemma {:induction false} InsertKeepsWithTime(p: seq<LyricLine>, x: LyricLine, v: real)
    ensures WithTime(InsertByTime(p, x), v) == if x.time == v then WithTime(p, v) + [x] else WithTime(p, v)
  {
    if p == [] || p[|p| - 1].time <= x.time {
      assert (p + [x])[..|p|] == p;
    } else {
      var init, last := p[..|p| - 1], p[|p| - 1];
      InsertKeepsWithTime(init, x, v);
      var q := InsertByTime(init, x);
      assert (q + [last])[..|q|] == q;
    }
  }

  /** The in-place sort: insertion sort, moving later entries right. */
  method SortByTime(a: array<LyricLine>)
    modifies a
    ensures a[..] == SortedByTime(old(a[..]))
  {
    ghost var orig := a[..];
    for i := 0 to a.Length
      invariant a[..i] == SortedByTime(orig[..i])
      invariant a[i..] == orig[i..]
    {
      assert orig[..i + 1][..i] == orig[..i];
      InsertInto(a, i);
    }
    assert orig[..a.Length] == orig;
  }

  /** One pass of the insertion sort: `a[i]` moves left past the entries later than it. */
  method InsertInto(a: array<LyricLine>, i: nat)
    requires i < a.Length
    modifies a
    ensures a[..i + 1] == InsertByTime(old(a[..i]), old(a[i]))
    ensures a[i + 1..] == old(a[i + 1..])
  {
    ghost var p := a[..i];
    ghost var rest := a[i + 1..];
    var x := a[i];
    var j := i;
    while j > 0 && a[j - 1].time > x.time
      invariant 0 <= j <= i
      invariant forall k :: 0 <= k < j ==> a[k] == p[k]
      invariant forall k :: j < k <= i ==> a[k] == p[k - 1]
      invariant forall k :: j <= k < i ==> p[k].time > x.time
      invariant a[i + 1..] == rest
    {
      a[j] := a[j - 1];
      j := j - 1;
    }
    InsertAt(p, x, j);
    a[j] := x;
    ShiftedIsInserted(a[..], p, x, j);
  }

  /** The array after the shifting loop and the final store, on values. */
  lemma ShiftedIsInserted(cur: seq<LyricLine>, p: seq<LyricLine>, x: LyricLine, j: nat)
    requires j <= |p| < |cur|
    requires forall k :: 0 <= k < j ==> cur[k] == p[k]
    requires cur[j] == x
    requires forall k :: j < k <= |p| ==> cur[k] == p[k - 1]
    ensures cur[..|p| + 1] == p[..j] + [x] + p[j..]
  {
    var q := p[..j] + [x] + p[j..];
    assert forall k :: 0 <= k <= |p| ==> cur[k] == q[k];
  }


  // ---------------------------------------------------------------------------
  // parseLRC

  /** The non-blank input lines the main loop visits. */
  function Lines(lrc: string): seq<string> {
    NonBlank(SplitLines(lrc))
  }

  /** `parseLRC(lrcStr)` as a function of the text. */
  function Parsed(lrc: string): (r: ParseResult)
    ensures |r.lines| == if Trim(lrc) == [] then 0 else |Collect(Lines(lrc))|
  {
    if Trim(lrc) == [] then ParseResult([], true)
    else
      var lines := Lines(lrc);
      var raw := Collect(lines);
      if !HasValidTime(raw) && |raw| > 0 then ParseResult(Reindexed(raw), true)
      else ParseResult(WithDurations(if NeedSort(lines) then SortedByTime(raw) else raw), false)
  }

  /** The `while ((match = timeRegex.exec(line)) !== null)` loop. */
  method ScanTimeTags(line: string) returns (timeTags: seq<real>, lastIndex: nat)
    ensures timeTags == TimesOf(line, TagsFrom(line, 0))
    ensures lastIndex == LastTagEnd(TagsFrom(line, 0))
    ensures lastIndex <= |line|
  {
    timeTags, lastIndex := [], 0;
    var regexLastIndex := 0;
    ghost var found: seq<TimeTag> := [];
    var m := NextTag(line, regexLastIndex);
    while m.Some?
      invariant regexLastIndex == lastIndex <= |line|
      invariant m == NextTag(line, regexLastIndex)
      invariant found + TagsFrom(line, regexLastIndex) == TagsFrom(line, 0)
      invariant forall k :: 0 <= k < |found| ==> found[k].start + 2 <= found[k].end <= |line|
      invariant timeTags == TimesOf(line, found)
      invariant lastIndex == LastTagEnd(found)
      decreases |line| - regexLastIndex
    {
      var tag := m.value;
      ghost var rest := TagsFrom(line, tag.end);
      assert TagsFrom(line, regexLastIndex) == [tag] + rest;
      AppendAssoc(found, [tag], rest);
      TimesOfSnoc(line, found, tag);
      found := found + [tag];
      timeTags := timeTags + [ParseTime(Capture(line, tag))];
      regexLastIndex := tag.end;
      lastIndex := regexLastIndex;
      m := NextTag(line, regexLastIndex);
    }
    assert found == TagsFrom(line, 0);
  }

  lemma AppendAssoc(a: seq<TimeTag>, b: seq<TimeTag>, c: seq<TimeTag>)
    ensures (a + b) + c == a + (b + c)
  {
  }

  lemma TimesOfSnoc(s: string, tags: seq<TimeTag>, t: TimeTag)
    requires forall k :: 0 <= k < |tags| ==> tags[k].start + 2 <= tags[k].end <= |s|
    requires t.start + 2 <= t.end <= |s|
    ensures TimesOf(s, tags + [t]) == TimesOf(s, tags) + [ParseTime(Capture(s, t))]
  {
    var ts := tags + [t];
    assert forall k :: 0 <= k < |tags| ==> ts[k] == tags[k];
  }

  /** `parseLRC`, following its loops step by step. */
  method ParseLrc(lrc: string) returns (r: ParseResult)
    ensures r == Parsed(lrc)
  {
    if Trim(lrc) == [] {
      return ParseResult([], true);
    }
    var lines := NonBlank(SplitLines(lrc));
    var result, needSort := CollectLines(lines);
    if !HasValidTime(result) && |result| > 0 {
      result := IndexInOrder(result);
      return ParseResult(result, true);
    }
    if needSort {
      var a := new LyricLine[|result|](k requires 0 <= k < |result| => result[k]);
      assert a[..] == result;
      SortByTime(a);
      result := a[..];
    }
    result := AssignDurations(result);
    return ParseResult(result, false);
  }

  /** The main `for (const line of lines)` loop. */
  method CollectLines(lines: seq<string>) returns (result: seq<LyricLine>, needSort: bool)
    ensures result == Collect(lines)
    ensures needSort == NeedSort(lines)
  {
    result, needSort := [], false;
    var index: nat := 0;
    for i := 0 to |lines|
      invariant result == Collect(lines[..i])
      invariant index == UntimedCount(lines[..i])
      invariant needSort == NeedSort(lines[..i])
    {
      assert lines[..i + 1][..i] == lines[..i];
      assert lines[..i + 1][i] == lines[i];
      var entries, multiTag;
      entries, index, multiTag := ParseLine(lines[i], index);
      result := result + entries;
      needSort := needSort || multiTag;
    }
    assert lines[..|lines|] == lines;
  }

  /** The body of the main loop for one line: the entries it pushes and the new `index`. */
  method ParseLine(line: string, index: nat) returns (entries: seq<LyricLine>, next: nat, multiTag: bool)
    ensures entries == LineEntries(Classify(line), index)
    ensures next == index + (if PushesUntimed(line) then 1 else 0)
    ensures multiTag == IsMultiTag(line)
  {
    entries, next, multiTag := [], index, false;
    if IsJsonLine(line) {
      return;
    }
    if IsMetadataLine(line) {
      return;
    }
    var timeTags, lastIndex := ScanTimeTags(line);
    ghost var kind := Classify(line);
    assert kind == if timeTags == [] then Untimed(Trim(line)) else Timed(timeTags, Trim(line[lastIndex..]));
    if |timeTags| == 0 {
      var text := Trim(line);
      if text != [] {
        entries := [LyricLine(0.0, 0.0, text, index)];
        next := index + 1;
      }
      return;
    }
    var text := Trim(line[lastIndex..]);
    if |timeTags| > 1 {
      multiTag := true;
    }
    entries := PushTimed(timeTags, text);
  }

  /** `for (const time of timeTags) result.push({ time, duration: 0, text, index: 0 })`. */
  method PushTimed(timeTags: seq<real>, text: string) returns (entries: seq<LyricLine>)
    ensures entries == LineEntries(Timed(timeTags, text), 0)
  {
    entries := [];
    for j := 0 to |timeTags|
      invariant |entries| == j
      invariant forall k :: 0 <= k < j ==> entries[k] == LyricLine(timeTags[k], 0.0, text, 0)
    {
      entries := entries + [LyricLine(timeTags[j], 0.0, text, 0)];
    }
  }

  /** `result.forEach((line, i) => (line.index = i))`. */
  method IndexInOrder(entries: seq<LyricLine>) returns (result: seq<LyricLine>)
    ensures result == Reindexed(entries)
  {
    result := entries;
    for i := 0 to |result|
      invariant |result| == |entries|
      invariant forall k :: 0 <= k < i ==> result[k] == entries[k].(index := k)
      invariant forall k :: i <= k < |entries| ==> result[k] == entries[k]
    {
      result := result[i := result[i].(index := i)];
    }
  }

  /** The last loop: indices in order, and each duration up to the next line's start. */
  method AssignDurations(entries: seq<LyricLine>) returns (result: seq<LyricLine>)
    ensures result == WithDurations(entries)
  {
    result := entries;
    for i := 0 to |result|
      invariant |result| == |entries|
      invariant forall k :: 0 <= k < i ==> result[k] == WithDurations(entries)[k]
      invariant forall k :: i <= k < |entries| ==> result[k] == entries[k]
    {
      if i < |result| - 1 {
        result := result[i := result[i].(index := i, duration := result[i + 1].time - result[i].time)];
      } else {
        result := result[i := result[i].(index := i, duration := LastLineDuration)];
      }
    }
  }

  // ---------------------------------------------------------------------------
  // What parseLRC promises

  /** Empty or whitespace-only text has no lines and no timing. */
  lemma ParsedBlank(lrc: string)
    requires forall k :: 0 <= k < |lrc| ==> IsWhitespace(lrc[k])
    ensures Parsed(lrc) == ParseResult([], true)
  {
    TrimEmptyIffBlank(lrc);
  }

  /** A line with no time tag anywhere gives one entry at time 0 with duration 0, unless its text is blank. */
  lemma UntimedLineEntries(line: string, counter: nat)
    requires !IsJsonLine(line) && !IsMetadataLine(line)
    requires forall p :: 0 <= p <= |line| ==> TagAt(line, p).None?
    ensures LineEntries(Classify(line), counter)
         == if Trim(line) == [] then [] else [LyricLine(0.0, 0.0, Trim(line), counter)]
  {
    NextTagIsLeftmost(line, 0);
  }

  /**
   * On a line where the regular expression matches somewhere, the scan finds
   * at least one tag, and each tag it finds is a match at its own position.
   */
  lemma TimedLineTags(line: string)
    requires exists p :: 0 <= p <= |line| && TagAt(line, p).Some?
    ensures var tags := TagsFrom(line, 0);
      tags != []
      && forall k :: 0 <= k < |tags| ==> TagAt(line, tags[k].start) == Some(tags[k]) && IsTag(line, tags[k])
  {
    NextTagIsLeftmost(line, 0);
    TagsFromAreMatches(line, 0);
  }

  /**
   * A line with time tags gives one entry per tag, in the order of the tags,
   * at the tag's time; all entries share the trimmed text after the last tag.
   */
  lemma TimedLineEntries(line: string, counter: nat)
    requires !IsJsonLine(line) && !IsMetadataLine(line) && TagsFrom(line, 0) != []
    ensures var tags := TagsFrom(line, 0);
      var entries := LineEntries(Classify(line), counter);
      |entries| == |tags|
      && forall k :: 0 <= k < |tags| ==>
           entries[k] == LyricLine(ParseTime(Capture(line, tags[k])), 0.0, Trim(line[tags[|tags| - 1].end..]), 0)
  {
    var tags := TagsFrom(line, 0);
    var text := Trim(line[LastTagEnd(tags)..]);
    var times := TimesOf(line, tags);
    assert Classify(line) == Timed(times, text);
    var entries := LineEntries(Timed(times, text), counter);
    forall k | 0 <= k < |tags|
      ensures entries[k] == LyricLine(ParseTime(Capture(line, tags[k])), 0.0, text, 0)
    {
      assert entries[k] == LyricLine(times[k], 0.0, text, 0);
    }
  }

  /** `{...}` rows and `[xx:...]` metadata rows give nothing. */
  lemma SkippedLineEntries(line: string, counter: nat)
    requires IsJsonLine(line) || IsMetadataLine(line)
    ensures LineEntries(Classify(line), counter) == []
  {
  }

  /** Every entry the main loop pushes has duration 0 and a time that is not negative. */
  lemma {:induction false} CollectedEntries(lines: seq<string>)
    ensures forall k :: 0 <= k < |Collect(lines)| ==> Collect(lines)[k].duration == 0.0 && Collect(lines)[k].time >= 0.0
  {
    if lines != [] {
      var prefix := lines[..|lines| - 1];
      CollectedEntries(prefix);
      var entries := LineEntries(Classify(lines[|lines| - 1]), UntimedCount(prefix));
      assert forall k :: 0 <= k < |entries| ==> entries[k].duration == 0.0 && entries[k].time >= 0.0;
      assert Collect(lines) == Collect(prefix) + entries;
    }
  }

  /** Lyrics are marked untimed exactly when the text is blank or every collected entry is at time 0. */
  lemma ParsedNoTimestamp(lrc: string)
    ensures Parsed(lrc).noTimestamp
        <==> Trim(lrc) == []
             || (|Collect(Lines(lrc))| > 0 && forall k :: 0 <= k < |Collect(Lines(lrc))| ==> Collect(Lines(lrc))[k].time == 0.0)
  {
    CollectedEntries(Lines(lrc));
  }

  /** Untimed lyrics: the collected entries in input order, indexed by position, all at time 0 with duration 0. */
  lemma ParsedUntimed(lrc: string)
    requires Trim(lrc) != [] && Parsed(lrc).noTimestamp
    ensures var raw, ls := Collect(Lines(lrc)), Parsed(lrc).lines;
      |ls| == |raw| > 0
      && forall i :: 0 <= i < |ls| ==> ls[i] == LyricLine(0.0, 0.0, raw[i].text, i)
  {
    CollectedEntries(Lines(lrc));
  }

  /** Text whose lines produce no entries (only metadata, say) parses to no lines, marked as timed. */
  lemma ParsedNothingCollected(lrc: string)
    requires Trim(lrc) != [] && Collect(Lines(lrc)) == []
    ensures Parsed(lrc) == ParseResult([], false)
  {
  }

  /**
   * Timed lyrics: indices are positions, each duration runs to the next line's
   * start and the last is 5 s. The entries come in input order unless some
   * line carried several tags, in which case they come in the order of the
   * stable sort by time, and then no duration is negative.
   */
  lemma ParsedTimed(lrc: string)
    requires !Parsed(lrc).noTimestamp
    ensures var raw, ls := Collect(Lines(lrc)), Parsed(lrc).lines;
      |ls| == |raw|
      && (forall i :: 0 <= i < |ls| ==> ls[i].index == i)
      && (forall i :: 0 <= i < |ls| - 1 ==> ls[i].duration == ls[i + 1].time - ls[i].time)
      && (|ls| > 0 ==> ls[|ls| - 1].duration == LastLineDuration)
    ensures var raw, ls := Collect(Lines(lrc)), Parsed(lrc).lines;
      !NeedSort(Lines(lrc)) ==> forall i :: 0 <= i < |ls| ==> ls[i].time == raw[i].time && ls[i].text == raw[i].text
    ensures var raw, ls := Collect(Lines(lrc)), Parsed(lrc).lines;
      NeedSort(Lines(lrc)) ==>
        (forall i :: 0 <= i < |ls| ==> ls[i].time == SortedByTime(raw)[i].time && ls[i].text == SortedByTime(raw)[i].text)
        && IsTimeOrdered(ls)
        && forall i :: 0 <= i < |ls| ==> ls[i].duration >= 0.0
  {
    var raw := Collect(Lines(lrc));
    var order := TimedOrder(lrc);
    WithDurationsKeepsEntries(order);
    if NeedSort(Lines(lrc)) {
      SortedByTimeIsOrdered(raw);
      WithDurationsOfOrdered(order);
    }
  }

  /** The entries the timed branch's last loop runs over. */
  lemma TimedOrder(lrc: string) returns (order: seq<LyricLine>)
    requires !Parsed(lrc).noTimestamp
    ensures order == if NeedSort(Lines(lrc)) then SortedByTime(Collect(Lines(lrc))) else Collect(Lines(lrc))
    ensures Parsed(lrc).lines == WithDurations(order)
  {
    order := if NeedSort(Lines(lrc)) then SortedByTime(Collect(Lines(lrc))) else Collect(Lines(lrc));
  }

  /** The last loop keeps each entry's time and text, sets its index, and sets durations to the gaps. */
  lemma WithDurationsKeepsEntries(s: seq<LyricLine>)
    ensures var ls := WithDurations(s);
      |ls| == |s|
      && (forall i :: 0 <= i < |ls| ==> ls[i].index == i && ls[i].time == s[i].time && ls[i].text == s[i].text)
      && (forall i :: 0 <= i < |ls| - 1 ==> ls[i].duration == ls[i + 1].time - ls[i].time)
      && (|ls| > 0 ==> ls[|ls| - 1].duration == LastLineDuration)
  {
    var ls := WithDurations(s);
    forall i | 0 <= i < |ls| - 1 ensures ls[i].duration == ls[i + 1].time - ls[i].time {
      assert ls[i + 1].time == s[i + 1].time;
    }
  }

  /** On entries ordered by time, the durations are not negative and the order is kept. */
  lemma WithDurationsOfOrdered(s: seq<LyricLine>)
    requires IsTimeOrdered(s)
    ensures IsTimeOrdered(WithDurations(s))
    ensures forall i :: 0 <= i < |s| ==> WithDurations(s)[i].duration >= 0.0
  {
    var ls := WithDurations(s);
    forall i | 0 <= i < |ls| ensures ls[i].duration >= 0.0 {
      if i < |ls| - 1 {
        assert s[i].time <= s[i + 1].time;
      }
    }
  }
}
