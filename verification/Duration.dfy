/** The last time stamp in ffmpeg's output, in milliseconds (internal/utils/transcoding.go:17, 276-293). */
module Duration {
  import opened Text

  // ---- the pattern time=([0-9]{2}:[0-9]{2}:[0-9]{2}\.[0-9]+)

  predicate TwoDigitsAt(s: string, p: nat) {
    p + 2 <= |s| && IsDigit(s[p]) && IsDigit(s[p + 1])
  }

  predicate StampAt(s: string, p: nat) {
    && p + 15 <= |s|
    && s[p] == 't' && s[p + 1] == 'i' && s[p + 2] == 'm' && s[p + 3] == 'e' && s[p + 4] == '='
    && TwoDigitsAt(s, p + 5) && s[p + 7] == ':'
    && TwoDigitsAt(s, p + 8) && s[p + 10] == ':'
    && TwoDigitsAt(s, p + 11) && s[p + 13] == '.'
    && IsDigit(s[p + 14])
  }

  /** Where the run of digits that starts at k ends. */
  function RunEnd(s: string, k: nat): (e: nat)
    requires k <= |s|
    ensures k <= e <= |s| && (e == |s| || !IsDigit(s[e])) && forall i :: k <= i < e ==> IsDigit(s[i])
    decreases |s| - k
  {
    if k < |s| && IsDigit(s[k]) then RunEnd(s, k + 1) else k
  }

  /** FindAllStringSubmatch from p on: leftmost matches, each as long as possible, none overlapping. */
  function FindAll(s: string, p: nat): seq<string>
    requires p <= |s|
    decreases |s| - p
  {
    if p == |s| then []
    else if StampAt(s, p) then
      var e := RunEnd(s, p + 14);
      [s[p + 5..e]] + FindAll(s, e)
    else FindAll(s, p + 1)
  }

  /** The text captured at a time stamp. */
  function Captured(s: string, p: nat): string
    requires StampAt(s, p)
  {
    s[p + 5..RunEnd(s, p + 14)]
  }

  lemma {:induction false} FindsNothing(s: string, p: nat)
    requires p <= |s| && forall k: nat :: p <= k ==> !StampAt(s, k)
    ensures FindAll(s, p) == []
    decreases |s| - p
  {
    if p < |s| {
      FindsNothing(s, p + 1);
    }
  }

  lemma NoStampInside(s: string, p: nat, k: nat)
    requires StampAt(s, p) && p < k < RunEnd(s, p + 14)
    ensures !StampAt(s, k)
  {
    if k >= p + 14 {
      assert IsDigit(s[k]);
    }
  }

  lemma StampsApart(s: string, p: nat, q: nat)
    requires StampAt(s, p) && StampAt(s, q) && p < q
    ensures RunEnd(s, p + 14) <= q
  {
    if q < RunEnd(s, p + 14) {
      NoStampInside(s, p, q);
    }
  }

  /** Greedy, non-overlapping matching still ends with the last stamp there is. */
  lemma {:induction false} FindsLast(s: string, p: nat, q: nat)
    requires p <= q && StampAt(s, q) && forall k: nat :: q < k ==> !StampAt(s, k)
    ensures var found := FindAll(s, p); found != [] && found[|found| - 1] == Captured(s, q)
    decreases |s| - p
  {
    if p == q {
      FindsNothing(s, RunEnd(s, q + 14));
    } else if StampAt(s, p) {
      StampsApart(s, p, q);
      FindsLast(s, RunEnd(s, p + 14), q);
    } else {
      FindsLast(s, p + 1, q);
    }
  }

  // ---- the duration

  function Pow10(k: nat): (p: nat)
    ensures p > 0
  {
    if k == 0 then 1 else 10 * Pow10(k - 1)
  }

  /** Nanoseconds of a decimal fraction. Up to nine digits are exact; `rounded` stands for the
      floating-point value of a longer fraction. */
  function FractionNanos(fraction: string, rounded: string -> nat): nat
    requires AllDigits(fraction)
  {
    if |fraction| <= 9 then Value(fraction) * Pow10(9 - |fraction|) else rounded(fraction)
  }

  predicate IsSeconds(s: string) {
    |s| >= 3 && AllDigits(s[..2]) && s[2] == '.' && AllDigits(s[3..])
  }

  /** time.ParseDuration of hours, minutes and seconds, in nanoseconds. */
  function ParseDuration(hours: string, minutes: string, seconds: string, rounded: string -> nat): nat
    requires AllDigits(hours) && AllDigits(minutes) && IsSeconds(seconds)
  {
    (Value(hours) * 3600 + Value(minutes) * 60 + Value(seconds[..2])) * 1_000_000_000 + FractionNanos(seconds[3..], rounded)
  }

  predicate Parses(parts: seq<string>) {
    |parts| == 3 && AllDigits(parts[0]) && AllDigits(parts[1]) && IsSeconds(parts[2])
  }

  /** Milliseconds of a captured stamp. */
  function Millis(stamp: string, rounded: string -> nat): nat {
    var parts := Split(stamp, ':');
    if Parses(parts) then ParseDuration(parts[0], parts[1], parts[2], rounded) / 1_000_000 else 0
  }

  function ParseDurationFromFfmpeg(output: string, rounded: string -> nat): nat {
    var found := FindAll(output, 0);
    if found == [] then 0 else Millis(found[|found| - 1], rounded)
  }

  // ---- printing and reading back

  function Two(n: nat): string
    requires n < 100
  {
    [Digit(n / 10), Digit(n % 10)]
  }

  lemma TwoReadsBack(n: nat)
    requires n < 100
    ensures AllDigits(Two(n)) && Value(Two(n)) == n
  {
    var t := Two(n);
    assert t[..1] == [Digit(n / 10)] && t[..1][..0] == "";
    assert Value(t[..1]) == n / 10;
  }

  function Clock(h: nat, m: nat, s: nat, fraction: string): string
    requires h < 100 && m < 100 && s < 100
  {
    Two(h) + ":" + Two(m) + ":" + Two(s) + "." + fraction
  }

  /** What the stamp looks like: two digits each for hours, minutes and seconds. */
  lemma ClockText(h: nat, m: nat, s: nat, fraction: string)
    requires h < 100 && m < 100 && s < 100
    ensures var c := Clock(h, m, s, fraction);
            && |c| == 9 + |fraction| && c[2] == ':' && c[5] == ':' && c[8] == '.' && c[9..] == fraction
            && 10 * (c[0] as int - '0' as int) + (c[1] as int - '0' as int) == h
            && 10 * (c[3] as int - '0' as int) + (c[4] as int - '0' as int) == m
            && 10 * (c[6] as int - '0' as int) + (c[7] as int - '0' as int) == s
  {
    var c := Clock(h, m, s, fraction);
    assert c[0] == Digit(h / 10) && c[1] == Digit(h % 10);
    assert c[3] == Digit(m / 10) && c[4] == Digit(m % 10);
    assert c[6] == Digit(s / 10) && c[7] == Digit(s % 10);
  }

  lemma ClockSplits(h: nat, m: nat, s: nat, fraction: string)
    requires h < 100 && m < 100 && s < 100 && AllDigits(fraction)
    ensures Split(Clock(h, m, s, fraction), ':') == [Two(h), Two(m), Two(s) + "." + fraction]
  {
    var parts := [Two(h), Two(m), Two(s) + "." + fraction];
    assert Lacks(parts[0], ':') && Lacks(parts[1], ':') && Lacks(parts[2], ':');
    assert parts[..2] == [Two(h), Two(m)] && parts[..2][..1] == [Two(h)];
    assert Join(parts[..2][..1], ':') == Two(h);
    assert Join(parts[..2], ':') == Two(h) + ":" + Two(m);
    assert Join(parts, ':') == Clock(h, m, s, fraction);
    SplitUndoesJoin(parts, ':');
  }

  predicate IsClock(c: string) {
    && |c| >= 10
    && TwoDigitsAt(c, 0) && c[2] == ':' && TwoDigitsAt(c, 3) && c[5] == ':' && TwoDigitsAt(c, 6) && c[8] == '.'
    && forall k :: 9 <= k < |c| ==> IsDigit(c[k])
  }

  lemma ClockShape(h: nat, m: nat, s: nat, fraction: string)
    requires h < 100 && m < 100 && s < 100 && AllDigits(fraction) && fraction != ""
    ensures IsClock(Clock(h, m, s, fraction))
  {
    var c := Clock(h, m, s, fraction);
    assert c[9..] == fraction;
    assert forall k :: 9 <= k < |c| ==> c[k] == fraction[k - 9];
  }

  lemma StampInPlace(text: string, q: nat, clock: string)
    requires IsClock(clock) && q + 5 + |clock| <= |text|
    requires text[q..q + 5] == "time=" && text[q + 5..q + 5 + |clock|] == clock
    requires q + 5 + |clock| == |text| || !IsDigit(text[q + 5 + |clock|])
    ensures StampAt(text, q) && RunEnd(text, q + 14) == q + 5 + |clock| && Captured(text, q) == clock
  {
    var tag := text[q..q + 5];
    assert tag[0] == 't' && tag[1] == 'i' && tag[2] == 'm' && tag[3] == 'e' && tag[4] == '=';
    forall k | q + 5 <= k < q + 5 + |clock| ensures text[k] == clock[k - q - 5] {
      assert text[k] == text[q + 5..q + 5 + |clock|][k - q - 5];
    }
    assert forall k :: q + 14 <= k < q + 5 + |clock| ==> IsDigit(text[k]);
  }

  lemma Slices(before: string, tag: string, clock: string, after: string)
    ensures var text, i := before + tag + clock + after, |before| + |tag|;
            && text[|before|..i] == tag && text[i..i + |clock|] == clock
            && |text| == i + |clock| + |after| && text[i + |clock|..] == after
  {
    var text, i := before + tag + clock + after, |before| + |tag|;
    assert text[..i] == before + tag && text[i..] == clock + after;
    assert text[|before|..i] == text[..i][|before|..];
    assert text[i..i + |clock|] == text[i..][..|clock|];
    assert text[i + |clock|..] == text[i..][|clock|..];
  }

  lemma ClockInPlace(before: string, clock: string, after: string)
    requires IsClock(clock) && (after == "" || !IsDigit(after[0]))
    ensures var text := before + "time=" + clock + after;
            && StampAt(text, |before|) && Captured(text, |before|) == clock
            && RunEnd(text, |before| + 14) == |before| + 5 + |clock|
  {
    var text := before + "time=" + clock + after;
    Slices(before, "time=", clock, after);
    var tail := |before| + 5 + |clock|;
    assert text[tail..] == after;
    assert tail == |text| || text[tail] == after[0];
    StampInPlace(text, |before|, clock);
  }

  lemma StampInTail(text: string, head: nat, after: string, k: nat)
    requires head <= k && head <= |text| && text[head..] == after && StampAt(text, k)
    ensures StampAt(after, k - head)
  {
    forall i | k <= i < |text| ensures after[i - head] == text[i] {
      assert text[head..][i - head] == text[i];
    }
  }

  lemma NoLaterStamp(before: string, clock: string, after: string)
    requires IsClock(clock) && (after == "" || !IsDigit(after[0]))
    requires forall k: nat :: !StampAt(after, k)
    ensures forall k: nat :: |before| < k ==> !StampAt(before + "time=" + clock + after, k)
  {
    var text := before + "time=" + clock + after;
    var head := |before| + 5 + |clock|;
    Slices(before, "time=", clock, after);
    ClockInPlace(before, clock, after);
    forall k: nat | |before| < k && StampAt(text, k) ensures false {
      if k < head {
        NoStampInside(text, |before|, k);
      } else {
        StampInTail(text, head, after, k);
      }
    }
  }

  /** ms is the floor of (seconds + value / 10^digits) seconds, in milliseconds. */
  predicate IsFloor(ms: nat, seconds: nat, value: nat, digits: nat) {
    ms * Pow10(digits) <= (seconds * Pow10(digits) + value) * 1000 < (ms + 1) * Pow10(digits)
  }

  lemma NanosFloor(seconds: nat, value: nat, digits: nat)
    requires 1 <= digits <= 9
    ensures IsFloor((seconds * 1_000_000_000 + value * Pow10(9 - digits)) / 1_000_000, seconds, value, digits)
  {
    assert Pow10(1) == 10 && Pow10(2) == 100 && Pow10(3) == 1000;
    assert Pow10(4) == 10_000 && Pow10(5) == 100_000 && Pow10(6) == 1_000_000;
    assert Pow10(7) == 10_000_000 && Pow10(8) == 100_000_000 && Pow10(9) == 1_000_000_000;
  }

  lemma SecondsShape(s: string, fraction: string)
    requires |s| == 2 && AllDigits(s) && AllDigits(fraction)
    ensures var seconds := s + "." + fraction; IsSeconds(seconds) && seconds[..2] == s && seconds[3..] == fraction
  {
    var seconds := s + "." + fraction;
    assert seconds[..2] == s && seconds[3..] == fraction;
  }

  lemma FloorOf(nanos: nat, seconds: nat, value: nat, digits: nat)
    requires 1 <= digits <= 9 && nanos == seconds * 1_000_000_000 + value * Pow10(9 - digits)
    ensures IsFloor(nanos / 1_000_000, seconds, value, digits)
  {
    NanosFloor(seconds, value, digits);
  }

  lemma NanosOf(a: string, b: string, c: string, seconds: nat, value: nat, digits: nat, rounded: string -> nat)
    requires AllDigits(a) && AllDigits(b) && IsSeconds(c) && 1 <= digits <= 9
    requires seconds == Value(a) * 3600 + Value(b) * 60 + Value(c[..2])
    requires value == Value(c[3..]) && digits == |c[3..]|
    ensures IsFloor(ParseDuration(a, b, c, rounded) / 1_000_000, seconds, value, digits)
  {
    FloorOf(ParseDuration(a, b, c, rounded), seconds, value, digits);
  }

  lemma StampMillis(stamp: string, a: string, b: string, c: string, seconds: nat, value: nat, digits: nat,
                    rounded: string -> nat)
    requires Split(stamp, ':') == [a, b, c] && AllDigits(a) && AllDigits(b) && IsSeconds(c)
    requires IsFloor(ParseDuration(a, b, c, rounded) / 1_000_000, seconds, value, digits)
    ensures IsFloor(Millis(stamp, rounded), seconds, value, digits)
  {
    assert Millis(stamp, rounded) == ParseDuration(a, b, c, rounded) / 1_000_000;
  }

  lemma ClockMillis(h: nat, m: nat, s: nat, fraction: string, seconds: nat, rounded: string -> nat)
    requires h < 100 && m < 100 && s < 100 && AllDigits(fraction) && 1 <= |fraction| <= 9
    requires seconds == h * 3600 + m * 60 + s
    ensures IsFloor(Millis(Clock(h, m, s, fraction), rounded), seconds, Value(fraction), |fraction|)
  {
    ClockSplits(h, m, s, fraction);
    TwoReadsBack(h);
    TwoReadsBack(m);
    TwoReadsBack(s);
    SecondsShape(Two(s), fraction);
    NanosOf(Two(h), Two(m), Two(s) + "." + fraction, seconds, Value(fraction), |fraction|, rounded);
    StampMillis(Clock(h, m, s, fraction), Two(h), Two(m), Two(s) + "." + fraction, seconds, Value(fraction), |fraction|, rounded);
  }

  /** Reading undoes printing, whatever text stands around the last time stamp. */
  lemma ReadsBack(before: string, h: nat, m: nat, s: nat, fraction: string, after: string, rounded: string -> nat)
    requires h < 100 && m < 100 && s < 100 && AllDigits(fraction) && 1 <= |fraction| <= 9
    requires after == "" || !IsDigit(after[0])
    requires forall k: nat :: !StampAt(after, k)
    ensures IsFloor(ParseDurationFromFfmpeg(before + "time=" + Clock(h, m, s, fraction) + after, rounded),
                    h * 3600 + m * 60 + s, Value(fraction), |fraction|)
  {
    var clock := Clock(h, m, s, fraction);
    ClockShape(h, m, s, fraction);
    ClockInPlace(before, clock, after);
    NoLaterStamp(before, clock, after);
    FindsLast(before + "time=" + clock + after, 0, |before|);
    ClockMillis(h, m, s, fraction, h * 3600 + m * 60 + s, rounded);
  }

  lemma NoStampIsZero(output: string, rounded: string -> nat)
    requires forall k: nat :: !StampAt(output, k)
    ensures ParseDurationFromFfmpeg(output, rounded) == 0
  {
    FindsNothing(output, 0);
  }
}
