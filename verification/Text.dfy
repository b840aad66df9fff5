/** Decimal numbers and separated text: printing, and reading back what was printed. */
module Text {

  function Digit(d: nat): char
    requires d < 10
  {
    (48 + d) as char
  }

  predicate IsDigit(c: char) {
    '0' <= c <= '9'
  }

  /** `%d` of a natural number. */
  function Dec(n: nat): string {
    if n < 10 then [Digit(n)] else Dec(n / 10) + [Digit(n % 10)]
  }

  predicate AllDigits(s: string) {
    forall i :: 0 <= i < |s| ==> IsDigit(s[i])
  }

  function Value(s: string): nat
    requires AllDigits(s)
  {
    if s == "" then 0 else 10 * Value(s[..|s| - 1]) + (s[|s| - 1] as int - 48)
  }

  lemma {:induction false} DecReadsBack(n: nat)
    ensures Dec(n) != "" && AllDigits(Dec(n)) && Value(Dec(n)) == n
  {
    if n >= 10 {
      DecReadsBack(n / 10);
      assert Dec(n)[..|Dec(n)| - 1] == Dec(n / 10);
    } else {
      assert Dec(n)[..0] == "";
    }
  }

  // ---- splitting at a separator

  predicate Lacks(s: string, c: char) {
    forall i :: 0 <= i < |s| ==> s[i] != c
  }

  /** strings.Join */
  function Join(parts: seq<string>, sep: char): string {
    if parts == [] then ""
    else if |parts| == 1 then parts[0]
    else Join(parts[..|parts| - 1], sep) + [sep] + parts[|parts| - 1]
  }

  /** strings.Split */
  function Split(s: string, sep: char): (parts: seq<string>)
    ensures |parts| >= 1
  {
    if s == "" then [""]
    else
      var parts := Split(s[..|s| - 1], sep);
      if s[|s| - 1] == sep then parts + [""]
      else parts[..|parts| - 1] + [parts[|parts| - 1] + [s[|s| - 1]]]
  }

  lemma SplitOneChar(s: string, c: char, sep: char, init: seq<string>, last: string)
    requires c != sep && Split(s, sep) == init + [last]
    ensures Split(s + [c], sep) == init + [last + [c]]
  {
    assert (s + [c])[..|s + [c]| - 1] == s;
  }

  /** Text without the separator extends the last part. */
  lemma {:induction false} SplitExtends(s: string, more: string, sep: char, init: seq<string>, last: string)
    requires Lacks(more, sep) && Split(s, sep) == init + [last]
    ensures Split(s + more, sep) == init + [last + more]
    decreases |more|
  {
    if more == "" {
      assert s + more == s && last + more == last;
    } else {
      var front, c := more[..|more| - 1], more[|more| - 1];
      SplitExtends(s, front, sep, init, last);
      SplitOneChar(s + front, c, sep, init, last + front);
      Regrouped(s, front, c, more);
      Regrouped(last, front, c, more);
    }
  }

  lemma Regrouped(s: string, front: string, c: char, more: string)
    requires more == front + [c]
    ensures s + front + [c] == s + more
  {
  }

  lemma SplitAtSeparator(s: string, sep: char)
    ensures Split(s + [sep], sep) == Split(s, sep) + [""]
  {
    assert (s + [sep])[..|s + [sep]| - 1] == s;
  }

  lemma SplitOne(s: string, sep: char)
    requires Lacks(s, sep)
    ensures Split(s, sep) == [s]
  {
    SplitExtends("", s, sep, [], "");
    assert "" + s == s;
  }

  lemma SplitOneMore(s: string, parts: seq<string>, last: string, sep: char)
    requires Split(s, sep) == parts && Lacks(last, sep)
    ensures Split(s + [sep] + last, sep) == parts + [last]
  {
    SplitAtSeparator(s, sep);
    SplitExtends(s + [sep], last, sep, parts, "");
    assert "" + last == last;
  }

  lemma {:induction false} SplitUndoesJoin(parts: seq<string>, sep: char)
    requires parts != [] && forall i :: 0 <= i < |parts| ==> Lacks(parts[i], sep)
    ensures Split(Join(parts, sep), sep) == parts
  {
    var last := parts[|parts| - 1];
    if |parts| == 1 {
      SplitOne(last, sep);
    } else {
      var init := parts[..|parts| - 1];
      SplitUndoesJoin(init, sep);
      SplitOneMore(Join(init, sep), init, last, sep);
      assert parts == init + [last];
    }
  }

  /** Every part followed by the separator, as a builder writes them. */
  function Ended(parts: seq<string>, sep: char): string {
    if parts == [] then "" else Ended(parts[..|parts| - 1], sep) + parts[|parts| - 1] + [sep]
  }

  lemma {:induction false} EndedIsJoin(parts: seq<string>, sep: char)
    requires parts != []
    ensures Ended(parts, sep) == Join(parts, sep) + [sep]
  {
    if |parts| > 1 {
      EndedIsJoin(parts[..|parts| - 1], sep);
    } else {
      assert Ended(parts[..0], sep) == "";
    }
  }

  lemma {:induction false} EndedPlusPart(parts: seq<string>, last: string, sep: char)
    ensures Ended(parts, sep) + last == Join(parts + [last], sep)
    ensures Ended(parts + [last], sep) == Ended(parts, sep) + last + [sep]
  {
    assert (parts + [last])[..|parts + [last]| - 1] == parts;
    if parts != [] {
      EndedIsJoin(parts, sep);
    }
  }

  // ---- pairs of parts, each ended by the separator and a space

  function Space(k: nat): string {
    if k == 0 then "" else " "
  }

  function PairText(ps: seq<string>, qs: seq<string>, k: nat): string
    requires k <= |ps| == |qs|
  {
    if k == 0 then "" else PairText(ps, qs, k - 1) + (ps[k - 1] + "; " + qs[k - 1] + "; ")
  }

  /** The same text as parts: the space after each part moves in front of the next. */
  function PairParts(ps: seq<string>, qs: seq<string>, k: nat): seq<string>
    requires k <= |ps| == |qs|
  {
    if k == 0 then [] else PairParts(ps, qs, k - 1) + [Space(k - 1) + ps[k - 1], " " + qs[k - 1]]
  }

  lemma TwoMoreEnded(parts: seq<string>, space: string, p: string, q: string)
    ensures Ended(parts, ';') + space + (p + "; " + q + "; ") == Ended(parts + [space + p, " " + q], ';') + " "
  {
    EndedPlusPart(parts, space + p, ';');
    EndedPlusPart(parts + [space + p], " " + q, ';');
    assert parts + [space + p] + [" " + q] == parts + [space + p, " " + q];
    var e := Ended(parts, ';');
    assert e + space + (p + "; " + q + "; ") == e + (space + p) + [';'] + (" " + q) + [';'] + " ";
  }

  lemma {:induction false} PairsEnded(ps: seq<string>, qs: seq<string>, k: nat)
    requires k <= |ps| == |qs|
    ensures PairText(ps, qs, k) == Ended(PairParts(ps, qs, k), ';') + Space(k)
  {
    if k > 0 {
      PairsEnded(ps, qs, k - 1);
      TwoMoreEnded(PairParts(ps, qs, k - 1), Space(k - 1), ps[k - 1], qs[k - 1]);
    }
  }

  lemma LastEnded(parts: seq<string>, p: string)
    ensures Ended(parts, ';') + " " + (p + [';']) == Ended(parts + [" " + p], ';')
  {
    EndedPlusPart(parts, " " + p, ';');
  }

  // ---- bracketed labels

  /** Every name in brackets, one after the other. */
  function Wraps(labels: seq<string>): string {
    if labels == [] then "" else Wraps(labels[..|labels| - 1]) + Wrap(labels[|labels| - 1])
  }

  function Wrap(name: string): string {
    ['['] + name + [']']
  }

  lemma WrapsOneMore(labels: seq<string>, name: string)
    ensures Wraps(labels + [name]) == Wraps(labels) + Wrap(name)
  {
    assert (labels + [name])[..|labels + [name]| - 1] == labels;
  }

  lemma WrapsOne(name: string)
    ensures Wraps([name]) == Wrap(name)
  {
    WrapsOneMore([], name);
    assert [] + [name] == [name];
  }

  lemma {:induction false} WrapsHead(labels: seq<string>)
    requires labels != []
    ensures Wraps(labels) == Wrap(labels[0]) + Wraps(labels[1..])
  {
    if |labels| == 1 {
      WrapsOne(labels[0]);
      assert labels == [labels[0]];
    } else {
      var init, last := labels[..|labels| - 1], labels[|labels| - 1];
      WrapsHead(init);
      WrapsOneMore(init[1..], last);
      assert labels[1..] == init[1..] + [last];
      Associates(Wrap(labels[0]), Wraps(init[1..]), Wrap(last));
    }
  }

  lemma Associates(a: string, b: string, c: string)
    ensures a + b + c == a + (b + c)
  {
  }

  function Until(s: string, c: char): (n: nat)
    ensures n <= |s|
  {
    if s == "" || s[0] == c then 0 else 1 + Until(s[1..], c)
  }

  lemma {:induction false} UntilStops(a: string, c: char, rest: string)
    requires Lacks(a, c)
    ensures Until(a + [c] + rest, c) == |a| && Until(a, c) == |a|
  {
    if a != "" {
      UntilStops(a[1..], c, rest);
      assert (a + [c] + rest)[1..] == a[1..] + [c] + rest;
    }
  }

  /** Bracketed labels at the start of a text, and what follows them. */
  function ReadLabels(s: string): (seq<string>, string)
    decreases |s|
  {
    if s != "" && s[0] == '[' && Until(s, ']') < |s| then
      var end := Until(s, ']');
      var (more, rest) := ReadLabels(s[end + 1..]);
      ([s[1..end]] + more, rest)
    else ([], s)
  }

  lemma {:induction false} ReadsWraps(labels: seq<string>, rest: string)
    requires forall i :: 0 <= i < |labels| ==> Lacks(labels[i], ']')
    requires rest == "" || rest[0] != '['
    ensures ReadLabels(Wraps(labels) + rest) == (labels, rest)
    decreases |labels|
  {
    if labels == [] {
      assert Wraps(labels) + rest == rest;
    } else {
      var l := labels[0];
      var tail := Wraps(labels[1..]) + rest;
      WrapsHead(labels);
      var s := Wraps(labels) + rest;
      Associates(Wrap(l), Wraps(labels[1..]), rest);
      assert s == (['['] + l) + [']'] + tail;
      UntilStops(['['] + l, ']', tail);
      assert s[1..1 + |l|] == l && s[|l| + 2..] == tail;
      ReadsWraps(labels[1..], rest);
      assert [l] + labels[1..] == labels;
    }
  }

  lemma {:induction false} WrapsLack(labels: seq<string>, c: char)
    requires c != '[' && c != ']' && forall i :: 0 <= i < |labels| ==> Lacks(labels[i], c)
    ensures Lacks(Wraps(labels), c)
  {
    if labels != [] {
      WrapsLack(labels[..|labels| - 1], c);
    }
  }
}
