/** The peak-memory line: printed by the shim into the termination log (images/shim/main.go),
    parsed by the operator from the container's termination message
    (internal/controller/buildsteps.go). */
module PeakMemory {
  import opened Util

  const KEY := "peakMemoryBytes="
  const MAX_INT64 := 0x7fff_ffff_ffff_ffff

  // ---- the string library both programs use ----

  predicate IsSpace(c: char) {
    c in " \t\n\r" || c in "\U{000b}\U{000c}\U{0085}\U{00a0}\U{1680}\U{2028}\U{2029}\U{202f}\U{205f}\U{3000}"
    || '\U{2000}' <= c <= '\U{200a}'
  }

  function TrimLeft(s: string): string {
    if s != "" && IsSpace(s[0]) then TrimLeft(s[1..]) else s
  }

  function TrimRight(s: string): string {
    if s != "" && IsSpace(s[|s| - 1]) then TrimRight(s[..|s| - 1]) else s
  }

  function Trim(s: string): string { TrimRight(TrimLeft(s)) }

  predicate Blank(s: string) { forall c :: c in s ==> IsSpace(c) }

  function Split(s: string): (lines: seq<string>)
    ensures lines != []
  {
    if s == "" then [""]
    else Prepend(s[0], Split(s[1..]))
  }

  function Prepend(c: char, lines: seq<string>): (r: seq<string>)
    requires lines != []
    ensures r != []
  {
    if c == '\n' then [""] + lines else [[c] + lines[0]] + lines[1..]
  }

  predicate IsDigit(c: char) { '0' <= c <= '9' }

  function Value(digits: string): nat
    requires forall c :: c in digits ==> IsDigit(c)
  {
    if digits == "" then 0
    else
      var last := digits[|digits| - 1];
      assert last in digits && IsDigit(last);
      10 * Value(digits[..|digits| - 1]) + (last as int - '0' as int)
  }

  /** strconv.ParseInt in base 10 for 64 bits; None is any error. */
  function ParseInt(s: string): Option<int> {
    var negative := s != "" && s[0] == '-';
    var digits := if s != "" && s[0] in "+-" then s[1..] else s;
    if digits == "" || exists c :: c in digits && !IsDigit(c) then None
    else
      var n: int := if negative then -(Value(digits) as int) else Value(digits);
      if -MAX_INT64 - 1 <= n <= MAX_INT64 then Some(n) else None
  }

  function Dec(n: nat): (s: string)
    ensures s != "" && forall c :: c in s ==> IsDigit(c)
  {
    var last := ['0' + (n % 10) as char];
    if n < 10 then last else Dec(n / 10) + last
  }

  // ---- printer ----

  /** What `reportPeak` leaves in the termination log, given the raw cgroup file. */
  function Report(log: string, raw: string): string {
    var peak := Trim(raw);
    if peak == "" then log else log + KEY + peak + "\n"
  }

  // ---- parser ----

  function ReportedValue(line: string): Option<string> {
    var t := Trim(line);
    if KEY <= t then Some(Trim(t[|KEY|..])) else None
  }

  function Decode(val: string): int {
    match ParseInt(val)
    case None => 0
    case Some(n) => if n < 0 then 0 else n
  }

  /** A value that is no number, is out of range or negative reads as 0. */
  lemma Unreadable(val: string)
    requires val == "" || val[0] == '-' || (exists c :: c in val[1..] && !IsDigit(c))
    ensures Decode(val) == 0
  {}

  function FirstReport(lines: seq<string>): int {
    if lines == [] then 0
    else match ReportedValue(lines[0])
      case None => FirstReport(lines[1..])
      case Some(val) => Decode(val)
  }

  function ParsePeak(msg: string): int { FirstReport(Split(msg)) }

  /** The scan as written: the first line carrying the key decides. */
  method ParsePeakMemory(msg: string) returns (n: int)
    ensures n == ParsePeak(msg)
    ensures 0 <= n <= MAX_INT64
  {
    var lines := Split(msg);
    for i := 0 to |lines|
      invariant FirstReport(lines) == FirstReport(lines[i..])
    {
      assert lines[i..][1..] == lines[i + 1..];
      var val := ReportedValue(lines[i]);
      if val.Some? {
        var parsed := ParseInt(val.value);
        if parsed.None? || parsed.value < 0 {
          return 0;
        }
        return parsed.value;
      }
    }
    return 0;
  }

  // ---- the string library's laws ----

  lemma DigitIsPlain(c: char)
    requires IsDigit(c)
    ensures !IsSpace(c) && c != '+' && c != '-' && c != 'p' && c != '\n'
  {}

  lemma {:induction false} DecValue(n: nat)
    ensures Value(Dec(n)) == n
  {
    var s := Dec(n);
    if n < 10 {
      assert s[..|s| - 1] == "";
    } else {
      DecValue(n / 10);
      assert s[..|s| - 1] == Dec(n / 10);
    }
  }

  lemma ParseDec(n: nat)
    requires n <= MAX_INT64
    ensures ParseInt(Dec(n)) == Some(n)
  {
    assert Dec(n)[0] in Dec(n);
    DigitIsPlain(Dec(n)[0]);
    DecValue(n);
  }

  lemma {:induction false} TrimRightBlankTail(s: string, tail: string)
    requires Blank(tail) && (s == "" || !IsSpace(s[|s| - 1]))
    ensures TrimRight(s + tail) == s
  {
    if tail == "" {
      assert s + tail == s;
    } else {
      assert tail[|tail| - 1] in tail;
      assert (s + tail)[..|s + tail| - 1] == s + tail[..|tail| - 1];
      TrimRightBlankTail(s, tail[..|tail| - 1]);
    }
  }

  lemma {:induction false} TrimLeftBlankHead(head: string, s: string)
    requires Blank(head) && s != "" && !IsSpace(s[0])
    ensures TrimLeft(head + s) == s
  {
    if head == "" {
      assert head + s == s;
    } else {
      assert head[0] in head;
      assert (head + s)[1..] == head[1..] + s;
      TrimLeftBlankHead(head[1..], s);
    }
  }

  lemma TrimPlain(head: string, s: string, tail: string)
    requires Blank(head) && Blank(tail) && s != "" && !IsSpace(s[0]) && !IsSpace(s[|s| - 1])
    ensures Trim(head + s + tail) == s
  {
    assert head + s + tail == head + (s + tail);
    TrimLeftBlankHead(head, s + tail);
    TrimRightBlankTail(s, tail);
  }

  /** A fragment that is not blank splits into white space and a visible start. */
  lemma {:induction false} SplitBlankHead(f: string) returns (head: string, t: string)
    requires !Blank(f)
    ensures f == head + t && Blank(head) && t != "" && !IsSpace(t[0])
  {
    if !IsSpace(f[0]) {
      head, t := "", f;
    } else {
      assert !Blank(f[1..]) by {
        var c :| c in f && !IsSpace(c);
        assert f == [f[0]] + f[1..];
        assert c in f[1..];
      }
      head, t := SplitBlankHead(f[1..]);
      head := [f[0]] + head;
      assert f == [f[0]] + f[1..];
    }
  }

  function Complete(s: string): seq<string> { Split(s)[..|Split(s)| - 1] }
  function Fragment(s: string): string { Split(s)[|Split(s)| - 1] }

  /** The lines of a concatenation: the last line of one runs into the first of the other. */
  function Glue(x: seq<string>, y: seq<string>): seq<string>
    requires x != [] && y != []
  {
    x[..|x| - 1] + [x[|x| - 1] + y[0]] + y[1..]
  }

  lemma GluePrepend(c: char, x: seq<string>, y: seq<string>)
    requires x != [] && y != []
    ensures Glue(x, y) != [] && Glue(Prepend(c, x), y) == Prepend(c, Glue(x, y))
  {
    var p := Prepend(c, x);
    if c == '\n' {
      assert p[..|p| - 1] == [""] + x[..|x| - 1];
    } else if |x| == 1 {
      assert [c] + (x[0] + y[0]) == [c] + x[0] + y[0];
    } else {
      assert p[..|p| - 1] == [[c] + x[0]] + x[1..|x| - 1];
      assert x[..|x| - 1] == [x[0]] + x[1..|x| - 1];
    }
  }

  lemma {:induction false} SplitConcat(a: string, b: string)
    ensures Split(a + b) == Glue(Split(a), Split(b))
  {
    if a == "" {
      assert a + b == b;
      assert "" + Split(b)[0] == Split(b)[0];
    } else {
      SplitConcat(a[1..], b);
      assert (a + b)[1..] == a[1..] + b;
      GluePrepend(a[0], Split(a[1..]), Split(b));
    }
  }

  lemma {:induction false} SplitLine(line: string)
    requires '\n' !in line
    ensures Split(line + "\n") == [line, ""]
  {
    if line == "" {
      assert Split("\n"[1..]) == [""];
    } else {
      assert (line + "\n")[1..] == line[1..] + "\n";
      SplitLine(line[1..]);
      assert [line[0]] + line[1..] == line;
    }
  }

  lemma {:induction false} FirstReportSkips(before: seq<string>, after: seq<string>)
    requires forall l :: l in before ==> ReportedValue(l).None?
    ensures FirstReport(before + after) == FirstReport(after)
  {
    if before == [] {
      assert before + after == after;
    } else {
      assert before[0] in before;
      assert (before + after)[1..] == before[1..] + after;
      FirstReportSkips(before[1..], after);
    }
  }

  lemma {:induction false} FirstReportStops(before: seq<string>, after: seq<string>, i: nat)
    requires i < |before| && ReportedValue(before[i]).Some?
    ensures FirstReport(before + after) == FirstReport(before)
  {
    assert (before + after)[0] == before[0];
    if ReportedValue(before[0]).None? {
      assert (before + after)[1..] == before[1..] + after;
      FirstReportStops(before[1..], after, i - 1);
    }
  }

  // ---- the pair ----

  lemma ReportText(log: string, n: nat)
    ensures Report(log, Dec(n) + "\n") == log + (KEY + Dec(n) + "\n")
  {
    var d := Dec(n);
    assert d[0] in d && d[|d| - 1] in d;
    DigitIsPlain(d[0]);
    DigitIsPlain(d[|d| - 1]);
    TrimPlain("", d, "\n");
    assert "" + d + "\n" == d + "\n";
    assert log + KEY + d + "\n" == log + (KEY + d + "\n");
  }

  lemma ReportLines(log: string, n: nat)
    ensures Split(Report(log, Dec(n) + "\n")) == Complete(log) + [Fragment(log) + (KEY + Dec(n)), ""]
  {
    var line := KEY + Dec(n);
    ReportText(log, n);
    assert '\n' !in line by {
      forall c | c in Dec(n) ensures c != '\n' { DigitIsPlain(c); }
      assert '\n' !in KEY;
    }
    SplitLine(line);
    SplitConcat(log, line + "\n");
  }

  lemma BlankIsNoReport()
    ensures ReportedValue("").None?
  {}

  lemma GluedToBlank(f: string, n: nat)
    requires Blank(f)
    ensures ReportedValue(f + (KEY + Dec(n))) == Some(Dec(n))
  {
    var d := Dec(n);
    var line := KEY + d;
    assert d[0] in d && d[|d| - 1] in d;
    DigitIsPlain(d[0]);
    DigitIsPlain(d[|d| - 1]);
    TrimPlain(f, line, "");
    assert f + line + "" == f + line;
    assert line[|KEY|..] == d;
    TrimPlain("", d, "");
    assert "" + d + "" == d;
  }

  lemma KeyLetters(i: nat)
    requires 0 < i < |KEY|
    ensures KEY[i] != 'p' && KEY[0] == 'p'
  {}

  lemma GluedToText(f: string, n: nat)
    requires !Blank(f)
    ensures var v := ReportedValue(f + (KEY + Dec(n))); v.None? || Decode(v.value) == 0
  {
    var d := Dec(n);
    var head, t := SplitBlankHead(f);
    var s := t + (KEY + d);
    assert d[|d| - 1] in d;
    DigitIsPlain(d[|d| - 1]);
    assert s[|s| - 1] == d[|d| - 1];
    TrimPlain(head, s, "");
    assert head + s + "" == f + (KEY + d);
    if |t| < |KEY| {
      KeyLetters(|t|);
      assert s[|t|] == KEY[0];
    } else if KEY <= s {
      var rest := t[|KEY|..] + (KEY + d);
      assert s[|KEY|..] == rest;
      GarbledValue(t[|KEY|..], d);
    }
  }

  /** Text with a letter past its sign is no number. */
  lemma LetterIsNoNumber(t: string, i: nat)
    requires 0 < i < |t| && !IsDigit(t[i])
    ensures ParseInt(t).None?
  {}

  lemma TrimKeepsTail(q: string, s: string) returns (u: string)
    requires s != "" && !IsSpace(s[0]) && !IsSpace(s[|s| - 1])
    ensures Trim(q + s) == u + s
  {
    hide Trim, IsSpace;
    var head;
    if Blank(q) {
      head, u := q, "";
    } else {
      head, u := SplitBlankHead(q);
    }
    assert (u + s)[|u + s| - 1] == s[|s| - 1];
    TrimPlain(head, u + s, "");
    assert head + (u + s) + "" == q + s;
  }

  lemma GarbledValue(q: string, d: string)
    requires d != "" && forall c :: c in d ==> IsDigit(c)
    ensures ParseInt(Trim(q + (KEY + d))).None?
  {
    hide Trim, ParseInt;
    var kd := KEY + d;
    assert kd[|kd| - 1] == d[|d| - 1] && d[|d| - 1] in d;
    DigitIsPlain(d[|d| - 1]);
    var u := TrimKeepsTail(q, kd);
    assert (u + kd)[|u| + 1] == 'e';
    LetterIsNoNumber(u + kd, |u| + 1);
  }

  /** Round trip. After earlier log text with no complete report line, the parser reads back
      the shim's number when, and for a positive number only when, the last unterminated
      line of that text is blank (in particular when the text is empty or ends in a
      newline). Otherwise the report is lost and reads as 0, never as a wrong number. */
  lemma PeakRoundTrip(log: string, n: nat)
    requires n <= MAX_INT64
    requires forall l :: l in Complete(log) ==> ReportedValue(l).None?
    ensures ParsePeak(Report(log, Dec(n) + "\n")) == if Blank(Fragment(log)) then n else 0
  {
    var f := Fragment(log);
    var line := f + (KEY + Dec(n));
    ReportLines(log, n);
    FirstReportSkips(Complete(log), [line, ""]);
    assert [line, ""][1..] == [""] && [""][1..] == [];
    BlankIsNoReport();
    if Blank(f) {
      GluedToBlank(f, n);
      ParseDec(n);
    } else {
      GluedToText(f, n);
    }
  }

  lemma {:induction false} NewlineTerminated(log: string)
    requires log == "" || log[|log| - 1] == '\n'
    ensures Fragment(log) == "" && Blank(Fragment(log))
    ensures log != "" ==> |Split(log)| > 1
  {
    if |log| > 1 {
      NewlineTerminated(log[1..]);
      var rest := Split(log[1..]);
      assert Split(log) == Prepend(log[0], rest) && rest[|rest| - 1] == "";
    } else if |log| == 1 {
      assert Split(log[1..]) == [""];
    }
  }

  /** A report line already in the log wins over the shim's own. */
  lemma EarlierReportWins(log: string, n: nat, i: nat)
    requires i < |Complete(log)| && ReportedValue(Complete(log)[i]).Some?
    ensures ParsePeak(Report(log, Dec(n) + "\n")) == ParsePeak(log)
  {
    hide Split, Report, ReportedValue, FirstReport, Dec;
    ReportLines(log, n);
    var before, after := Complete(log), [Fragment(log) + (KEY + Dec(n)), ""];
    FirstReportStops(before, after, i);
    FirstReportStops(before, [Fragment(log)], i);
    assert Split(log) == before + [Fragment(log)];
  }
}
