/** The command line the shim echoes (images/shim/main.go) and the POSIX rules that read it
    back: token recognition, section 2.3 of the Shell Command Language volume of POSIX.1-2017,
    with the quoting of sections 2.2.1 and 2.2.2, then quote removal, section 2.6.7. */
module ShellQuote {
  import opened Util

  // ---- printer ----

  predicate IsShellSafe(c: char) {
    || 'A' <= c <= 'Z'
    || 'a' <= c <= 'z'
    || '0' <= c <= '9'
    || c in "_@%+=:,./-"
  }

  /** Every single quote becomes: close, escaped literal quote, reopen. */
  function EscapeQuotes(s: string): string {
    if s == "" then ""
    else (if s[0] == '\'' then "'\\''" else [s[0]]) + EscapeQuotes(s[1..])
  }

  function QuoteArg(s: string): string {
    if s != "" && forall c :: c in s ==> IsShellSafe(c) then s
    else "'" + EscapeQuotes(s) + "'"
  }

  function Join(parts: seq<string>, sep: string): string {
    if parts == [] then ""
    else if |parts| == 1 then parts[0]
    else parts[0] + sep + Join(parts[1..], sep)
  }

  function QuoteAll(argv: seq<string>): seq<string> {
    seq(|argv|, i requires 0 <= i < |argv| => QuoteArg(argv[i]))
  }

  // ---- reader ----

  predicate IsBlank(c: char) { c == ' ' || c == '\t' }

  /** Characters that mean something to a shell when unquoted, here in any position: operators
      and newline, expansions, double quotes, patterns, tilde, comment, history and braces. */
  predicate IsSpecial(c: char) { c in "|&;<>()\n$`\"*?[]~#!{}" }

  function Extend(cur: Option<string>, text: string): string {
    if cur.None? then text else cur.value + text
  }

  function Flush(cur: Option<string>): seq<string> {
    if cur.None? then [] else [cur.value]
  }

  /** Token recognition. Tokens keep their quotes. `cur` is the token being built, `single`
      tells whether input is inside single quotes. None means that the text is not a plain
      list of literal words: an unterminated quote or an unquoted special character. */
  function Tokens(s: string, single: bool, cur: Option<string>): Option<seq<string>>
    decreases |s|
  {
    if s == "" then
      if single then None else Some(Flush(cur))
    else
      var c, rest := s[0], s[1..];
      if single then Tokens(rest, c != '\'', Some(Extend(cur, [c])))
      else if c == '\'' then Tokens(rest, true, Some(Extend(cur, [c])))
      else if c == '\\' then
        if rest == "" then None
        else if rest[0] == '\n' then Tokens(rest[1..], false, cur)
        else Tokens(rest[1..], false, Some(Extend(cur, [c, rest[0]])))
      else if IsBlank(c) then
        match Tokens(rest, false, None)
        case None => None
        case Some(ts) => Some(Flush(cur) + ts)
      else if IsSpecial(c) then None
      else Tokens(rest, false, Some(Extend(cur, [c])))
  }

  /** Quote removal within one token. */
  function Unquote(w: string, single: bool): string
    decreases |w|
  {
    if w == "" then ""
    else if single then
      if w[0] == '\'' then Unquote(w[1..], false) else [w[0]] + Unquote(w[1..], true)
    else if w[0] == '\'' then Unquote(w[1..], true)
    else if w[0] == '\\' && |w| > 1 then [w[1]] + Unquote(w[2..], false)
    else [w[0]] + Unquote(w[1..], false)
  }

  function UnquoteAll(ts: seq<string>): seq<string> {
    seq(|ts|, i requires 0 <= i < |ts| => Unquote(ts[i], false))
  }

  /** The words a shell reads from a line. */
  function ShellWords(line: string): Option<seq<string>> {
    match Tokens(line, false, None)
    case None => None
    case Some(ts) => Some(UnquoteAll(ts))
  }

  // ---- one argument ----

  lemma SafeIsPlain(c: char)
    requires IsShellSafe(c)
    ensures c != '\'' && c != '\\' && !IsBlank(c) && !IsSpecial(c)
  {}

  lemma {:induction false} BareTokens(a: string, rest: string, cur: Option<string>)
    requires a != "" && forall c :: c in a ==> IsShellSafe(c)
    ensures Tokens(a + rest, false, cur) == Tokens(rest, false, Some(Extend(cur, a)))
  {
    assert (a + rest)[1..] == a[1..] + rest;
    assert a[0] in a;
    SafeIsPlain(a[0]);
    var next := Some(Extend(cur, [a[0]]));
    if a[1..] == "" {
      assert a == [a[0]] && a[1..] + rest == rest;
    } else {
      BareTokens(a[1..], rest, next);
      assert [a[0]] + a[1..] == a;
      assert Extend(next, a[1..]) == Extend(cur, a);
    }
  }

  lemma {:induction false} QuotedTokens(a: string, rest: string, cur: string)
    ensures Tokens(EscapeQuotes(a) + "'" + rest, true, Some(cur))
        == Tokens(rest, false, Some(cur + EscapeQuotes(a) + "'"))
  {
    var s := EscapeQuotes(a) + "'" + rest;
    if a == "" {
      assert s[1..] == rest && cur + "" + "'" == cur + "'";
    } else {
      var tail := EscapeQuotes(a[1..]) + "'" + rest;
      var head := if a[0] == '\'' then "'\\''" else [a[0]];
      assert s == head + tail;
      QuotedTokens(a[1..], rest, cur + head);
      assert cur + head + EscapeQuotes(a[1..]) + "'" == cur + EscapeQuotes(a) + "'";
      assert Tokens(s, true, Some(cur)) == Tokens(tail, true, Some(cur + head)) by {
        if a[0] == '\'' {
          EscapedQuoteTokens(tail, cur);
        } else {
          assert s[1..] == tail;
        }
      }
    }
  }

  lemma EscapedQuoteTokens(tail: string, cur: string)
    ensures Tokens("'\\''" + tail, true, Some(cur)) == Tokens(tail, true, Some(cur + "'\\''"))
  {
    var s := "'\\''" + tail;
    var s1, s2 := "\\''" + tail, "'" + tail;
    assert s[0] == '\'' && s[1..] == s1;
    assert s1[0] == '\\' && s1[1..][0] == '\'' && s1[1..][1..] == s2;
    assert s2[0] == '\'' && s2[1..] == tail;
    calc {
      Tokens(s, true, Some(cur));
      Tokens(s1, false, Some(cur + "'"));
      Tokens(s2, false, Some(cur + "'" + ['\\', '\'']));
      Tokens(tail, true, Some(cur + "'" + ['\\', '\''] + "'"));
      { assert cur + "'" + ['\\', '\''] + "'" == cur + "'\\''"; }
      Tokens(tail, true, Some(cur + "'\\''"));
    }
  }

  lemma ArgTokens(a: string, rest: string)
    ensures Tokens(QuoteArg(a) + rest, false, None) == Tokens(rest, false, Some(QuoteArg(a)))
  {
    if a != "" && forall c :: c in a ==> IsShellSafe(c) {
      BareTokens(a, rest, None);
    } else {
      var s := QuoteArg(a) + rest;
      assert s[1..] == EscapeQuotes(a) + "'" + rest;
      QuotedTokens(a, rest, "'");
      assert "'" + EscapeQuotes(a) + "'" == QuoteArg(a);
    }
  }

  lemma {:induction false} BareUnquote(a: string)
    requires forall c :: c in a ==> IsShellSafe(c)
    ensures Unquote(a, false) == a
  {
    if a == "" {
    } else {
      assert a[0] in a;
      SafeIsPlain(a[0]);
      BareUnquote(a[1..]);
    }
  }

  lemma {:induction false} QuotedUnquote(a: string)
    ensures Unquote(EscapeQuotes(a) + "'", true) == a
  {
    var s := EscapeQuotes(a) + "'";
    if a == "" {
    } else {
      var tail := EscapeQuotes(a[1..]) + "'";
      QuotedUnquote(a[1..]);
      if a[0] == '\'' {
        var s1, s2 := "\\''" + tail, "'" + tail;
        assert s == "'\\''" + tail && s[1..] == s1;
        assert s1[0] == '\\' && s1[1] == '\'' && s1[2..] == s2 && s2[1..] == tail;
        calc {
          Unquote(s, true);
          Unquote(s1, false);
          ['\''] + Unquote(s2, false);
          ['\''] + Unquote(tail, true);
        }
      } else {
        assert s[1..] == tail;
      }
    }
  }

  lemma ArgUnquote(a: string)
    ensures Unquote(QuoteArg(a), false) == a
  {
    if a != "" && forall c :: c in a ==> IsShellSafe(c) {
      BareUnquote(a);
    } else {
      assert QuoteArg(a)[1..] == EscapeQuotes(a) + "'";
      QuotedUnquote(a);
    }
  }

  // ---- the whole line ----

  lemma {:induction false} LineTokens(argv: seq<string>)
    ensures Tokens(Join(QuoteAll(argv), " "), false, None) == Some(QuoteAll(argv))
  {
    var parts := QuoteAll(argv);
    if |argv| == 1 {
      ArgTokens(argv[0], "");
      assert parts[0] + "" == parts[0] && parts == [parts[0]];
    } else if argv != [] {
      var tail := " " + Join(parts[1..], " ");
      assert parts[1..] == QuoteAll(argv[1..]);
      assert Join(parts, " ") == parts[0] + tail;
      ArgTokens(argv[0], tail);
      assert tail[1..] == Join(parts[1..], " ");
      LineTokens(argv[1..]);
      assert [parts[0]] + parts[1..] == parts;
    }
  }

  /** Reading the printed line back yields exactly the argument vector. */
  lemma RoundTrip(argv: seq<string>)
    ensures ShellWords(Join(QuoteAll(argv), " ")) == Some(argv)
  {
    LineTokens(argv);
    forall i | 0 <= i < |argv|
      ensures UnquoteAll(QuoteAll(argv))[i] == argv[i]
    {
      ArgUnquote(argv[i]);
    }
    assert UnquoteAll(QuoteAll(argv)) == argv;
  }

  /** Words of safe characters are printed as they are, and no others. */
  lemma BareIff(a: string)
    ensures QuoteArg(a) == a <==> a != "" && forall c :: c in a ==> IsShellSafe(c)
  {
    EscapeGrows(a);
  }

  lemma {:induction false} EscapeGrows(a: string)
    ensures |EscapeQuotes(a)| >= |a|
  {
    if a == "" {
    } else {
      EscapeGrows(a[1..]);
    }
  }

  lemma QuoteInjective(a: seq<string>, b: seq<string>)
    requires Join(QuoteAll(a), " ") == Join(QuoteAll(b), " ")
    ensures a == b
  {
    RoundTrip(a);
    RoundTrip(b);
  }

  /** The printer as written: one quoted slot per argument, then a space join. */
  method QuoteArgv(argv: seq<string>) returns (line: string)
    ensures line == Join(QuoteAll(argv), " ")
    ensures ShellWords(line) == Some(argv)
  {
    var quoted := new string[|argv|];
    for i := 0 to |argv|
      invariant forall k :: 0 <= k < i ==> quoted[k] == QuoteArg(argv[k])
    {
      quoted[i] := QuoteArg(argv[i]);
    }
    assert quoted[..] == QuoteAll(argv);
    line := Join(quoted[..], " ");
    RoundTrip(argv);
  }
}
