/**
 * The placeholder rewriter of internal/store/rebind.go: `?` SQL to `$N` SQL.
 * A Go string is a sequence of bytes; here one char stands for one byte.
 */
module Rebind {
  import opened Basics
  import opened Decimal

  // ---------------------------------------------------------------- the rewriter

  /** What is left to write when `n` placeholders were numbered and `q` remains. */
  function ReboundFrom(q: string, n: nat, inQuote: bool): string {
    if q == "" then ""
    else if q[0] == '\'' then [q[0]] + ReboundFrom(q[1..], n, !inQuote)
    else if q[0] == '?' && !inQuote then "$" + Itoa(n + 1) + ReboundFrom(q[1..], n + 1, inQuote)
    else [q[0]] + ReboundFrom(q[1..], n, inQuote)
  }

  function Rebound(q: string): string {
    ReboundFrom(q, 0, false)
  }

  /** rebindQuery, with its early return. */
  method RebindQuery(query: string) returns (out: string)
    ensures out == Rebound(query)
  {
    if '?' !in query {
      NothingToRebind(query, 0, false);
      return query;
    }
    var b, n, inQuote := "", 0, false;
    for i := 0 to |query|
      invariant b + ReboundFrom(query[i..], n, inQuote) == Rebound(query)
    {
      var ch := query[i];
      LoopStep(query, i, b, n, inQuote);
      if ch == '\'' {
        inQuote := !inQuote;
        b := b + [ch];
      } else if ch == '?' && !inQuote {
        n := n + 1;
        b := b + ("$" + Itoa(n));
      } else {
        b := b + [ch];
      }
    }
    return b;
  }

  /** What one turn of the loop writes is what the remaining text starts with. */
  lemma LoopStep(q: string, i: nat, b: string, n: nat, inQuote: bool)
    requires i < |q|
    ensures var marker := q[i] == '?' && !inQuote;
            b + ReboundFrom(q[i..], n, inQuote)
            == b + (if marker then "$" + Itoa(n + 1) else [q[i]])
               + ReboundFrom(q[i + 1..], if marker then n + 1 else n, if q[i] == '\'' then !inQuote else inQuote)
  {
    assert q[i..][0] == q[i] && q[i..][1..] == q[i + 1..];
    var marker := q[i] == '?' && !inQuote;
    Glue(b, if marker then "$" + Itoa(n + 1) else [q[i]],
         ReboundFrom(q[i + 1..], if marker then n + 1 else n, if q[i] == '\'' then !inQuote else inQuote));
  }

  lemma Glue<T>(a: seq<T>, b: seq<T>, c: seq<T>)
    ensures a + b + c == a + (b + c)
  {
  }

  /** rebindDB.rebind and rebindTx.rebind: only the PostgreSQL driver needs the rewriting. */
  method RebindFor(driver: string, query: string) returns (out: string)
    ensures out == DriverText(driver, query)
  {
    if driver != "pgx" {
      return query;
    }
    out := RebindQuery(query);
  }

  function DriverText(driver: string, query: string): string {
    if driver != "pgx" then query else Rebound(query)
  }

  // ---------------------------------------------------------------- what placeholder text means

  /** A statement as a database reads it: plain bytes, and references to numbered arguments. */
  datatype Lexeme = Plain(c: char) | Arg(index: nat)

  /** Reading `?` text: the unquoted `?` are arguments n+1, n+2, ... */
  function LexQuestion(q: string, n: nat, inQuote: bool): seq<Lexeme> {
    if q == "" then []
    else if q[0] == '\'' then [Plain(q[0])] + LexQuestion(q[1..], n, !inQuote)
    else if q[0] == '?' && !inQuote then [Arg(n + 1)] + LexQuestion(q[1..], n + 1, inQuote)
    else [Plain(q[0])] + LexQuestion(q[1..], n, inQuote)
  }

  /** Reading `$N` text: an unquoted `$` takes the whole run of digits that follows it. */
  function LexDollar(t: string, inQuote: bool): seq<Lexeme>
    decreases |t|
  {
    if t == "" then []
    else if t[0] == '\'' then [Plain(t[0])] + LexDollar(t[1..], !inQuote)
    else if t[0] == '$' && !inQuote && DigitRun(t[1..]) > 0 then
      var k := DigitRun(t[1..]);
      [Arg(Atoi(t[1..][..k]))] + LexDollar(t[1..][k..], inQuote)
    else [Plain(t[0])] + LexDollar(t[1..], inQuote)
  }

  /** The text with the arguments put in, or None when an argument is missing. */
  function Render(ls: seq<Lexeme>, args: seq<string>): Option<string> {
    if ls == [] then Some("")
    else
      match Render(ls[1..], args)
      case None => None
      case Some(rest) =>
        match ls[0]
        case Plain(c) => Some([c] + rest)
        case Arg(i) => if 1 <= i <= |args| then Some(args[i - 1] + rest) else None
  }

  function BoundQuestion(q: string, args: seq<string>): Option<string> {
    Render(LexQuestion(q, 0, false), args)
  }

  function BoundDollar(t: string, args: seq<string>): Option<string> {
    Render(LexDollar(t, false), args)
  }

  /** SQLite numbers the `?` itself, PostgreSQL reads the `$N`. */
  function BoundBy(driver: string, text: string, args: seq<string>): Option<string> {
    if driver == "pgx" then BoundDollar(text, args) else BoundQuestion(text, args)
  }

  /** The side condition: no unquoted `?` or `$` stands directly before a digit. */
  predicate CleanFrom(q: string, inQuote: bool) {
    q == "" ||
    if q[0] == '\'' then CleanFrom(q[1..], !inQuote)
    else (inQuote || q[0] !in "?$" || DigitRun(q[1..]) == 0) && CleanFrom(q[1..], inQuote)
  }

  predicate Clean(q: string) {
    CleanFrom(q, false)
  }

  // ---------------------------------------------------------------- meaning preservation

  function PlainCount(ls: seq<Lexeme>): nat {
    if ls == [] then 0 else (if ls[0].Plain? then 1 else 0) + PlainCount(ls[1..])
  }

  function Plains(s: string): (ls: seq<Lexeme>) {
    seq(|s|, i requires 0 <= i < |s| => Plain(s[i]))
  }

  lemma {:induction false} PlainCountOfConcat(a: seq<Lexeme>, b: seq<Lexeme>)
    ensures PlainCount(a + b) == PlainCount(a) + PlainCount(b)
  {
    if a == [] {
      assert a + b == b;
    } else {
      assert (a + b)[1..] == a[1..] + b;
      PlainCountOfConcat(a[1..], b);
    }
  }

  lemma {:induction false} PlainCountOfPlains(s: string)
    ensures PlainCount(Plains(s)) == |s|
  {
    if s != "" {
      assert Plains(s)[1..] == Plains(s[1..]);
      PlainCountOfPlains(s[1..]);
    }
  }

  /** Without a `?` the loop copies its input, as the early return does. */
  lemma {:induction false} NothingToRebind(q: string, n: nat, inQuote: bool)
    requires '?' !in q
    ensures ReboundFrom(q, n, inQuote) == q
  {
    if q != "" {
      assert q == [q[0]] + q[1..];
      NothingToRebind(q[1..], n, if q[0] == '\'' then !inQuote else inQuote);
    }
  }

  /** A run of digits is copied, and it is the whole digit run of the output. */
  lemma {:induction false} DigitsPassThrough(q: string, n: nat, inQuote: bool)
    ensures var k := DigitRun(q);
            && ReboundFrom(q, n, inQuote) == q[..k] + ReboundFrom(q[k..], n, inQuote)
            && LexQuestion(q, n, inQuote) == Plains(q[..k]) + LexQuestion(q[k..], n, inQuote)
            && CleanFrom(q, inQuote) == CleanFrom(q[k..], inQuote)
            && DigitRun(ReboundFrom(q[k..], n, inQuote)) == 0
  {
    var k := DigitRun(q);
    if k == 0 {
      assert q[0..] == q && q[..0] == "" && Plains("") == [];
    } else {
      var rest := q[1..];
      DigitsPassThrough(rest, n, inQuote);
      assert rest[k - 1..] == q[k..];
      assert q[..k] == [q[0]] + rest[..k - 1];
      assert Plains(q[..k]) == [Plain(q[0])] + Plains(rest[..k - 1]);
      Glue([q[0]], rest[..k - 1], ReboundFrom(q[k..], n, inQuote));
      Glue([Plain(q[0])], Plains(rest[..k - 1]), LexQuestion(q[k..], n, inQuote));
    }
  }

  /** Reading the output against reading the input, in lexemes and in plain bytes. */
  ghost predicate ReadsAlike(q: string, n: nat, inQuote: bool) {
    var src, out := LexQuestion(q, n, inQuote), LexDollar(ReboundFrom(q, n, inQuote), inQuote);
    if CleanFrom(q, inQuote) then out == src
    else |out| < |src| && PlainCount(out) < PlainCount(src)
  }

  /** A `$` reference in front of a text that does not start with a digit. */
  lemma DollarReads(run: string, tail: string)
    requires AllDigits(run) && DigitRun(tail) == 0
    ensures LexDollar("$" + (run + tail), false)
         == (if run == "" then [Plain('$')] else [Arg(Atoi(run))]) + LexDollar(tail, false)
  {
    DigitRunOfConcat(run, tail);
    var text := "$" + (run + tail);
    assert text[1..] == run + tail;
    assert (run + tail)[..|run|] == run && (run + tail)[|run|..] == tail;
  }

  /** One marker (an unquoted `?` or `$`) with the digits behind it: how output and input read. */
  lemma MarkerReads(q: string, n: nat, digits: string, m: nat)
    requires q != "" && q[0] in "?$" && AllDigits(digits)
    requires m == if q[0] == '?' then n + 1 else n
    requires digits == if q[0] == '?' then Itoa(n + 1) else ""
    ensures var rest := q[1..];
            var k := DigitRun(rest);
            var run := digits + rest[..k];
            && LexDollar(ReboundFrom(q, n, false), false)
               == (if run == "" then [Plain('$')] else [Arg(Atoi(run))])
                  + LexDollar(ReboundFrom(rest[k..], m, false), false)
            && LexQuestion(q, n, false)
               == [if q[0] == '?' then Arg(n + 1) else Plain('$')]
                  + (Plains(rest[..k]) + LexQuestion(rest[k..], m, false))
  {
    var rest := q[1..];
    var k := DigitRun(rest);
    var tail := ReboundFrom(rest[k..], m, false);
    DigitsPassThrough(rest, m, false);
    GlueMarker(digits, rest[..k], tail);
    DollarReads(digits + rest[..k], tail);
  }

  lemma GlueMarker(d: string, r: string, t: string)
    ensures "$" + d + (r + t) == "$" + ((d + r) + t)
    ensures d == "" ==> "$" + d == ['$']
  {
  }

  lemma MarkerKeepsReading(q: string, n: nat, digits: string, m: nat)
    requires q != "" && q[0] in "?$" && AllDigits(digits)
    requires m == if q[0] == '?' then n + 1 else n
    requires digits == if q[0] == '?' then Itoa(n + 1) else ""
    requires ReadsAlike(q[1..][DigitRun(q[1..])..], m, false)
    ensures ReadsAlike(q, n, false)
  {
    var rest := q[1..];
    var k := DigitRun(rest);
    MarkerReads(q, n, digits, m);
    DigitsPassThrough(rest, m, false);
    PlainCountOfPlains(rest[..k]);
    PlainCountOfConcat(Plains(rest[..k]), LexQuestion(rest[k..], m, false));
    PrintThenRead(n + 1);
    if k == 0 {
      assert digits + rest[..k] == digits;
      assert Plains(rest[..k]) + LexQuestion(rest[k..], m, false) == LexQuestion(rest[k..], m, false);
    }
  }

  lemma {:induction false} Reads(q: string, n: nat, inQuote: bool)
    ensures ReadsAlike(q, n, inQuote)
    decreases |q|
  {
    if q != "" {
      var rest := q[1..];
      if q[0] in "?$" && !inQuote {
        var m, digits := if q[0] == '?' then n + 1 else n, if q[0] == '?' then Itoa(n + 1) else "";
        PrintThenRead(n + 1);
        Reads(rest[DigitRun(rest)..], m, false);
        MarkerKeepsReading(q, n, digits, m);
      } else {
        var flip := if q[0] == '\'' then !inQuote else inQuote;
        Reads(rest, n, flip);
        assert ReboundFrom(q, n, inQuote)[1..] == ReboundFrom(rest, n, flip);
      }
    }
  }

  /** With empty arguments only the plain bytes remain. */
  lemma {:induction false} EmptyArgsLeavePlains(ls: seq<Lexeme>, args: seq<string>)
    requires forall i | 0 <= i < |args| :: args[i] == ""
    ensures Render(ls, args).Some? ==> |Render(ls, args).value| == PlainCount(ls)
  {
    if ls != [] {
      EmptyArgsLeavePlains(ls[1..], args);
    }
  }

  function Placeholders(q: string, inQuote: bool): nat {
    if q == "" then 0
    else if q[0] == '\'' then Placeholders(q[1..], !inQuote)
    else (if q[0] == '?' && !inQuote then 1 else 0) + Placeholders(q[1..], inQuote)
  }

  lemma {:induction false} EnoughArgsRender(q: string, n: nat, inQuote: bool, args: seq<string>)
    requires n + Placeholders(q, inQuote) <= |args|
    ensures Render(LexQuestion(q, n, inQuote), args).Some?
  {
    if q != "" {
      var flip := if q[0] == '\'' then !inQuote else inQuote;
      var m := if q[0] == '?' && !inQuote then n + 1 else n;
      EnoughArgsRender(q[1..], m, flip, args);
      assert LexQuestion(q, n, inQuote)[1..] == LexQuestion(q[1..], m, flip);
    }
  }

  /**
   * The rewriter preserves meaning, for every list of arguments, exactly on the clean queries.
   */
  lemma MeaningPreservedIffClean(q: string)
    ensures (forall args :: BoundDollar(Rebound(q), args) == BoundQuestion(q, args)) <==> Clean(q)
  {
    Reads(q, 0, false);
    if !Clean(q) {
      var args := seq(Placeholders(q, false), _ => "");
      EnoughArgsRender(q, 0, false, args);
      EmptyArgsLeavePlains(LexQuestion(q, 0, false), args);
      EmptyArgsLeavePlains(LexDollar(Rebound(q), false), args);
      assert BoundDollar(Rebound(q), args) != BoundQuestion(q, args);
    }
  }

  /** The wrapper keeps the meaning for whichever driver is behind it, on the same condition. */
  lemma DriverMeaning(driver: string, q: string)
    ensures (forall args :: BoundBy(driver, DriverText(driver, q), args) == BoundQuestion(q, args))
            <==> (driver == "pgx" ==> Clean(q))
  {
    MeaningPreservedIffClean(q);
    if driver == "pgx" {
      if forall args :: BoundBy(driver, DriverText(driver, q), args) == BoundQuestion(q, args) {
        forall args ensures BoundDollar(Rebound(q), args) == BoundQuestion(q, args) {
          assert BoundBy(driver, DriverText(driver, q), args) == BoundQuestion(q, args);
        }
      } else {
        var args :| BoundBy(driver, DriverText(driver, q), args) != BoundQuestion(q, args);
        assert BoundDollar(Rebound(q), args) != BoundQuestion(q, args);
      }
    }
  }

  // ---------------------------------------------------------------- inverse and length

  /** Writing `?` for every argument reference. */
  function Restore(ls: seq<Lexeme>): (s: string)
    ensures |s| == |ls|
  {
    if ls == [] then "" else [if ls[0].Plain? then ls[0].c else '?'] + Restore(ls[1..])
  }

  /** Replaces each maximal unquoted `$digits` by `?`. */
  function Unrebound(t: string): string {
    Restore(LexDollar(t, false))
  }

  lemma {:induction false} RestoreQuestion(q: string, n: nat, inQuote: bool)
    ensures Restore(LexQuestion(q, n, inQuote)) == q
  {
    if q != "" {
      var flip := if q[0] == '\'' then !inQuote else inQuote;
      var m := if q[0] == '?' && !inQuote then n + 1 else n;
      RestoreQuestion(q[1..], m, flip);
      assert LexQuestion(q, n, inQuote)[1..] == LexQuestion(q[1..], m, flip);
      assert q == [q[0]] + q[1..];
    }
  }

  /** The rewriting can be undone exactly on the clean queries. */
  lemma InvertibleIffClean(q: string)
    ensures Unrebound(Rebound(q)) == q <==> Clean(q)
  {
    Reads(q, 0, false);
    RestoreQuestion(q, 0, false);
  }

  /** The widths of the numerals n+1 .. n+k. */
  function Widths(n: nat, k: nat): nat
    decreases k
  {
    if k == 0 then 0 else |Itoa(n + 1)| + Widths(n + 1, k - 1)
  }

  /** The output is longer by the numerals it prints, on every query. */
  lemma {:induction false} ReboundLength(q: string, n: nat, inQuote: bool)
    ensures |ReboundFrom(q, n, inQuote)| == |q| + Widths(n, Placeholders(q, inQuote))
  {
    if q != "" {
      var flip := if q[0] == '\'' then !inQuote else inQuote;
      var m := if q[0] == '?' && !inQuote then n + 1 else n;
      ReboundLength(q[1..], m, flip);
    }
  }

  function ArgIndices(ls: seq<Lexeme>): seq<nat> {
    if ls == [] then []
    else (if ls[0].Arg? then [ls[0].index] else []) + ArgIndices(ls[1..])
  }

  lemma {:induction false} QuestionIndices(q: string, n: nat, inQuote: bool)
    ensures ArgIndices(LexQuestion(q, n, inQuote)) == seq(Placeholders(q, inQuote), i => n + 1 + i)
  {
    if q != "" {
      var flip := if q[0] == '\'' then !inQuote else inQuote;
      var m := if q[0] == '?' && !inQuote then n + 1 else n;
      QuestionIndices(q[1..], m, flip);
      assert LexQuestion(q, n, inQuote)[1..] == LexQuestion(q[1..], m, flip);
    }
  }

  /** On a clean query the references come out as $1 .. $k, in order, one per placeholder. */
  lemma NumberedInOrder(q: string)
    requires Clean(q)
    ensures ArgIndices(LexDollar(Rebound(q), false)) == seq(Placeholders(q, false), i => 1 + i)
  {
    Reads(q, 0, false);
    QuestionIndices(q, 0, false);
  }

  // ---------------------------------------------------------------- the quote toggle

  /** How a byte of a statement is classified. */
  datatype Kind = Code | Literal | Quote

  /** The one-bit toggle of the rewriter. */
  function Toggle(q: string, inQuote: bool): seq<Kind> {
    if q == "" then []
    else if q[0] == '\'' then [Quote] + Toggle(q[1..], !inQuote)
    else [if inQuote then Literal else Code] + Toggle(q[1..], inQuote)
  }

  /** A scanner of SQL character literals: inside one, a doubled quote is an escaped quote. */
  function Scan(q: string, inLiteral: bool): seq<Kind>
    decreases |q|
  {
    if q == "" then []
    else if !inLiteral then
      if q[0] == '\'' then [Quote] + Scan(q[1..], true) else [Code] + Scan(q[1..], false)
    else if q[0] != '\'' then [Literal] + Scan(q[1..], true)
    else if |q| > 1 && q[1] == '\'' then [Quote, Quote] + Scan(q[2..], true)
    else [Quote] + Scan(q[1..], false)
  }

  /** The toggle classifies every byte as the scanner of literals does. */
  lemma {:induction false} ToggleIsScanner(q: string, inLiteral: bool)
    ensures Toggle(q, inLiteral) == Scan(q, inLiteral)
    decreases |q|
  {
    if q != "" {
      if inLiteral && q[0] == '\'' && |q| > 1 && q[1] == '\'' {
        ToggleIsScanner(q[2..], true);
        assert q[1..][1..] == q[2..];
        assert Toggle(q[1..], false) == [Quote] + Toggle(q[2..], true);
      } else {
        ToggleIsScanner(q[1..], if q[0] == '\'' then !inLiteral else inLiteral);
      }
    }
  }

  /** Every byte copied, but for the `?` that are classified as code, which become `$n+1`, `$n+2`, ... */
  function RewrittenBy(q: string, kinds: seq<Kind>, n: nat): string
    requires |kinds| == |q|
  {
    if q == "" then ""
    else if q[0] == '?' && kinds[0] == Code then "$" + Itoa(n + 1) + RewrittenBy(q[1..], kinds[1..], n + 1)
    else [q[0]] + RewrittenBy(q[1..], kinds[1..], n)
  }

  lemma {:induction false} RewrittenByToggle(q: string, n: nat, inQuote: bool)
    ensures |Toggle(q, inQuote)| == |q|
    ensures ReboundFrom(q, n, inQuote) == RewrittenBy(q, Toggle(q, inQuote), n)
  {
    if q != "" {
      var flip := if q[0] == '\'' then !inQuote else inQuote;
      var m := if q[0] == '?' && !inQuote then n + 1 else n;
      RewrittenByToggle(q[1..], m, flip);
      assert Toggle(q, inQuote)[1..] == Toggle(q[1..], flip);
    }
  }

  /** The rewriter changes exactly the `?` that a scanner of literals takes for code. */
  lemma RewritesExactlyCode(q: string)
    ensures |Scan(q, false)| == |q| && Rebound(q) == RewrittenBy(q, Scan(q, false), 0)
  {
    RewrittenByToggle(q, 0, false);
    ToggleIsScanner(q, false);
  }

  /** A statement by its grammar: code without quotes, and literals given by their value. */
  datatype Segment = CodeText(text: string) | LiteralText(value: string)

  ghost predicate WellFormed(segs: seq<Segment>) {
    forall s | s in segs && s.CodeText? :: '\'' !in s.text
  }

  function Escaped(value: string): string {
    if value == "" then ""
    else (if value[0] == '\'' then "''" else [value[0]]) + Escaped(value[1..])
  }

  function Written(segs: seq<Segment>): string {
    if segs == [] then ""
    else
      (match segs[0]
       case CodeText(text) => text
       case LiteralText(value) => "'" + Escaped(value) + "'") + Written(segs[1..])
  }

  /** Numbers the `?` of the code segments and leaves the literals alone. */
  function ReboundSegments(segs: seq<Segment>, n: nat): seq<Segment> {
    if segs == [] then []
    else
      match segs[0]
      case CodeText(text) =>
        [CodeText(ReboundFrom(text, n, false))] + ReboundSegments(segs[1..], n + Placeholders(text, false))
      case LiteralText(_) => [segs[0]] + ReboundSegments(segs[1..], n)
  }

  lemma {:induction false} CodePassesThrough(text: string, rest: string, n: nat)
    requires '\'' !in text
    ensures ReboundFrom(text + rest, n, false)
         == ReboundFrom(text, n, false) + ReboundFrom(rest, n + Placeholders(text, false), false)
  {
    if text == "" {
      assert text + rest == rest;
    } else {
      assert (text + rest)[1..] == text[1..] + rest;
      CodePassesThrough(text[1..], rest, if text[0] == '?' then n + 1 else n);
    }
  }

  lemma {:induction false} LiteralPassesThrough(value: string, rest: string, n: nat)
    ensures ReboundFrom(Escaped(value) + ("'" + rest), n, true) == Escaped(value) + ("'" + ReboundFrom(rest, n, false))
  {
    var tail := "'" + rest;
    if value == "" {
      assert Escaped(value) + tail == tail && tail[1..] == rest;
    } else {
      LiteralPassesThrough(value[1..], rest, n);
      EscapedByte(value[0], Escaped(value[1..]) + tail, n);
      var byte := if value[0] == '\'' then "''" else [value[0]];
      Glue(byte, Escaped(value[1..]), tail);
      Glue(byte, Escaped(value[1..]), "'" + ReboundFrom(rest, n, false));
    }
  }

  lemma EscapedByte(c: char, tail: string, n: nat)
    ensures var byte := if c == '\'' then "''" else [c];
            ReboundFrom(byte + tail, n, true) == byte + ReboundFrom(tail, n, true)
  {
    if c == '\'' {
      assert ("''" + tail)[1..] == "'" + tail && ("'" + tail)[1..] == tail;
    } else {
      assert ([c] + tail)[1..] == tail;
    }
  }

  lemma CodeIsRewritten(segs: seq<Segment>, n: nat)
    requires WellFormed(segs) && segs != [] && segs[0].CodeText?
    requires var m := n + Placeholders(segs[0].text, false);
             ReboundFrom(Written(segs[1..]), m, false) == Written(ReboundSegments(segs[1..], m))
    ensures ReboundFrom(Written(segs), n, false) == Written(ReboundSegments(segs, n))
  {
    CodePassesThrough(segs[0].text, Written(segs[1..]), n);
    assert ReboundSegments(segs, n)[1..] == ReboundSegments(segs[1..], n + Placeholders(segs[0].text, false));
  }

  lemma LiteralIsCopied(segs: seq<Segment>, n: nat)
    requires segs != [] && segs[0].LiteralText?
    requires ReboundFrom(Written(segs[1..]), n, false) == Written(ReboundSegments(segs[1..], n))
    ensures ReboundFrom(Written(segs), n, false) == Written(ReboundSegments(segs, n))
  {
    assert ReboundSegments(segs, n)[1..] == ReboundSegments(segs[1..], n);
    WholeLiteral(segs[0].value, Written(segs[1..]), n);
  }

  /** Rebinding a written statement rewrites its code segments and copies every literal. */
  lemma {:induction false} LiteralsAreCopied(segs: seq<Segment>, n: nat)
    requires WellFormed(segs)
    ensures ReboundFrom(Written(segs), n, false) == Written(ReboundSegments(segs, n))
  {
    if segs != [] {
      match segs[0]
      case CodeText(text) =>
        LiteralsAreCopied(segs[1..], n + Placeholders(text, false));
        CodeIsRewritten(segs, n);
      case LiteralText(_) =>
        LiteralsAreCopied(segs[1..], n);
        LiteralIsCopied(segs, n);
    }
  }

  lemma WholeLiteral(value: string, rest: string, n: nat)
    ensures ReboundFrom("'" + Escaped(value) + "'" + rest, n, false)
         == "'" + Escaped(value) + "'" + ReboundFrom(rest, n, false)
  {
    var text := "'" + Escaped(value) + "'" + rest;
    assert text[1..] == Escaped(value) + ("'" + rest);
    LiteralPassesThrough(value, rest, n);
  }
}
