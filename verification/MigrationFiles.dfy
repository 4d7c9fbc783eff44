/** Which files of a directory the migration runner takes, and which version it reads from a name. */
module MigrationFiles {
  import opened Basics
  import opened Decimal
  import opened Migrations

  // ---------------------------------------------------------------- the names that are planned

  predicate EndsInUpSql(name: string) {
    |name| >= 7 && name[|name| - 7..] == ".up.sql"
  }

  lemma {:induction false} UpFilesAreNamed(names: seq<string>)
    ensures forall n :: n in UpFiles(names) <==> n in names && EndsInUpSql(n)
  {
    if names != [] {
      var front, last := names[..|names| - 1], names[|names| - 1];
      UpFilesAreNamed(front);
      assert forall n :: n in names <==> n in front || n == last;
      assert HasSuffix(last, UP_SUFFIX) <==> EndsInUpSql(last);
    }
  }

  lemma {:induction false} NumberedAreParsed(names: seq<string>)
    ensures forall f :: f in Numbered(names) <==> f.name in names && ParseVersion(f.name) == Some(f.version)
  {
    if names != [] {
      NumberedAreParsed(names[1..]);
      assert forall n :: n in names <==> n == names[0] || n in names[1..];
    }
  }

  /** The plan has exactly the files of the directory that end in .up.sql and start with a version. */
  lemma PlanTakesUpFiles(names: seq<string>)
    ensures forall f :: f in Plan(names) <==>
                          f.name in names && EndsInUpSql(f.name) && ParseVersion(f.name) == Some(f.version)
  {
    UpFilesAreNamed(names);
    SortKeepsNames(UpFiles(names));
    NumberedAreParsed(SortNames(UpFiles(names)));
    assert forall n :: n in SortNames(UpFiles(names)) <==> n in multiset(SortNames(UpFiles(names)));
    assert forall n :: n in UpFiles(names) <==> n in multiset(UpFiles(names));
  }

  // ---------------------------------------------------------------- the version in a name

  function Signed(sign: string, digits: string): int
    requires AllDigits(digits)
  {
    var n: int := Atoi(digits);
    if sign == "-" then -n else n
  }

  /** Blanks, a sign or none, digits within six characters with the sign, and an underscore. */
  ghost predicate Scanned(name: string, blanks: string, sign: string, digits: string, rest: string) {
    && name == blanks + (sign + (digits + ("_" + rest)))
    && (forall c | c in blanks :: c in " \t\U{B}\U{C}\r")
    && (sign == "" || sign == "+" || sign == "-")
    && digits != "" && AllDigits(digits) && |sign| + |digits| <= 6
  }

  ghost predicate ScansAs(name: string, version: int) {
    exists blanks, sign, digits, rest ::
      Scanned(name, blanks, sign, digits, rest) && version == Signed(sign, digits)
  }

  lemma {:induction false} BlanksAreSkipped(blanks: string, s: string)
    requires forall c | c in blanks :: c in " \t\U{B}\U{C}\r"
    requires s != "" ==> s[0] !in " \t\U{B}\U{C}\r"
    ensures SkipBlanks(blanks + s) == s
  {
    if blanks == "" {
      assert blanks + s == s;
    } else {
      assert (blanks + s)[1..] == blanks[1..] + s;
      assert blanks[0] in blanks && forall c | c in blanks[1..] :: c in blanks;
      BlanksAreSkipped(blanks[1..], s);
    }
  }

  lemma DigitsParse(digits: string, rest: string, width: nat)
    requires digits != "" && AllDigits(digits) && |digits| <= width
    ensures ParseDigits(digits + ("_" + rest), width) == Some(Atoi(digits))
  {
    var body := digits + ("_" + rest);
    DigitRunOfConcat(digits, "_" + rest);
    assert body[..|digits|] == digits && body[|digits|] == '_';
  }

  /** What follows the blanks: the sign, the digits and the underscore. */
  lemma SignedDigitsParse(name: string, sign: string, digits: string, rest: string)
    requires sign == "" || sign == "+" || sign == "-"
    requires digits != "" && AllDigits(digits) && |sign| + |digits| <= 6
    requires SkipBlanks(name) == sign + (digits + ("_" + rest))
    ensures ParseVersion(name) == Some(Signed(sign, digits))
  {
    var body := digits + ("_" + rest);
    StartsWithDigit(digits, "_" + rest);
    DigitsParse(digits, rest, 6 - |sign|);
    SignIsRead(name, sign, body, Atoi(digits));
  }

  lemma StartsWithDigit(digits: string, tail: string)
    requires digits != "" && AllDigits(digits)
    ensures digits + tail != "" && IsDigit((digits + tail)[0])
  {
  }

  lemma SignIsRead(name: string, sign: string, body: string, n: nat)
    requires sign == "" || sign == "+" || sign == "-"
    requires SkipBlanks(name) == sign + body && body != "" && IsDigit(body[0])
    requires ParseDigits(body, 6 - |sign|) == Some(n)
    ensures var v: int := n; ParseVersion(name) == Some(if sign == "-" then -v else v)
  {
    if sign == "" {
      assert sign + body == body;
    } else {
      assert (sign + body)[0] == sign[0] && (sign + body)[1..] == body;
    }
  }

  lemma ScannedIsParsed(name: string, blanks: string, sign: string, digits: string, rest: string)
    requires Scanned(name, blanks, sign, digits, rest)
    ensures ParseVersion(name) == Some(Signed(sign, digits))
  {
    var s := sign + (digits + ("_" + rest));
    assert IsDigit(digits[0]) && (s[0] == digits[0] || s[0] == '+' || s[0] == '-');
    BlanksAreSkipped(blanks, s);
    SignedDigitsParse(name, sign, digits, rest);
  }

  lemma {:induction false} SkippedAreBlanks(s: string) returns (blanks: string)
    ensures s == blanks + SkipBlanks(s) && forall c | c in blanks :: c in " \t\U{B}\U{C}\r"
  {
    if s != "" && IsBlank(s[0]) {
      blanks := SkippedAreBlanks(s[1..]);
      assert s == [s[0]] + s[1..];
      blanks := [s[0]] + blanks;
    } else {
      blanks := "";
    }
  }

  lemma ParsedDigits(body: string, width: nat) returns (digits: string, rest: string)
    requires ParseDigits(body, width).Some?
    ensures digits != "" && AllDigits(digits) && |digits| <= width && body == digits + ("_" + rest)
  {
    var k := if DigitRun(body) < width then DigitRun(body) else width;
    digits, rest := body[..k], body[k + 1..];
    assert AllDigits(body[..DigitRun(body)]) && body[..DigitRun(body)][..k] == digits;
    SplitAtUnderscore(body, k);
  }

  /** Where a version was read, there were a sign or none, digits and an underscore. */
  lemma ParsedHasParts(name: string) returns (sign: string, digits: string, rest: string)
    requires ParseVersion(name).Some?
    ensures sign == "" || sign == "+" || sign == "-"
    ensures digits != "" && AllDigits(digits) && |sign| + |digits| <= 6
    ensures SkipBlanks(name) == sign + (digits + ("_" + rest))
  {
    var s := SkipBlanks(name);
    if s != "" && s[0] in "+-" {
      sign := [s[0]];
      digits, rest := ParsedDigits(s[1..], 5);
      assert s == sign + s[1..];
    } else {
      sign := "";
      digits, rest := ParsedDigits(s, 6);
      assert "" + s == s;
    }
  }

  lemma SplitAtUnderscore(body: string, k: nat)
    requires k < |body| && body[k] == '_'
    ensures body == body[..k] + ("_" + body[k + 1..])
  {
  }

  /** The version in a name is read exactly as the name scans. */
  lemma ParsedIffScanned(name: string, version: int)
    ensures ParseVersion(name) == Some(version) <==> ScansAs(name, version)
  {
    if ParseVersion(name) == Some(version) {
      var blanks := SkippedAreBlanks(name);
      var sign, digits, rest := ParsedHasParts(name);
      assert Scanned(name, blanks, sign, digits, rest);
      ScannedIsParsed(name, blanks, sign, digits, rest);
    }
    if ScansAs(name, version) {
      var blanks, sign, digits, rest :|
        Scanned(name, blanks, sign, digits, rest) && version == Signed(sign, digits);
      ScannedIsParsed(name, blanks, sign, digits, rest);
    }
  }

  // ---------------------------------------------------------------- the shipped directory

  lemma {:induction false} ZerosAreZero(s: string)
    requires forall i | 0 <= i < |s| :: s[i] == '0'
    ensures AllDigits(s) && Atoi(s) == 0
  {
    if s != "" {
      ZerosAreZero(s[..|s| - 1]);
    }
  }

  lemma FirstVersion(zeros: string, rest: string)
    requires |zeros| == 5 && forall i | 0 <= i < 5 :: zeros[i] == '0'
    ensures ParseVersion(zeros + "1" + ("_" + rest)) == Some(1)
  {
    var digits := zeros + "1";
    ZerosAreZero(zeros);
    assert digits[..5] == zeros && digits[5] == '1';
    assert AllDigits(digits) && Atoi(digits) == 1;
    assert "" + ("" + (digits + ("_" + rest))) == digits + ("_" + rest);
    ScannedIsParsed(digits + ("_" + rest), "", "", digits, rest);
  }

  lemma OneUpFile(down: string, up: string)
    requires !EndsInUpSql(down) && EndsInUpSql(up) && ParseVersion(up) == Some(1)
    ensures Run(Plan([down, up]), FRESH, NO_FAULTS) == (Schema({1}, [up]), true)
  {
    assert [down, up][..1] == [down] && [down][..0] == [];
    assert UpFiles([down]) == [] && UpFiles([down, up]) == [up];
    assert [up][1..] == [] && SortNames([up]) == [up];
    assert Numbered([up]) == [File(up, 1)] + Numbered([]);
    assert Plan([down, up]) == [File(up, 1)] && [File(up, 1)][1..] == [];
    assert [] + [up] == [up] && {} + {1} == {1} && Current(FRESH.versions) == 0;
    assert ApplyFiles([], Schema({1}, [up]), 0, {}) == (Schema({1}, [up]), true);
  }

  /** The first start on the shipped files applies the up script, and only it, as version 1. */
  lemma ShippedDirectory()
    ensures var names := ["000001_init.down.sql", "000001_init.up.sql"];
            Run(Plan(names), FRESH, NO_FAULTS) == (Schema({1}, ["000001_init.up.sql"]), true)
  {
    var down, up := "000001_init.down.sql", "000001_init.up.sql";
    assert |down| == 20 && down[13..][0] == 'o';
    assert up == "00000" + "1" + ("_" + "init.up.sql");
    assert |up| == 18 && up[11..] == ".up.sql";
    FirstVersion("00000", "init.up.sql");
    OneUpFile(down, up);
  }
}
