/** The shared error reporter of rlox (rlox/src/error_reporter.rs): it prints
    one diagnostic line per error and remembers that an error happened and
    with which exit code. Printing is modelled by a ghost log of the lines
    that would have been printed. */
module ErrorReporting {
  import opened Wrappers
  import opened Tokens

  /** Process exit codes of the `exitcode` crate. */
  type ExitCode = int
  const OK: ExitCode := 0
  const USAGE: ExitCode := 64
  const DATAERR: ExitCode := 65

  /** Decimal text of an integer, as Rust's `{}` formats an `i32`. */
  function IntToString(n: int): (s: string)
    ensures |s| > 0
    ensures n >= 0 ==> s == NatToString(n)
    ensures n < 0 ==> s[0] == '-' && s[1..] == NatToString(-n)
    decreases if n < 0 then 1 - n else n
  {
    if n < 0 then "-" + NatToString(-n) else NatToString(n)
  }

  function NatToString(n: nat): (s: string)
    ensures |s| > 0 && forall i :: 0 <= i < |s| ==> '0' <= s[i] <= '9'
    ensures n > 0 ==> s[0] != '0'
  {
    if n < 10 then [DigitChar(n)] else NatToString(n / 10) + [DigitChar(n % 10)]
  }

  function DigitChar(d: nat): (c: char)
    requires d < 10
  {
    "0123456789"[d]
  }

  /** Reads a run of decimal digits back as a number. */
  function DigitsValue(s: string): nat
    requires forall i :: 0 <= i < |s| ==> '0' <= s[i] <= '9'
  {
    if s == [] then 0 else 10 * DigitsValue(s[..|s| - 1]) + (s[|s| - 1] as int - '0' as int)
  }

  /** The decimal text of a number reads back as that number. */
  lemma {:induction false} NatToStringRoundTrip(n: nat)
    ensures DigitsValue(NatToString(n)) == n
  {
    var s := NatToString(n);
    if n >= 10 {
      NatToStringRoundTrip(n / 10);
      assert s[..|s| - 1] == NatToString(n / 10);
    }
  }

  /** One printed diagnostic: `[line N] Error<where>: <message>`. */
  function Diagnostic(line: int, where: string, message: string): string
  {
    "[line " + IntToString(line) + "] Error" + where + ": " + message
  }

  /** The location shown for an error found at a token. */
  function Where(token: Token): string
  {
    if token.typ == EOF then " at end" else " at '" + token.lexeme + "'"
  }

  /** One error as the scanner or parser raises it. */
  datatype ErrorReport = ErrorReport(line: int, where: string, message: string, code: ExitCode)

  /** The observable state of a reporter. */
  datatype ReporterState = ReporterState(hadError: bool, exitCode: Option<ExitCode>, printed: seq<string>)

  const Fresh: ReporterState := ReporterState(false, None, [])

  /** The state after one report. */
  function Reported(s: ReporterState, r: ErrorReport): ReporterState
  {
    ReporterState(true, Some(r.code), s.printed + [Diagnostic(r.line, r.where, r.message)])
  }

  /** The state after a sequence of reports, in order. */
  function ReportedAll(s: ReporterState, rs: seq<ErrorReport>): ReporterState
    decreases |rs|
  {
    if rs == [] then s else ReportedAll(Reported(s, rs[0]), rs[1..])
  }

  /** One report through the fold is the report itself. */
  lemma ReportedAllSingle(s: ReporterState, r: ErrorReport)
    ensures ReportedAll(s, [r]) == Reported(s, r)
  {
    assert [r][1..] == [];
  }

  function Rendered(rs: seq<ErrorReport>): (lines: seq<string>)
    ensures |lines| == |rs|
    ensures forall i :: 0 <= i < |rs| ==> lines[i] == Diagnostic(rs[i].line, rs[i].where, rs[i].message)
  {
    if rs == [] then [] else [Diagnostic(rs[0].line, rs[0].where, rs[0].message)] + Rendered(rs[1..])
  }

  /** After any number of reports the error flag is set iff it was set before
      or something was reported. */
  lemma {:induction false} ReportedAllFlag(s: ReporterState, rs: seq<ErrorReport>)
    ensures ReportedAll(s, rs).hadError == (s.hadError || rs != [])
    decreases |rs|
  {
    if rs != [] {
      ReportedAllFlag(Reported(s, rs[0]), rs[1..]);
    }
  }

  /** The exit code is that of the LAST report: the last error wins. */
  lemma {:induction false} ReportedAllLastCode(s: ReporterState, rs: seq<ErrorReport>)
    ensures ReportedAll(s, rs).exitCode == if rs == [] then s.exitCode else Some(rs[|rs| - 1].code)
    decreases |rs|
  {
    if rs != [] {
      ReportedAllLastCode(Reported(s, rs[0]), rs[1..]);
      if rs[1..] != [] {
        assert rs[1..][|rs[1..]| - 1] == rs[|rs| - 1];
      }
    }
  }

  /** Exactly one diagnostic line is printed per report, in order. */
  lemma {:induction false} ReportedAllPrinted(s: ReporterState, rs: seq<ErrorReport>)
    ensures ReportedAll(s, rs).printed == s.printed + Rendered(rs)
    decreases |rs|
  {
    if rs != [] {
      ReportedAllPrinted(Reported(s, rs[0]), rs[1..]);
    }
  }

  /** Reporting two batches one after the other is reporting their concatenation. */
  lemma {:induction false} ReportedAllAppend(s: ReporterState, a: seq<ErrorReport>, b: seq<ErrorReport>)
    ensures ReportedAll(s, a + b) == ReportedAll(ReportedAll(s, a), b)
    decreases |a|
  {
    if a != [] {
      assert (a + b)[0] == a[0];
      assert (a + b)[1..] == a[1..] + b;
      ReportedAllAppend(Reported(s, a[0]), a[1..], b);
    } else {
      assert a + b == b;
    }
  }

  class ErrorReporter {
    var hadError: bool
    var exitCode: Option<ExitCode>
    /** The diagnostic lines printed so far. */
    ghost var printed: seq<string>

    ghost function State(): ReporterState
      reads this
    {
      ReporterState(hadError, exitCode, printed)
    }

    /** `ErrorReporter::new`: no error yet, no exit code. */
    constructor ()
      ensures State() == Fresh
    {
      hadError := false;
      exitCode := None;
      printed := [];
    }

    /** `Default::default`: the same reporter as `new`. */
    constructor Default()
      ensures State() == Fresh
    {
      hadError := false;
      exitCode := None;
      printed := [];
    }

    /** `error`: a report with an empty location. */
    method Error(line: int, message: string, code: ExitCode)
      modifies this
      ensures State() == Reported(old(State()), ErrorReport(line, "", message, code))
    {
      Report(line, "", message, code);
    }

    /** `report`: print the diagnostic, set the flag, remember the code. */
    method Report(line: int, where: string, message: string, code: ExitCode)
      modifies this
      ensures State() == Reported(old(State()), ErrorReport(line, where, message, code))
      ensures hadError && exitCode == Some(code)
      ensures printed == old(printed) + ["[line " + IntToString(line) + "] Error" + where + ": " + message]
    {
      printed := printed + [Diagnostic(line, where, message)];
      hadError := true;
      exitCode := Some(code);
    }

    /** `parse_error`: a report located at a token, " at end" for the end marker. */
    method ParseError(token: Token, message: string, code: ExitCode)
      modifies this
      ensures State() == Reported(old(State()), ErrorReport(token.line, Where(token), message, code))
    {
      Report(token.line, Where(token), message, code);
    }
  }
}
