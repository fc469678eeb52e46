/** `Program::run` of rlox/src/main.rs on a fresh reporter, as a function:
    scan, stop if the scanner reported anything; parse, stop if the parser
    returned nothing; otherwise evaluate and print the result. Reading the
    source, the prompt loop and the printing itself are left out. */
module Pipeline {
  import opened Wrappers
  import opened Tokens
  import opened ErrorReporting
  import opened Grammar
  import opened Lexical
  import opened ScanProperties
  import opened Syntax
  import opened ParseProperties
  import opened Evaluation

  /** How a run ends: with the reporter's exit code, with the evaluator's
      result printed, or by an `unwrap` of a missing exit code. */
  datatype RunOutcome =
    | Stopped(code: ExitCode)
    | Printed(result: Result<Literal, RuntimeError>)
    | Panicked

  /** `exit_code.unwrap()`. */
  function ExitWith(s: ReporterState): RunOutcome
  {
    match s.exitCode
    case Some(code) => Stopped(code)
    case None => Panicked
  }

  function Run(src: string, parseNumber: string -> Float, ops: FloatOps): RunOutcome
  {
    ScanIsShaped(src, parseNumber);
    RunScanned(Scan(src, parseNumber), ops)
  }

  /** `run` once the scanner has returned sc: stop if it reported
      anything, otherwise go on to the parser. */
  function RunScanned(sc: Scanned, ops: FloatOps): RunOutcome
    requires WellFormed(sc.tokens)
  {
    var afterScan := ReportedAll(Fresh, sc.errors);
    if afterScan.hadError then ExitWith(afterScan)
    else RunTokens(sc.tokens, afterScan, ops)
  }

  /** The part of `run` after the scanner, with the reporter in state s. */
  function RunTokens(toks: seq<Token>, s: ReporterState, ops: FloatOps): RunOutcome
    requires WellFormed(toks)
  {
    var parsed := Parse(toks);
    match parsed
    case Failed(_, _) => ExitWith(ReportedAll(s, ReportsOf(ErrorsOf(parsed))))
    case Parsed(e, _) => Printed(Eval(ops, e))
  }

  /** What the scanner hands on: tokens that end with the end marker, and
      reports that all carry the data-error code. */
  predicate ScanShaped(sc: Scanned)
  {
    WellFormed(sc.tokens) && forall i :: 0 <= i < |sc.errors| ==> sc.errors[i].code == DATAERR
  }

  /** The scanner's output always has that shape. */
  lemma ScanIsShaped(src: string, parseNumber: string -> Float)
    ensures ScanShaped(Scan(src, parseNumber))
  {
    ScanEndsWithEof(src, 0, 1, Rlox(parseNumber));
    ScanErrorsShape(src, 0, 1, Rlox(parseNumber));
  }

  /** Every code the parser reports is the data-error code. */
  lemma ParseReportsAreDataErrors(errs: seq<ParseError>)
    ensures forall i :: 0 <= i < |ReportsOf(errs)| ==> ReportsOf(errs)[i].code == DATAERR
  {
  }

  /** Handing over reports that all carry the data-error code leaves that
      code behind, unless there were none. */
  lemma DataErrorsReported(s: ReporterState, rs: seq<ErrorReport>)
    requires forall i :: 0 <= i < |rs| ==> rs[i].code == DATAERR
    ensures ReportedAll(s, rs).hadError == (s.hadError || rs != [])
    ensures rs != [] ==> ReportedAll(s, rs).exitCode == Some(DATAERR)
  {
    ReportedAllFlag(s, rs);
    ReportedAllLastCode(s, rs);
    if rs != [] {
      assert rs[|rs| - 1].code == DATAERR;
    }
  }

  /** After the scanner: a failed parse stops with the data-error code, as
      it reports at least one error; a successful one prints the value of
      its tree. */
  lemma ParsedOutcomes(toks: seq<Token>, s: ReporterState, ops: FloatOps)
    requires WellFormed(toks)
    ensures RunTokens(toks, s, ops).Printed? <==> Parse(toks).Parsed?
    ensures RunTokens(toks, s, ops).Printed? ==> RunTokens(toks, s, ops).result == Eval(ops, Parse(toks).expr)
    ensures !RunTokens(toks, s, ops).Panicked?
    ensures RunTokens(toks, s, ops).Stopped? ==> RunTokens(toks, s, ops).code == DATAERR
  {
    var parsed := Parse(toks);
    AtOk(toks, 0, 0);
    ParseReportsAreDataErrors(ErrorsOf(parsed));
    DataErrorsReported(s, ReportsOf(ErrorsOf(parsed)));
  }

  /** From the scanner on: a run that stops has the data-error code, and
      it prints exactly when neither the scanner nor the parser reported
      anything, the value of the parsed tree. */
  lemma ScannedOutcomes(sc: Scanned, ops: FloatOps)
    requires ScanShaped(sc)
    ensures !RunScanned(sc, ops).Panicked?
    ensures RunScanned(sc, ops).Stopped? ==> RunScanned(sc, ops).code == DATAERR
    ensures RunScanned(sc, ops).Printed? <==> sc.errors == [] && Parse(sc.tokens).Parsed?
    ensures RunScanned(sc, ops).Printed? ==> RunScanned(sc, ops).result == Eval(ops, Parse(sc.tokens).expr)
  {
    DataErrorsReported(Fresh, sc.errors);
    if sc.errors == [] {
      ParsedOutcomes(sc.tokens, ReportedAll(Fresh, sc.errors), ops);
    }
  }

  /** Neither `unwrap` in `run` can fail: a run that stops because of the
      scanner or the parser always has an exit code, the data-error code. */
  lemma RunNeverPanics(src: string, parseNumber: string -> Float, ops: FloatOps)
    ensures !Run(src, parseNumber, ops).Panicked?
    ensures Run(src, parseNumber, ops).Stopped? ==> Run(src, parseNumber, ops).code == DATAERR
  {
    ScanIsShaped(src, parseNumber);
    ScannedOutcomes(Scan(src, parseNumber), ops);
  }

  /** A run prints exactly when the scanner reported nothing and the
      parser built a tree, and it prints that tree's value or error. */
  lemma RunOutcomes(src: string, parseNumber: string -> Float, ops: FloatOps)
    ensures var scanned := Scan(src, parseNumber);
      Run(src, parseNumber, ops).Printed? <==>
        scanned.errors == [] && WellFormed(scanned.tokens) && Parse(scanned.tokens).Parsed?
    ensures var scanned := Scan(src, parseNumber);
      Run(src, parseNumber, ops).Printed? ==>
        WellFormed(scanned.tokens) && Run(src, parseNumber, ops).result == Eval(ops, Parse(scanned.tokens).expr)
  {
    ScanIsShaped(src, parseNumber);
    ScannedOutcomes(Scan(src, parseNumber), ops);
  }
}
