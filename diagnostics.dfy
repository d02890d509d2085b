/** The diagnostic data model shared by the passes (src/diagnostic.rs) and the
    result type of every visit method (`pass::PassResult`). */
module Diagnostics {

  datatype DiagnosticSeverity = Warning | Error | Internal

  datatype Diagnostic = Diagnostic(message: string, severity: DiagnosticSeverity)

  /** `Ok(())` or the one diagnostic a visit method fails with. */
  datatype PassResult = Success | Failure(diagnostic: Diagnostic)

  /** The diagnostic of the lowering pass's `assert!` macro. */
  const AssertionFailed := Diagnostic("internal assertion failed", Internal)
}
