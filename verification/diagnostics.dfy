/** The assembler's messages (`out`, `error` and `warn`): one line
    `<file>:<line>: <kind>: <msg>` naming the source position it is about. */
module Diagnostics {
  import opened Wrappers
  import opened Text

  datatype Kind = Error | Warning

  /** The kind as it appears in the rendered line. */
  function KindName(k: Kind): string {
    match k
    case Error => "error"
    case Warning => "warning"
  }

  function KindOf(word: string): (k: Option<Kind>)
    ensures k.Some? ==> KindName(k.value) == word
  {
    if word == "error" then Some(Error)
    else if word == "warning" then Some(Warning)
    else None
  }

  datatype Diagnostic = Diagnostic(kind: Kind, file: string, line: int, msg: string)

  /** `out(type, file, line, msg)`: the line `"%s:%d: %s: %s"` prints. */
  function Render(d: Diagnostic): (s: string)
    ensures d.file + ":" <= s
    ensures |s| > |d.file| + |d.msg| && s[|s| - |d.msg|..] == d.msg
  {
    d.file + ":" + Decimal(d.line) + ": " + KindName(d.kind) + ": " + d.msg
  }

  /** Reads a rendered line back into its four parts: the file up to the
      first colon, a decimal line number, the kind, and the rest as message. */
  function ParseDiagnostic(s: string): Option<Diagnostic> {
    var (file, afterFile) :- SplitAt(s, ':');
    var (number, afterLine) :- SplitAt(afterFile, ':');
    var line :- ParseDecimal(number);
    ParseKindAndMessage(file, line, afterLine)
  }

  /** The part after the line number: `" <kind>: <msg>"`. */
  function ParseKindAndMessage(file: string, line: int, s: string): Option<Diagnostic> {
    if |s| >= 1 && s[0] == ' ' then
      var (word, afterKind) :- SplitAt(s[1..], ':');
      var kind :- KindOf(word);
      if |afterKind| >= 1 && afterKind[0] == ' ' then
        Some(Diagnostic(kind, file, line, afterKind[1..]))
      else None
    else None
  }

  lemma ParseKindAndMessageOf(file: string, line: int, kind: Kind, msg: string)
    ensures ParseKindAndMessage(file, line, " " + KindName(kind) + ": " + msg)
         == Some(Diagnostic(kind, file, line, msg))
  {
    var s := " " + KindName(kind) + ": " + msg;
    assert s[1..] == KindName(kind) + [':'] + (" " + msg);
    SplitAtJoin(KindName(kind), ':', " " + msg);
    assert (" " + msg)[1..] == msg;
  }

  /** A rendered diagnostic determines its kind, file, line and message,
      provided the file name has no colon of its own. */
  lemma ParseRender(d: Diagnostic)
    ensures ':' !in d.file ==> ParseDiagnostic(Render(d)) == Some(d)
  {
    if ':' !in d.file {
      var number := Decimal(d.line);
      var afterLine := " " + KindName(d.kind) + ": " + d.msg;
      var afterFile := number + [':'] + afterLine;
      assert Render(d) == d.file + [':'] + afterFile;
      SplitAtJoin(d.file, ':', afterFile);
      assert ':' !in number;
      SplitAtJoin(number, ':', afterLine);
      DecimalRoundTrip(d.line);
      ParseKindAndMessageOf(d.file, d.line, d.kind, d.msg);
    }
  }

  /** `error(file, line, msg)`. */
  function ErrorLine(file: string, line: int, msg: string): (s: string)
    ensures ':' !in file ==> ParseDiagnostic(s) == Some(Diagnostic(Error, file, line, msg))
  {
    ParseRender(Diagnostic(Error, file, line, msg));
    Render(Diagnostic(Error, file, line, msg))
  }

  /** `warn(file, line, msg)`. */
  function WarningLine(file: string, line: int, msg: string): (s: string)
    ensures ':' !in file ==> ParseDiagnostic(s) == Some(Diagnostic(Warning, file, line, msg))
  {
    ParseRender(Diagnostic(Warning, file, line, msg));
    Render(Diagnostic(Warning, file, line, msg))
  }
}
