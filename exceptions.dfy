/**
 * The plugin's exception classes. Every class derives from
 * `MermaidPreprocessorError`, so an error is one record whose `kind` names its
 * class; the constructors are functions that build the `details` map the
 * Python constructors build. `Raised` is what a call can raise through the
 * plugin hooks: one of these errors or one of Python's built-in exceptions.
 */
module Exceptions {
  import opened Wrappers

  /** A value of a `details` map: `str | int | None`. */
  datatype Detail = DStr(s: string) | DInt(i: int) | DNone

  type Details = map<string, Detail>

  /** The classes of the hierarchy; `FileError` and `ValidationError` are raised by the plugin but not defined by its exceptions module. */
  datatype ErrorKind = PreprocessorError | CLIError | ConfigError | ParsingError | FileError | ValidationError

  datatype MermaidError = MermaidError(kind: ErrorKind, message: string, details: Details)

  /** `isinstance(e, cls)` over the hierarchy: every class is a subclass of `MermaidPreprocessorError` and of itself only. */
  function IsInstance(e: MermaidError, cls: ErrorKind): (r: bool)
    ensures cls == PreprocessorError ==> r
    ensures cls == e.kind ==> r
    ensures r && cls != PreprocessorError ==> e.kind == cls
  {
    cls == PreprocessorError || cls == e.kind
  }

  function OptStr(s: Option<string>): Detail {
    if s.Some? then DStr(s.value) else DNone
  }

  function OptInt(i: Option<int>): Detail {
    if i.Some? then DInt(i.value) else DNone
  }

  /** `MermaidPreprocessorError(message, details)`: missing (or empty) details become the empty map. */
  function NewPreprocessorError(message: string, details: Option<Details>): (e: MermaidError)
    ensures e.kind == PreprocessorError && e.message == message
    ensures details.None? ==> e.details == map[]
    ensures details.Some? ==> e.details == details.value
  {
    MermaidError(PreprocessorError, message, if details.Some? then details.value else map[])
  }

  /** `MermaidCLIError(message, command, return_code, stderr)`. */
  function NewCLIError(message: string, command: Option<string>, returnCode: Option<int>, stderr: Option<string>): (e: MermaidError)
    ensures e.kind == CLIError && e.message == message
    ensures e.details.Keys == {"command", "return_code", "stderr"}
    ensures e.details["command"] == OptStr(command)
    ensures e.details["return_code"] == OptInt(returnCode)
    ensures e.details["stderr"] == OptStr(stderr)
  {
    MermaidError(CLIError, message, map["command" := OptStr(command), "return_code" := OptInt(returnCode), "stderr" := OptStr(stderr)])
  }

  /** `MermaidConfigError(message, config_key, config_value, suggestion)`; the value is a string, an integer or absent. */
  function NewConfigError(message: string, configKey: Option<string>, configValue: Detail, suggestion: Option<string>): (e: MermaidError)
    ensures e.kind == ConfigError && e.message == message
    ensures e.details.Keys == {"config_key", "config_value", "suggestion"}
    ensures e.details["config_key"] == OptStr(configKey)
    ensures e.details["config_value"] == configValue
    ensures e.details["suggestion"] == OptStr(suggestion)
  {
    MermaidError(ConfigError, message, map["config_key" := OptStr(configKey), "config_value" := configValue, "suggestion" := OptStr(suggestion)])
  }

  /** The longest Mermaid source kept verbatim in a parsing error. */
  const MaxStoredCode := 200

  /** Mermaid source longer than 200 characters is cut to its first 200 and marked with `...`. */
  function TruncateCode(code: Option<string>): (r: Option<string>)
    ensures code.None? ==> r.None?
    ensures code.Some? && |code.value| <= MaxStoredCode ==> r == code
    ensures code.Some? && |code.value| > MaxStoredCode ==>
      r.Some? && |r.value| == MaxStoredCode + 3 && r.value[..MaxStoredCode] == code.value[..MaxStoredCode] && r.value[MaxStoredCode..] == "..."
  {
    if code.Some? && code.value != "" && |code.value| > MaxStoredCode then Some(code.value[..MaxStoredCode] + "...") else code
  }

  /** Truncating a stored code again changes nothing. */
  lemma TruncateCodeIdempotent(code: Option<string>)
    ensures TruncateCode(TruncateCode(code)) == TruncateCode(code)
  {
    if code.Some? && |code.value| > MaxStoredCode {
      var t := TruncateCode(code).value;
      assert t[..MaxStoredCode] + "..." == t;
    }
  }

  /** `MermaidParsingError(message, source_file, line_number, mermaid_code)`. */
  function NewParsingError(message: string, sourceFile: Option<string>, lineNumber: Option<int>, mermaidCode: Option<string>): (e: MermaidError)
    ensures e.kind == ParsingError && e.message == message
    ensures e.details.Keys == {"source_file", "line_number", "mermaid_code"}
    ensures e.details["source_file"] == OptStr(sourceFile)
    ensures e.details["line_number"] == OptInt(lineNumber)
    ensures e.details["mermaid_code"] == OptStr(TruncateCode(mermaidCode))
  {
    MermaidError(ParsingError, message,
      map["source_file" := OptStr(sourceFile), "line_number" := OptInt(lineNumber), "mermaid_code" := OptStr(TruncateCode(mermaidCode))])
  }

  /** `MermaidFileError(message, ...)`; the class is not part of this model, so its keyword arguments are not kept. */
  function NewFileError(message: string): (e: MermaidError)
    ensures e.kind == FileError && e.message == message
  {
    MermaidError(FileError, message, map[])
  }

  /** `MermaidValidationError(message, ...)`; the class is not part of this model, so its keyword arguments are not kept. */
  function NewValidationError(message: string): (e: MermaidError)
    ensures e.kind == ValidationError && e.message == message
  {
    MermaidError(ValidationError, message, map[])
  }

  /** An exception a hook can raise: one of the plugin's errors or a Python built-in one. */
  datatype Raised =
    | Mermaid(error: MermaidError)
    | FileNotFound(msg: string)     // FileNotFoundError
    | PermissionDenied(msg: string) // PermissionError
    | OSFailure(msg: string)        // any other OSError
    | ValueFailure(msg: string)     // ValueError
    | KeyMissing(key: string)       // KeyError
    | TypeFailure(msg: string)      // TypeError
    | Other(msg: string)            // any other Exception

  /** `str(e)`; a `KeyError` prints its key quoted. */
  function Str(e: Raised): string {
    match e
    case Mermaid(err) => err.message
    case KeyMissing(k) => "'" + k + "'"
    case FileNotFound(m) => m
    case PermissionDenied(m) => m
    case OSFailure(m) => m
    case ValueFailure(m) => m
    case TypeFailure(m) => m
    case Other(m) => m
  }
}
