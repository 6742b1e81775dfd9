/**
 * Thrown values and `CustomError` (src/utilities/error.ts): an `Error` that
 * carries an HTTP status code, with a text rendering that walks the chain of
 * nested causes.
 */
module Errors {
  import opened Wrappers
  import opened Text

  /**
   * A value that a `throw` or an error's `cause` may hold. `NotAnError` is any
   * value for which `Error.isError` is false (a string, `undefined`, ...);
   * `Error` is a genuine error object, and `statusCode` is present exactly when
   * it is an instance of `CustomError`. The runtime-captured `stack` is an input.
   */
  datatype Thrown =
    | NotAnError
    | Error(name: string, message: string, stack: Option<string>, cause: Thrown, statusCode: Option<int>)
  {
    /** `value instanceof CustomError`. */
    predicate IsCustom() { Error? && statusCode.Some? }
  }

  /** Separator placed before every nested cause by `#formatError`. */
  const CAUSE_SEPARATOR := "\n[cause]: "

  /** `new CustomError(statusCode, message, cause)`; `stack` is what the runtime captured. */
  function NewCustomError(statusCode: int, message: string, cause: Thrown, stack: Option<string>): (e: Thrown)
    ensures e.IsCustom() && GetStatusCode(e) == statusCode
    ensures e.name == "CustomError" && e.message == message && e.cause == cause && e.stack == stack
  {
    Error("CustomError", message, stack, cause, Some(statusCode))
  }

  /** `getStatusCode()`: the status given to the constructor. */
  function GetStatusCode(e: Thrown): (code: int)
    requires e.IsCustom()
    ensures Some(code) == e.statusCode
  {
    e.statusCode.value
  }

  /** A stack is used only when it is present and not empty (JavaScript truthiness). */
  predicate HasStack(stack: Option<string>) { stack.Some? && stack.value != "" }

  /**
   * The stack-trace part shared by `toString` and `#formatError`: empty without
   * a stack, otherwise a "Stack trace:" heading followed by every line of the
   * stack except the first.
   */
  function StackPart(stack: Option<string>): (part: string)
    ensures part == "" <==> !HasStack(stack)
    ensures HasStack(stack) ==> part == "\nStack trace:\n" + AfterFirstLine(stack.value)
  {
    if HasStack(stack) then
      DropFirstLine(stack.value);
      "\nStack trace:\n" + Join(SplitLines(stack.value)[1..], "\n")
    else ""
  }

  /** The text `#formatError` writes for one error, before its nested cause. */
  function Section(e: Thrown): string
    requires e.Error?
  {
    e.name + " - " + e.message + StackPart(e.stack)
  }

  /** `#formatError(error)`: the error's section, then each nested Error cause after `[cause]: `. */
  function FormatError(e: Thrown): (text: string)
    requires e.Error?
    ensures |Section(e)| <= |text| && text[..|Section(e)|] == Section(e)
    ensures !e.cause.Error? <==> text == Section(e)
    decreases e
  {
    var header := e.name + " - " + e.message;
    var stackTrace := StackPart(e.stack);
    var nestedCause := if e.cause.Error? then CAUSE_SEPARATOR + FormatError(e.cause) else "";
    header + stackTrace + nestedCause
  }

  /** The errors `#formatError` visits: `e`, its cause, its cause's cause, ... up to the first non-Error cause. */
  function CauseChain(e: Thrown): (chain: seq<Thrown>)
    requires e.Error?
    ensures |chain| >= 1 && chain[0] == e
    ensures forall i :: 0 <= i < |chain| ==> chain[i].Error?
    ensures forall i {:trigger chain[i].cause} :: 0 <= i < |chain| - 1 ==> chain[i + 1] == chain[i].cause
    ensures !chain[|chain| - 1].cause.Error?
    decreases e
  {
    if e.cause.Error? then [e] + CauseChain(e.cause) else [e]
  }

  function Sections(chain: seq<Thrown>): (texts: seq<string>)
    requires forall i :: 0 <= i < |chain| ==> chain[i].Error?
    ensures |texts| == |chain|
    ensures forall i :: 0 <= i < |chain| ==> texts[i] == Section(chain[i])
  {
    if chain == [] then [] else [Section(chain[0])] + Sections(chain[1..])
  }

  /**
   * `#formatError` is the sections of the cause chain joined by `[cause]: `: it
   * renders every Error in the chain once, in order, and stops at the first
   * cause that is not an Error.
   */
  lemma {:induction false} FormatErrorIsChainJoin(e: Thrown)
    requires e.Error?
    ensures FormatError(e) == Join(Sections(CauseChain(e)), CAUSE_SEPARATOR)
    decreases e
  {
    if e.cause.Error? {
      FormatErrorIsChainJoin(e.cause);
      SectionsOfChain(e);
      FormatErrorUnfold(e);
      JoinCons(Section(e), Sections(CauseChain(e.cause)), CAUSE_SEPARATOR);
    } else {
      assert Sections(CauseChain(e)) == [Section(e)];
    }
  }

  lemma FormatErrorUnfold(e: Thrown)
    requires e.Error? && e.cause.Error?
    ensures FormatError(e) == Section(e) + CAUSE_SEPARATOR + FormatError(e.cause)
  {
    var h, t, c := e.name + " - " + e.message, StackPart(e.stack), FormatError(e.cause);
    assert h + t + (CAUSE_SEPARATOR + c) == (h + t) + CAUSE_SEPARATOR + c;
  }

  /** The sections of `e`'s chain are `e`'s own section, then those of its cause's chain. */
  lemma SectionsOfChain(e: Thrown)
    requires e.Error? && e.cause.Error?
    ensures Sections(CauseChain(e)) == [Section(e)] + Sections(CauseChain(e.cause))
  {
    var rest := CauseChain(e.cause);
    assert CauseChain(e) == [e] + rest;
    SectionsCons(e, rest);
  }

  lemma SectionsCons(e: Thrown, rest: seq<Thrown>)
    requires e.Error? && forall i :: 0 <= i < |rest| ==> rest[i].Error?
    ensures Sections([e] + rest) == [Section(e)] + Sections(rest)
  {
    assert ([e] + rest)[1..] == rest;
  }

  /**
   * `toString()`: the message, the stack part and, when the cause is an Error,
   * a "Cause:" section holding the formatted cause chain.
   */
  function ToString(e: Thrown): (log: string)
    requires e.IsCustom()
    ensures !e.cause.Error? ==> log == e.message + "\n" + StackPart(e.stack) + "\n"
    ensures e.cause.Error? ==>
      log == e.message + "\n" + StackPart(e.stack) + "\n" + "\nCause:\n" + Join(Sections(CauseChain(e.cause)), CAUSE_SEPARATOR)
  {
    var stackTrace := StackPart(e.stack);
    var logMessage := e.message + "\n" + stackTrace + "\n";
    if e.cause.Error? then
      FormatErrorIsChainJoin(e.cause);
      logMessage + "\nCause:\n" + FormatError(e.cause)
    else logMessage
  }

  /** `[inspect.custom]()`: what `console` prints for a `CustomError`. */
  function Inspect(e: Thrown): (text: string)
    requires e.IsCustom()
    ensures text == ToString(e)
  {
    ToString(e)
  }

  /** Without a stack and without an Error cause, `toString()` is the message followed by two newlines. */
  lemma ToStringBare(statusCode: int, message: string)
    ensures ToString(NewCustomError(statusCode, message, NotAnError, None)) == message + "\n\n"
  {
  }
}
