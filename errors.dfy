/** Application-level errors: a default message plus optional context, and
    the "JSON file not found" error that composes its context from a path. */
module Errors {

  /** An optional value of any type; `None` stands for Python's `None`. */
  datatype Option<+T> = None | Some(value: T)

  /** Outcome of an operation that either yields a value or raises an
      application error. */
  datatype Result<+T> = Ok(value: T) | Err(error: ApplicationError)

  /** The error hierarchy: `JsonFileNotFound` is a kind of application error
      and shares its two messages and its rendering. `additionalMessage`
      defaults to the empty string. A `JsonFileNotFound` value is only ever
      built by `NewJsonFileNotFound`, which fixes its default message, as the
      subclass's constructor does. */
  datatype ApplicationError =
    | ApplicationError(defaultMessage: string, additionalMessage: string := "")
    | JsonFileNotFound(defaultMessage: string, additionalMessage: string)
  {
    /** The rendered message: the default message alone when there is no
        additional context, otherwise "default: additional". */
    function GetMessage(): (msg: string)
      ensures |msg| >= |defaultMessage| && msg[..|defaultMessage|] == defaultMessage
      ensures msg == defaultMessage <==> additionalMessage == ""
      ensures additionalMessage != "" ==> msg[|defaultMessage|..] == ": " + additionalMessage
    {
      if additionalMessage == "" then defaultMessage
      else defaultMessage + ": " + additionalMessage
    }

    /** String conversion always renders through GetMessage. */
    function ToString(): (s: string)
      ensures s == GetMessage()
    {
      GetMessage()
    }
  }

  /** Recovers the additional context from a rendered message, given the
      default message it was rendered with. */
  function AdditionalOf(defaultMessage: string, msg: string): (additional: string)
    requires |msg| >= |defaultMessage|
  {
    if msg == defaultMessage then ""
    else if |msg| >= |defaultMessage| + 2 then msg[|defaultMessage| + 2..]
    else msg[|defaultMessage|..]
  }

  /** Rendering loses nothing: the additional context can be read back. */
  lemma MessageRoundTrip(e: ApplicationError)
    ensures AdditionalOf(e.defaultMessage, e.GetMessage()) == e.additionalMessage
  {
    var msg := e.GetMessage();
    if e.additionalMessage != "" {
      assert msg == e.defaultMessage + ": " + e.additionalMessage;
      assert msg[|e.defaultMessage| + 2..] == e.additionalMessage;
    }
  }

  /** Two errors with the same default message render alike only when they
      carry the same additional context. */
  lemma MessageInjective(e1: ApplicationError, e2: ApplicationError)
    requires e1.defaultMessage == e2.defaultMessage
    requires e1.GetMessage() == e2.GetMessage()
    ensures e1.additionalMessage == e2.additionalMessage
  {
    MessageRoundTrip(e1);
    MessageRoundTrip(e2);
  }

  /** Python's `str` of an optional path: the path itself, or "None". */
  function PathText(filePath: Option<string>): (s: string)
    ensures filePath.Some? ==> s == filePath.value
    ensures filePath.None? ==> s == "None"
  {
    match filePath
    case None => "None"
    case Some(p) => p
  }

  const JsonFileNotFoundMessage: string := "Json File Not Found "

  /** The "JSON file not found" error: a fixed default message, and as
      context the given message, a space and the path. */
  function NewJsonFileNotFound(additionalMessage: string := "", filePath: Option<string> := None): (e: ApplicationError)
    ensures e.JsonFileNotFound?
    ensures e.defaultMessage == JsonFileNotFoundMessage
    ensures e.additionalMessage != ""
    ensures e.GetMessage() == JsonFileNotFoundMessage + ": " + additionalMessage + " " + PathText(filePath)
  {
    JsonFileNotFound(JsonFileNotFoundMessage, additionalMessage + " " + PathText(filePath))
  }

  /** With no arguments the error renders with two spaces before "None". */
  lemma DefaultJsonFileNotFoundMessage()
    ensures NewJsonFileNotFound().GetMessage() == "Json File Not Found :  None"
  {
  }
}
