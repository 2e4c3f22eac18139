/** The exceptions that travel through the bot: the classes declared in
    exceptions.py and the Python built-in classes that the validation code
    raises or that the interpreter raises on a badly shaped response. */
module Exceptions {
  import opened Wrappers
  import Values

  /** `BotEmptyError` is declared in exceptions.py but never raised. */
  datatype ExceptionClass =
    | TheAnswerIsNot200Error
    | UndocumentedStatusError
    | RequestExceptionError
    | JSONDecoderError
    | BotEmptyError
    | TypeError
    | KeyError
    | AttributeError

  /** A raised exception: its class and its single message argument, if it was
      given one. */
  datatype Exception = Exception(cls: ExceptionClass, arg: Option<string>)

  /** `str(e)`: empty for an exception raised without an argument; for a
      `KeyError`, the `repr` of its argument (so it comes out quoted); for any
      other class, the argument itself. */
  function ErrorText(e: Exception): string {
    match e.arg
    case None => ""
    case Some(m) => if e.cls == KeyError then Values.StrRepr(m) else m
  }

  /** What the interpreter raises for `v.get(...)` when `v` is not a `dict`. */
  function NoAttributeGet(v: Values.Value): Exception {
    Exception(AttributeError, Some("'" + Values.TypeName(v) + "' object has no attribute 'get'"))
  }

  /** What the interpreter raises for `v in some_dict` when `v` is a `list` or a `dict`. */
  function Unhashable(v: Values.Value): Exception {
    Exception(TypeError, Some("unhashable type: '" + Values.TypeName(v) + "'"))
  }
}
