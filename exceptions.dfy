/**
 * The exceptions that reach the polling loop: the four classes the bot
 * declares for itself and the built-in ones the validation code raises. The
 * class hierarchy decides which `except` clause of the loop catches an error.
 */
module Exceptions {
  import opened Wrappers
  import opened JsonValue

  /** The classes involved; `Exception` is the root of everything here. */
  datatype ExcClass =
    | ExceptionClass
    | WrongResponseCodeClass
    | NotForSendClass
    | EmptyResponseFromAPIClass
    | TelegramErrorClass
    | TypeErrorClass
    | LookupErrorClass
    | KeyErrorClass
    | ValueErrorClass
    | AttributeErrorClass

  /** How far a class sits below `Exception`. */
  function Depth(c: ExcClass): nat {
    match c
    case ExceptionClass => 0
    case EmptyResponseFromAPIClass | TelegramErrorClass | KeyErrorClass => 2
    case _ => 1
  }

  /** The base class each class is declared with; the hierarchy has no cycle. */
  function Base(c: ExcClass): (r: Option<ExcClass>)
    ensures r.None? <==> c == ExceptionClass
    ensures r.Some? ==> Depth(r.value) < Depth(c)
  {
    match c
    case ExceptionClass => None
    case EmptyResponseFromAPIClass => Some(NotForSendClass)
    case TelegramErrorClass => Some(NotForSendClass)
    case KeyErrorClass => Some(LookupErrorClass)
    case _ => Some(ExceptionClass)
  }

  /** `issubclass(c, d)`: `d` is `c` or one of its bases, transitively. */
  predicate IsSubclass(c: ExcClass, d: ExcClass)
    decreases Depth(c)
  {
    c == d || (Base(c).Some? && IsSubclass(Base(c).value, d))
  }

  /**
   * A raised error, with the arguments it was constructed with. A
   * `WrongResponseCode` made from a transport fault also carries `repr()` of
   * the wrapped request exception.
   */
  datatype ErrKind =
    | WrongResponseCode(message: string, cause: Option<string>)
    | NotForSend(message: string)
    | EmptyResponseFromAPI(message: string)
    | TelegramError(message: string)
    | TypeError(message: string)
    | KeyError(key: string)
    | ValueError(message: string)
    | AttributeError(message: string)

  function ClassOf(e: ErrKind): ExcClass {
    match e
    case WrongResponseCode(_, _) => WrongResponseCodeClass
    case NotForSend(_) => NotForSendClass
    case EmptyResponseFromAPI(_) => EmptyResponseFromAPIClass
    case TelegramError(_) => TelegramErrorClass
    case TypeError(_) => TypeErrorClass
    case KeyError(_) => KeyErrorClass
    case ValueError(_) => ValueErrorClass
    case AttributeError(_) => AttributeErrorClass
  }

  /**
   * `str(error)`: the single argument itself, `repr()` of the key for a
   * `KeyError`, and the tuple of both arguments for a two-argument
   * `WrongResponseCode`.
   */
  function Text(e: ErrKind): string {
    match e
    case WrongResponseCode(message, cause) =>
      if cause.Some? then "(" + StrRepr(message) + ", " + cause.value + ")" else message
    case KeyError(key) => StrRepr(key)
    case NotForSend(message) => message
    case EmptyResponseFromAPI(message) => message
    case TelegramError(message) => message
    case TypeError(message) => message
    case ValueError(message) => message
    case AttributeError(message) => message
  }

  /**
   * `str(error)` gives back what the error was raised with: the text of a
   * one-argument error, the `repr()` of a `KeyError`'s key, which reads back
   * as the key, and for two arguments the `repr()` of the pair, whose first
   * element reads back as the message.
   */
  lemma TextGivesArguments(e: ErrKind)
    ensures !e.WrongResponseCode? && !e.KeyError? ==> Text(e) == e.message
    ensures e.WrongResponseCode? && e.cause.None? ==> Text(e) == e.message
    ensures e.KeyError? ==> Unquote(Text(e)) == Some(e.key)
    ensures e.WrongResponseCode? && e.cause.Some? ==>
              var t := Text(e);
              t[..1] == "(" && Unquote(t[1..|StrRepr(e.message)| + 1]) == Some(e.message)
              && t[|StrRepr(e.message)| + 1..] == ", " + e.cause.value + ")"
  {
    match e
    case KeyError(key) => StrReprRoundTrip(key);
    case WrongResponseCode(message, cause) =>
      StrReprRoundTrip(message);
      if cause.Some? {
        var t := Text(e);
        assert t[1..|StrRepr(message)| + 1] == StrRepr(message);
      }
    case _ =>
  }

  /** Whether `except NotForSend` catches the error. */
  predicate IsNotForSend(e: ErrKind) {
    IsSubclass(ClassOf(e), NotForSendClass)
  }

  /** The not-for-send family is exactly `NotForSend` and its two subclasses. */
  lemma {:induction false} NotForSendFamily(e: ErrKind)
    ensures IsNotForSend(e) <==> e.NotForSend? || e.EmptyResponseFromAPI? || e.TelegramError?
  {
    match e
    case EmptyResponseFromAPI(_) =>
      assert Base(EmptyResponseFromAPIClass) == Some(NotForSendClass);
    case TelegramError(_) =>
      assert Base(TelegramErrorClass) == Some(NotForSendClass);
    case KeyError(_) =>
      assert Base(KeyErrorClass) == Some(LookupErrorClass);
      assert !IsSubclass(LookupErrorClass, NotForSendClass) by {
        assert Base(LookupErrorClass) == Some(ExceptionClass);
      }
    case _ =>
      assert Base(ClassOf(e)) == Some(ExceptionClass);
  }

  /** The `except` clause of the loop that takes an error, tried in order. */
  datatype Handler = QuietHandler | NotifyingHandler | NoHandler

  /**
   * `except NotForSend` first, then `except Exception`. Every error of the
   * model is an `Exception`, so none falls through, and the quiet clause takes
   * exactly the not-for-send family.
   */
  function HandlerFor(e: ErrKind): (h: Handler)
    ensures h != NoHandler
    ensures h == QuietHandler <==> e.NotForSend? || e.EmptyResponseFromAPI? || e.TelegramError?
  {
    NotForSendFamily(e);
    assert IsSubclass(ClassOf(e), ExceptionClass) by {
      var c := ClassOf(e);
      if Depth(c) == 2 {
        assert Base(Base(c).value).value == ExceptionClass;
      }
    }
    if IsSubclass(ClassOf(e), NotForSendClass) then QuietHandler
    else if IsSubclass(ClassOf(e), ExceptionClass) then NotifyingHandler
    else NoHandler
  }
}
