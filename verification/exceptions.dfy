/** The client's exception classes, together with the two Python built-in
    classes above them, as a class hierarchy: each class has one declared
    base, `issubclass` follows the method resolution order, and an
    `except C` handler catches an exception exactly when its class is a
    subclass of `C`. */
module Exceptions {
  import opened Wrappers

  datatype ErrorClass =
    | BaseException        // Python built-in root of all exceptions
    | Exception            // Python built-in, what `except Exception` catches
    | KeepinException
    | KeepinStatusError
    | InvalidAPIKeyError
    | ValidationError
    | NotFoundError
    | InternalServerError

  /** Distance from `BaseException` along declared bases. */
  function Depth(c: ErrorClass): nat {
    match c
    case BaseException => 0
    case Exception => 1
    case KeepinException => 1
    case KeepinStatusError => 2
    case ValidationError => 2
    case InvalidAPIKeyError => 3
    case NotFoundError => 3
    case InternalServerError => 3
  }

  /** The declared (single) base class; `BaseException` has none. */
  function Base(c: ErrorClass): (b: Option<ErrorClass>)
    ensures b.None? <==> c == BaseException
    ensures b.Some? ==> Depth(b.value) + 1 == Depth(c)
  {
    match c
    case BaseException => None
    case Exception => Some(BaseException)
    case KeepinException => Some(BaseException)
    case KeepinStatusError => Some(KeepinException)
    case InvalidAPIKeyError => Some(KeepinStatusError)
    case ValidationError => Some(KeepinException)
    case NotFoundError => Some(KeepinStatusError)
    case InternalServerError => Some(KeepinStatusError)
  }

  /** The method resolution order: the class, then its bases up to the root.
      Python's `object` above `BaseException` is not part of this order. */
  function Mro(c: ErrorClass): (m: seq<ErrorClass>)
    decreases Depth(c)
    ensures |m| == Depth(c) + 1
    ensures m[0] == c && m[|m| - 1] == BaseException
    ensures forall i :: 0 <= i < |m| - 1 ==> Base(m[i]) == Some(m[i + 1])
  {
    match Base(c)
    case None => [c]
    case Some(b) => [c] + Mro(b)
  }

  /** Python's `issubclass(c, d)`. */
  predicate IsSubclass(c: ErrorClass, d: ErrorClass) {
    d in Mro(c)
  }

  /** The classes this library declares. */
  predicate IsKeepinClass(c: ErrorClass) {
    c != BaseException && c != Exception
  }

  /** The classes whose instances carry `status_code` and `response`: those
      that inherit `KeepinStatusError.__init__` (see `StatusBearingClasses`). */
  predicate IsStatusBearing(c: ErrorClass) {
    c.KeepinStatusError? || c.InvalidAPIKeyError? || c.NotFoundError? || c.InternalServerError?
  }

  lemma {:induction false} SubclassDepth(c: ErrorClass, d: ErrorClass)
    requires IsSubclass(c, d)
    ensures Depth(d) <= Depth(c)
    ensures Depth(d) == Depth(c) ==> c == d
    decreases Depth(c)
  {
    if c != d {
      var b := Base(c).value;
      assert IsSubclass(b, d);
      SubclassDepth(b, d);
    }
  }

  /** `issubclass` is a partial order: transitive ... */
  lemma {:induction false} SubclassTransitive(a: ErrorClass, b: ErrorClass, c: ErrorClass)
    requires IsSubclass(a, b) && IsSubclass(b, c)
    ensures IsSubclass(a, c)
    decreases Depth(a)
  {
    if a != b {
      var p := Base(a).value;
      assert IsSubclass(p, b);
      SubclassTransitive(p, b, c);
      assert Mro(a) == [a] + Mro(p);
    }
  }

  /** ... and antisymmetric (reflexivity is immediate from `Mro`). */
  lemma SubclassAntisymmetric(a: ErrorClass, b: ErrorClass)
    requires IsSubclass(a, b) && IsSubclass(b, a)
    ensures a == b
  {
    SubclassDepth(a, b);
    SubclassDepth(b, a);
  }

  /** Every class the library declares is a `KeepinException`, and none is an
      `Exception`: a bare `except Exception` handler lets them through. */
  lemma KeepinHierarchy(c: ErrorClass)
    ensures IsKeepinClass(c) <==> IsSubclass(c, KeepinException)
    ensures IsKeepinClass(c) ==> !IsSubclass(c, Exception)
  {
  }

  /** The status-bearing classes are exactly the subclasses of
      `KeepinStatusError`; `ValidationError` is not one of them. */
  lemma StatusBearingClasses(c: ErrorClass)
    ensures IsStatusBearing(c) <==> IsSubclass(c, KeepinStatusError)
    ensures !IsSubclass(ValidationError, KeepinStatusError)
  {
  }

  /** A positional constructor argument. */
  datatype Value = Int(i: int) | Str(s: string)

  /** An exception instance: its class, its `args`, and the `status_code` and
      `response` attributes when it has them (`None` when reading the
      attribute would raise `AttributeError`). */
  datatype Exc = Exc(
    cls: ErrorClass,
    args: seq<Value>,
    statusCode: Option<Value>,
    response: Option<Value>)

  /** Why calling an exception class can itself fail. */
  datatype ConstructionError = IndexError

  /** `cls(*args)`. A status-bearing class reads `status_code` from the first
      argument and `response` from the second, so fewer than two arguments
      raise `IndexError`; any other class only records `args`. */
  function Instantiate(cls: ErrorClass, args: seq<Value>): (r: Result<Exc, ConstructionError>)
    ensures r.Failure? <==> IsStatusBearing(cls) && |args| < 2
    ensures r.Success? ==> r.value.cls == cls && r.value.args == args
    ensures r.Success? ==>
      (r.value.statusCode.Some? <==> IsStatusBearing(cls)) &&
      (r.value.response.Some? <==> IsStatusBearing(cls))
    ensures r.Success? && IsStatusBearing(cls) ==>
      r.value.statusCode == Some(args[0]) && r.value.response == Some(args[1])
  {
    if IsStatusBearing(cls) then
      if |args| < 2 then Failure(IndexError)
      else Success(Exc(cls, args, Some(args[0]), Some(args[1])))
    else
      Success(Exc(cls, args, None, None))
  }

  /** Whether an `except handler` clause catches `e`. */
  predicate Catches(handler: ErrorClass, e: Exc) {
    IsSubclass(e.cls, handler)
  }

  /** An error of any status-bearing kind, built from a status code and a body
      text, is caught both by its own class and by `KeepinStatusError`, and the
      same `status_code` is visible through either handler. */
  lemma CatchAsStatusError(cls: ErrorClass, code: int, text: string)
    requires IsStatusBearing(cls)
    ensures Instantiate(cls, [Int(code), Str(text)]).Success?
    ensures var e := Instantiate(cls, [Int(code), Str(text)]).value;
      Catches(cls, e) && Catches(KeepinStatusError, e) && Catches(KeepinException, e) &&
      e.statusCode == Some(Int(code)) && e.response == Some(Str(text))
  {
  }

  /** A `ValidationError` escapes a `KeepinStatusError` handler and has no
      `status_code`, whatever it was built from. */
  lemma ValidationEscapesStatusHandler(args: seq<Value>)
    ensures Instantiate(ValidationError, args).Success?
    ensures var e := Instantiate(ValidationError, args).value;
      !Catches(KeepinStatusError, e) && Catches(KeepinException, e) &&
      e.statusCode.None? && e.response.None?
  {
  }
}
