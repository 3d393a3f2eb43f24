/** The two outcome families and their factories. A `CResult` carries a
    failure code drawn from the Enum bound to its class; a `Result` has no
    code. Both hold an optional payload, reason, wrapped exception and call
    frame, written once by `ok` or `fail` and only read afterwards. `ok`
    always builds a success (a non-conforming payload only yields a printed
    diagnostic); `fail` runs an ordered chain of guards, each of which may
    raise, before it builds a failure. */
module Outcomes {
  import opened Wrappers
  import opened PyObjects
  import opened Conformance
  import opened Declarations

  /** The caller's code object as `fail` captures it (`sys._getframe(1).f_code`),
      reduced to the file, routine name and first line the formatter prints.
      The caller passes it in. */
  datatype CodeLocation = CodeLocation(file: string, routine: string, firstLine: nat)

  /** A three-parameter outcome. Python's `None` is `NoneValue` for the
      object-valued fields. */
  datatype CResult = CResult(
    code: Value,
    result: Value,
    reason: Option<string>,
    ex: Value,
    callFrame: Option<CodeLocation>)
  {
    /** `isOk()`: a success wraps no exception and has no reason. */
    predicate IsOk()
      ensures IsOk() ==> !HasEx() && reason.None?
    {
      ex.NoneValue? && reason.None?
    }

    /** `isNotOk()`: a failure has an exception or a reason. */
    predicate IsNotOk()
      ensures IsNotOk() <==> HasEx() || reason.Some?
    {
      !IsOk()
    }

    predicate HasEx() { !ex.NoneValue? }
  }

  /** A two-parameter outcome. */
  datatype Result = Result(
    result: Value,
    reason: Option<string>,
    ex: Value,
    callFrame: Option<CodeLocation>)
  {
    /** `isOk()`: a success wraps no exception and has no reason. */
    predicate IsOk()
      ensures IsOk() ==> !HasEx() && reason.None?
    {
      ex.NoneValue? && reason.None?
    }

    /** `isNotOk()`: a failure has an exception or a reason. */
    predicate IsNotOk()
      ensures IsNotOk() <==> HasEx() || reason.Some?
    {
      !IsOk()
    }

    predicate HasEx() { !ex.NoneValue? }
  }

  /** Every outcome is of exactly one kind: a success, a failure with an
      exception, or a failure without one. */
  lemma OutcomeKinds(c: CResult, r: Result)
    ensures c.IsOk() != c.IsNotOk() && (c.HasEx() ==> c.IsNotOk())
    ensures r.IsOk() != r.IsNotOk() && (r.HasEx() ==> r.IsNotOk())
  {
  }

  /** What a factory raises. */
  datatype FactoryError =
    | CodeTypeMismatch          // "code type ... does not match expected ..."
    | CodeNotMember             // "code ... is not a valid member of ..."
    | CodeTypeUnusable          // isinstance() or list() refuses a bound code type that is not an Enum class
    | BlankReasonWithoutEx      // "reason must not be blank if ex is not provided"
    | BlankReason               // "reason must not be blank if provided"
    | ExNotException            // "ex must be an Exception ..."
    | MissingGenericArgs        // the first generic base has no `__args__`
    | ArgIndexOutOfRange(index: nat)  // `__args__[index]` does not exist

  /** The Python exception class of each error. */
  function ExceptionClass(e: FactoryError): string
  {
    match e
    case CodeNotMember | BlankReasonWithoutEx | BlankReason => "ValueError"
    case CodeTypeMismatch | CodeTypeUnusable | ExNotException => "TypeError"
    case MissingGenericArgs => "AttributeError"
    case ArgIndexOutOfRange(_) => "IndexError"
  }

  /** A success built by `ok`, with the diagnostic the conformance check
      printed while building it (None when it printed nothing). */
  datatype Built<T> = Built(outcome: T, diagnostic: Option<OkDiag>)

  /** The code guard of `CResult.fail`, run only when the class's first generic
      base has arguments: the code must be an instance of the bound code type,
      and then one of its members. */
  function CodeGuard(base: GenericBase, code: Value, mro: Mro): (r: Option<FactoryError>)
    ensures base.NoGenericArgs? ==> r.None?
    ensures r.None? && base.GenericArgs? ==>
      && |base.args| >= 2 && IsEnumClass(base.args[1])
      && IsInstance(code, base.args[1].cls.obj, mro)
      && code in base.args[1].cls.members
    ensures r == Some(CodeTypeMismatch) <==>
      && base.GenericArgs? && |base.args| >= 2 && base.args[1].ClassArg?
      && !IsInstance(code, base.args[1].cls.obj, mro)
    ensures r == Some(CodeNotMember) <==>
      && base.GenericArgs? && |base.args| >= 2 && IsEnumClass(base.args[1])
      && IsInstance(code, base.args[1].cls.obj, mro)
      && code !in base.args[1].cls.members
    ensures base.GenericArgs? && |base.args| >= 2 && IsEnumClass(base.args[1]) ==>
      r.None? || r == Some(CodeTypeMismatch) || r == Some(CodeNotMember)
    ensures base.GenericArgs? && |base.args| >= 2 && !IsEnumClass(base.args[1]) ==>
      r == Some(CodeTypeMismatch) || r == Some(CodeTypeUnusable)
    ensures base.GenericArgs? && |base.args| < 2 ==> r == Some(ArgIndexOutOfRange(1))
    ensures r.Some? && base.GenericArgs? && |base.args| >= 2 ==>
      ExceptionClass(r.value) == (if r.value == CodeNotMember then "ValueError" else "TypeError")
  {
    if base.NoGenericArgs? then None
    else if |base.args| < 2 then Some(ArgIndexOutOfRange(1))
    else
      var t := base.args[1];
      if !t.ClassArg? then Some(CodeTypeUnusable)
      else if !IsInstance(code, t.cls.obj, mro) then Some(CodeTypeMismatch)
      else if !t.cls.isEnum then Some(CodeTypeUnusable)
      else if code !in t.cls.members then Some(CodeNotMember)
      else None
  }

  /** The reason/exception guards both `fail`s share. Without an exception the
      reason must be present and not blank; with one, a reason given must not
      be blank and the exception must be an `Exception`. */
  function ReasonExGuard(reason: Option<string>, ex: Value, mro: Mro): (r: Option<FactoryError>)
    ensures ex.NoneValue? ==>
      (r.None? <==> reason.Some? && !IsBlank(reason.value)) && (r.Some? ==> r.value == BlankReasonWithoutEx)
    ensures !ex.NoneValue? && reason.Some? && IsBlank(reason.value) ==> r == Some(BlankReason)
    ensures !ex.NoneValue? && (reason.None? || !IsBlank(reason.value)) ==>
      (r.None? <==> IsInstance(ex, ExceptionType, mro)) && (r.Some? ==> r.value == ExNotException)
    ensures reason.None? && ex.NoneValue? ==> r.Some?
    ensures r.Some? ==> ExceptionClass(r.value) == (if r.value == ExNotException then "TypeError" else "ValueError")
  {
    StripEmptyIffBlank(if reason.Some? then reason.value else "");
    var blank := reason.Some? && Strip(reason.value) == "";
    if ex.NoneValue? then
      if reason.None? || blank then Some(BlankReasonWithoutEx) else None
    else if blank then Some(BlankReason)
    else if !IsInstance(ex, ExceptionType, mro) then Some(ExNotException)
    else None
  }

  /** The call frame a failure keeps: the caller's, exactly when no exception
      is wrapped. */
  function FrameFor(ex: Value, caller: CodeLocation): (f: Option<CodeLocation>)
    ensures f.Some? <==> ex.NoneValue?
    ensures f.Some? ==> f.value == caller
  {
    if ex.NoneValue? then Some(caller) else None
  }

  /** `CResult.ok(result)`: reads the value shape (the third generic argument),
      runs the conformance check for its diagnostic only, and builds a
      success holding `result` and nothing else, whether or not it conforms. */
  function CResultOk(base: GenericBase, result: Value, mro: Mro): (r: Attempt<Built<CResult>, FactoryError>)
    ensures r.Returned? <==> base.GenericArgs? && |base.args| >= 3
    ensures base.NoGenericArgs? ==> r == Raised(MissingGenericArgs)
    ensures base.GenericArgs? && |base.args| < 3 ==> r == Raised(ArgIndexOutOfRange(2))
    ensures r.Returned? ==>
      var o := r.value.outcome;
      && o.IsOk() && o.result == result
      && o.code.NoneValue? && o.reason.None? && o.ex.NoneValue? && o.callFrame.None?
    ensures r.Returned? ==>
      (r.value.diagnostic.None? <==> !result.NoneValue? && Conforms(result, ShapeOf(base.args[2]), mro))
  {
    if base.NoGenericArgs? then Raised(MissingGenericArgs)
    else if |base.args| < 3 then Raised(ArgIndexOutOfRange(2))
    else
      var diagnostic := CheckOkResult(result, ShapeOf(base.args[2]), mro);
      Returned(Built(CResult(NoneValue, result, None, NoneValue, None), diagnostic))
  }

  /** `CResult.fail(code, reason, ex)`: the code guard first, then the
      reason/exception guards; a failure that passes them all keeps the given
      code, reason and exception, and the caller's frame iff no exception. */
  function CResultFail(base: GenericBase, mro: Mro, code: Value, reason: Option<string>, ex: Value,
                       caller: CodeLocation): (r: Attempt<CResult, FactoryError>)
    ensures CodeGuard(base, code, mro).Some? ==> r == Raised(CodeGuard(base, code, mro).value)
    ensures CodeGuard(base, code, mro).None? && ReasonExGuard(reason, ex, mro).Some? ==>
      r == Raised(ReasonExGuard(reason, ex, mro).value)
    ensures r.Returned? <==> CodeGuard(base, code, mro).None? && ReasonExGuard(reason, ex, mro).None?
    ensures reason.None? && ex.NoneValue? ==> r.Raised?
    ensures r.Returned? ==>
      var o := r.value;
      && o.IsNotOk() && o.result.NoneValue?
      && o.code == code && o.reason == reason && o.ex == ex
      && (o.callFrame.Some? <==> ex.NoneValue?)
      && (o.callFrame.Some? ==> o.callFrame.value == caller)
      && (o.reason.Some? ==> !IsBlank(o.reason.value))
      && (o.HasEx() ==> IsInstance(o.ex, ExceptionType, mro))
  {
    var codeError := CodeGuard(base, code, mro);
    if codeError.Some? then Raised(codeError.value)
    else
      var error := ReasonExGuard(reason, ex, mro);
      if error.Some? then Raised(error.value)
      else Returned(CResult(code, NoneValue, reason, ex, FrameFor(ex, caller)))
  }

  /** `Result.ok(result)`: as `CResult.ok`, with the value shape the second
      generic argument. */
  function ResultOk(base: GenericBase, result: Value, mro: Mro): (r: Attempt<Built<Result>, FactoryError>)
    ensures r.Returned? <==> base.GenericArgs? && |base.args| >= 2
    ensures base.NoGenericArgs? ==> r == Raised(MissingGenericArgs)
    ensures base.GenericArgs? && |base.args| < 2 ==> r == Raised(ArgIndexOutOfRange(1))
    ensures r.Returned? ==>
      var o := r.value.outcome;
      && o.IsOk() && o.result == result
      && o.reason.None? && o.ex.NoneValue? && o.callFrame.None?
    ensures r.Returned? ==>
      (r.value.diagnostic.None? <==> !result.NoneValue? && Conforms(result, ShapeOf(base.args[1]), mro))
  {
    if base.NoGenericArgs? then Raised(MissingGenericArgs)
    else if |base.args| < 2 then Raised(ArgIndexOutOfRange(1))
    else
      var diagnostic := CheckOkResult(result, ShapeOf(base.args[1]), mro);
      Returned(Built(Result(result, None, NoneValue, None), diagnostic))
  }

  /** `Result.fail(reason, ex)`: only the reason/exception guards; the class's
      generic binding is not consulted. */
  function ResultFail(mro: Mro, reason: Option<string>, ex: Value, caller: CodeLocation): (r: Attempt<Result, FactoryError>)
    ensures r.Returned? <==> ReasonExGuard(reason, ex, mro).None?
    ensures r.Raised? ==> r.error == ReasonExGuard(reason, ex, mro).value
    ensures reason.None? && ex.NoneValue? ==> r.Raised?
    ensures r.Returned? ==>
      var o := r.value;
      && o.IsNotOk() && o.result.NoneValue?
      && o.reason == reason && o.ex == ex
      && (o.callFrame.Some? <==> ex.NoneValue?)
      && (o.callFrame.Some? ==> o.callFrame.value == caller)
      && (o.reason.Some? ==> !IsBlank(o.reason.value))
      && (o.HasEx() ==> IsInstance(o.ex, ExceptionType, mro))
  {
    var error := ReasonExGuard(reason, ex, mro);
    if error.Some? then Raised(error.value)
    else Returned(Result(NoneValue, reason, ex, FrameFor(ex, caller)))
  }

  /** A class that `check_cresult_class_def` accepts is usable: `ok` always
      returns, and `fail` raises only for the caller's own mistakes (a wrong
      code, a missing or blank reason, a non-exception), never because of the
      binding. */
  lemma WellDeclaredCResultIsUsable(t: ClassDecl, mro: Mro, result: Value, code: Value,
                                    reason: Option<string>, ex: Value, caller: CodeLocation)
    requires CheckCResultClassDef(Some(t)) == None
    ensures CResultOk(t.base, result, mro).Returned?
    ensures CResultFail(t.base, mro, code, reason, ex, caller).Raised? ==>
      CResultFail(t.base, mro, code, reason, ex, caller).error in
        {CodeTypeMismatch, CodeNotMember, BlankReasonWithoutEx, BlankReason, ExNotException}
  {
  }

  /** A class that `check_result_class_def` accepts is usable: `ok` always
      returns. */
  lemma WellDeclaredResultIsUsable(t: ClassDecl, mro: Mro, result: Value)
    requires CheckResultClassDef(Some(t)) == None
    ensures ResultOk(t.base, result, mro).Returned?
  {
  }

  /** When the second generic argument of a CResult class is not an Enum
      class (the validator's `CodeTypeNotEnum`), every call of `fail` raises a
      TypeError, whatever its arguments, while `ok` still works when a third
      argument is bound. */
  lemma NonEnumCodeTypeMakesFailRaise(base: GenericBase, mro: Mro, code: Value, result: Value,
                                      reason: Option<string>, ex: Value, caller: CodeLocation)
    requires base.GenericArgs? && |base.args| >= 2 && !IsEnumClass(base.args[1])
    ensures CResultFail(base, mro, code, reason, ex, caller).Raised?
    ensures CResultFail(base, mro, code, reason, ex, caller).error in {CodeTypeMismatch, CodeTypeUnusable}
    ensures ExceptionClass(CResultFail(base, mro, code, reason, ex, caller).error) == "TypeError"
    ensures |base.args| >= 3 ==> CResultOk(base, result, mro).Returned?
  {
  }
}
