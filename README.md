# QResult outcome types, modelled in Dafny

`QResult.py` supplies two families of outcome values for Python code written in
a functional style:

- `CResult[Self, Code, Shape]` carries a failure code drawn from an `Enum`.
- `Result[Self, Shape]` has no code.

An outcome is built by the class methods `ok(result)` or `fail(...)`. After that
it is only read, through `isOk`, `isNotOk`, `hasEx`, the accessors, `__str__` and
`ppstr`.

- `ok` always builds a success once it can read the class's generic arguments
  (without them it raises AttributeError or IndexError). Before building it, it checks the payload
  against the value shape bound as the class's last generic argument. This
  check only prints a diagnostic; it never stops `ok`.
- `fail` runs an ordered chain of guards, any of which may raise. It then builds
  a failure that keeps the caller's code object exactly when no exception is
  wrapped.
- Two load-time validators, `check_cresult_class_def` and
  `check_result_class_def`, look at how a concrete class binds its generic
  parameters. Each prints the first problem it finds and never raises.

The Dafny modules follow that structure:

| file | module | what it holds |
|---|---|---|
| `wrappers.dfy` | `Wrappers` | `Option`, and `Attempt` (a value returned or an exception raised) |
| `py_objects.dfy` | `PyObjects` | class objects, Python values (None, atoms, tuples, lists), `isinstance` over an explicit ancestry map, `str.strip`, `str`/`repr` |
| `conformance.dfy` | `Conformance` | the value-shape descriptors, the `validate` walk, its declarative meaning and the top-level diagnostics |
| `declarations.dfy` | `Declarations` | generic-argument descriptors and the two class-definition validators |
| `outcomes.dfy` | `Outcomes` | the `CResult` and `Result` outcomes with `isOk`/`isNotOk`/`hasEx`, and the `ok`/`fail` factories |
| `formatting.dfy` | `Formatting` | `__str__` as a method that appends pieces to a buffer and joins them, `ppstr`, and what the text says |
| `address_example.dfy` | `AddressExample` | the library's own address-lookup example, as concrete instances |

Modelling choices:

- A class object is a `ClassId`: an identity and a `__name__`. `isinstance`
  and `is` compare identities, so two classes with the same name stay apart.
- Python's `None` in an object-valued field (code, result, exception) is
  `NoneValue`. A reason is an `Option<string>` and a call frame is an
  `Option<CodeLocation>`.
- An outcome's fields are written once, in the constructor, so outcomes are
  datatypes.
- `ok` and `fail` return `Attempt`: either the outcome, or the exception the
  Python code raises.
- The diagnostics the checkers print are returned as values:
  - `ok` returns its payload check's diagnostic beside the outcome (`Built`).
  - the validators return `Option<DeclDiag>`.
- The caller's code object, which `fail` reads with `sys._getframe(1)`, is a
  parameter.
- How values are rendered by `str()` in the text is a parameter
  (`render: Value -> string`) of the formatter.

## Model

| member | source | states |
|---|---|---|
| Conformance.ValidateIsConforms | QResult.py:237-287 | the walk accepts exactly the conforming values. A union conforms iff one alternative does; a tuple iff it has the declared arity and conforms position by position; a list iff every element conforms, so an empty list or a bare `List` always does; a class iff the value is an instance of it; anything else always |
| Conformance.AnyAlternativeIsSome | QResult.py:240-244 | trying the alternatives in order succeeds iff some alternative conforms |
| Conformance.PairwiseIsAll | QResult.py:257-261 | the loop over `zip(val, args)` succeeds iff every position conforms |
| Conformance.EveryIsAll | QResult.py:269-274 | the loop over the list succeeds iff every element conforms |
| Conformance.FirstMismatch | QResult.py:257-261 | the tuple position the loop stops at: all before it conform, and it does not (or it is the end) |
| Conformance.FirstNonConforming | QResult.py:270-274 | the list position the loop stops at: all before it conform, and it does not (or it is the end) |
| Conformance.TopDiagnostic | QResult.py:237-289 | no diagnostic iff the value conforms. Otherwise the diagnostic names the first failed check: no matching alternative, not a tuple, wrong arity (with the expected count), the first bad tuple element, not a list, the first bad list element, or not an instance |
| Conformance.CheckOkResult | QResult.py:233-294 | no diagnostic iff the result is not None and conforms; "result must not be None" exactly for None |
| Declarations.CheckClassDef | QResult.py:299-334 | the checks, in order, report the first that fails. Each diagnostic comes back exactly when every earlier check passes and its own fails: type present, subclass of the family, generic arguments present, arity 3 or 2 (with the count got), self-reference by forward-ref name or else by identity, an Enum code type (CResult only), and a type or typing construct last. No diagnostic iff all pass |
| Declarations.CheckCResultClassDef | QResult.py:299-334 | accepted iff a CResult subclass binds exactly three arguments: itself, an Enum class, and a type or typing construct. "must be an Enum type" exactly when the checks before it pass and the second argument is not an Enum class |
| Declarations.CheckResultClassDef | QResult.py:339-370 | accepted iff a Result subclass binds exactly two arguments: itself, and a type or typing construct. It never asks for an Enum |
| Outcomes.CResult.IsOk | QResult.py:50 | a success has no exception and no reason |
| Outcomes.CResult.IsNotOk | QResult.py:51 | a failure is exactly an outcome with an exception or a reason |
| Outcomes.Result.IsOk | QResult.py:152 | as for CResult |
| Outcomes.Result.IsNotOk | QResult.py:153 | as for CResult |
| Outcomes.OutcomeKinds | QResult.py:50-52 | in both families an outcome is ok or not ok and never both, and an outcome with an exception (`hasEx`) is a failure |
| PyObjects.Strip | QResult.py:96 | `strip()` never lengthens a string, and what it leaves neither starts nor ends with whitespace |
| PyObjects.StripTrims | QResult.py:96 | what `strip()` leaves is the slice of the string between a blank prefix and a blank suffix; with Strip's own contract, that slice is the only possible result |
| PyObjects.StripEmptyIffBlank | QResult.py:96 | `str(reason).strip() == ""` holds exactly when the reason is empty or all whitespace |
| Outcomes.CodeGuard | QResult.py:88-93 | without generic arguments, no check. Otherwise a code that passes is an instance of the bound Enum class (by identity, not by name) and one of its members. A non-instance gives a TypeError, and an instance that is not a member gives a ValueError; with fewer than two arguments it is an IndexError. The TypeError for a non-instance comes back exactly when the second argument is a class and the code is not its instance. When the second argument is not an Enum class, every call raises a TypeError |
| Outcomes.ReasonExGuard | QResult.py:95-103 | without an exception, the reason must be present and not whitespace-only (the body tests `strip() == ""`). With one, a given reason must not be whitespace-only and the exception must be an `Exception`. Neither reason nor exception is always refused. The blank-reason errors are ValueErrors, the non-exception one a TypeError |
| Outcomes.FrameFor | QResult.py:95-98 | a failure keeps the caller's frame exactly when no exception is wrapped |
| Outcomes.CResultOk | QResult.py:76-81 | returns iff the class has at least three generic arguments; without arguments it raises AttributeError, with fewer than three IndexError (index 2). The success holds the payload and no code, reason, exception or frame, whether or not the payload conforms. The diagnostic is empty iff the payload is not None and conforms to the third argument |
| Outcomes.CResultFail | QResult.py:83-105 | the code guard runs before the reason/exception guards, and the first error is raised. A returned failure is not ok, has no payload, keeps the given code, reason and exception, and keeps the caller's frame iff there is no exception. Neither reason nor exception always raises |
| Outcomes.ResultOk | QResult.py:173-178 | as CResultOk, with the shape the second generic argument (IndexError at index 1 with fewer than two) |
| Outcomes.ResultFail | QResult.py:180-196 | only the reason/exception guards. A returned failure keeps the given reason and exception, and the caller's frame iff there is no exception |
| Outcomes.WellDeclaredCResultIsUsable | QResult.py:76-105 | for a class the CResult validator accepts, `ok` always returns, and `fail` raises only for the caller's own mistakes (code, reason, exception) |
| Outcomes.WellDeclaredResultIsUsable | QResult.py:173-178 | for a class the Result validator accepts, `ok` always returns |
| Outcomes.NonEnumCodeTypeMakesFailRaise | QResult.py:88-93 | when the bound code type is not an Enum class, every `CResult.fail` raises a TypeError, while `ok` still returns when a third argument is bound |
| Formatting.CResultStr | QResult.py:117-135 | the buffer built piece by piece joins to the text: an optional tag, one body, an optional reason note, an optional caller note |
| Formatting.CResultPpStr | QResult.py:114-115 | `ppstr` is `__str__` with the caller note included |
| Formatting.CResultBodyWord | QResult.py:122-127 | a success body starts "OK ", a failure with an exception "ERR ", any other failure "FAIL " |
| Formatting.CResultTypePrefix | QResult.py:119-120 | the text starts with `<` iff the type tag is asked for, and the tagged text is the tag followed by the untagged text |
| Formatting.CResultBodyKind | QResult.py:122-127 | exactly one body is written. The text starts "OK " iff the outcome is ok, "ERR " iff it failed with an exception, and "FAIL " iff it failed without one |
| Formatting.CResultReasonNote | QResult.py:129-130 | after the tag and body, the reason note appears iff the reason is present and non-empty, and it holds the reason verbatim |
| Formatting.CResultCallerNote | QResult.py:132-133 | the caller note is the last piece and appears iff there is a call frame; without the caller note, the text does not depend on the call frame |
| Formatting.ResultStr | QResult.py:208-226 | as CResultStr, with the Result wording |
| Formatting.ResultPpStr | QResult.py:205-206 | `ppstr` is `__str__` with the caller note included |
| Formatting.ResultBodyWord | QResult.py:213-218 | a success body starts "OK ", a failure with an exception "ERR ", any other failure is "FAIL" |
| Formatting.ResultTypePrefix | QResult.py:210-211 | as CResultTypePrefix |
| Formatting.ResultBodyKind | QResult.py:213-218 | as CResultBodyKind, with the bare failure's body being "FAIL" |
| Formatting.ResultReasonNote | QResult.py:220-221 | as CResultReasonNote, with the reason in backquotes |
| Formatting.ResultCallerNote | QResult.py:223-224 | as CResultCallerNote |
| AddressExample.ExampleClassesAreWellDeclared | QResult.py:387-415 | the example `CResult` class binding `('_R', ECode, Tuple[str, int, List[Decimal]])` passes its validator, and so does the `Result` one |
| AddressExample.PayloadConforms | QResult.py:407 | for every address, the payload `(address, 2, [Decimal(345), Decimal(567)])` conforms, so `ok` reports nothing in either family |
| AddressExample.MistypedPayloadsAreReported | QResult.py:257-261 | a payload with the text "2" in place of the number is still accepted, and is reported at tuple position 1; a pair is reported as not having 3 elements |
| AddressExample.TimeoutFailure | QResult.py:397 | the timeout failure passes every guard, keeps no frame, and reads "ERR code: ECode.TIMEOUT, ex: timed out" without the type tag or the caller |
| AddressExample.InvalidFailure | QResult.py:401 | the invalid-data failure passes every guard and keeps its caller's frame |
| AddressExample.InvalidText | QResult.py:401 | the invalid-data failure reads "FAIL code: ECode.INVALID reason: invalid data" without the type tag or the caller |
| AddressExample.InvalidFailureFromTwoCallers | QResult.py:474-479 | the lookup routine and the test build the invalid-data failure with different frames, and their texts without the caller agree |
| AddressExample.ResultSuccessText | QResult.py:442 | the `Result` example's success reads "OK result: `...`" around the payload's `str` |
| AddressExample.FailGuards | QResult.py:88-103 | on the example class, a plain int code gives a TypeError. Neither reason nor exception gives a ValueError, as does a blank reason beside an exception; a non-exception `ex` gives a TypeError |
| AddressExample.SameNamedEnumIsRejected | QResult.py:90-91 | a member of another Enum class also named `ECode` prints the same as the bound class's member, yet `fail` rejects it as not an instance |

## Left out

- The caller's code object is a parameter. `sys._getframe(1).f_code` is not modelled; only the file, routine name and first line are kept, which is all the text shows.
- The printed diagnostics of `ok` and of the validators are returned as values. The wording of the messages and the printed tracebacks are not modelled.
- Python's generic introspection (`__orig_bases__`, `__args__`, `get_origin`, `get_args`, `ForwardRef`, `__module__` of typing objects) is replaced by the descriptor datatypes `GenericBase`, `TypeArg` and `Shape`.
- `isinstance` works over an explicit ancestry map rather than real classes. Tuples and lists are always of the built-in classes: a value of a subclass of `tuple` or `list` (a namedtuple, say) can only be an atom in the model, so the walk reports it as not a tuple or not a list, where Python (QResult.py:247, 264) goes on to check its length and elements. `Any`, bare `TypeVar`s and unknown typing objects count as unconstrained shapes. This matches the code's comment and Python up to 3.10; from 3.11 `Any` is a class and `isinstance(v, Any)` raises, which the model does not follow.
- `Tuple[X, ...]` (variadic tuples) is modelled like any fixed-arity tuple. The code compares the lengths, so it is rejected as written unless the lengths happen to match.
- `ResultBase` deriving from `Exception` (so that an outcome can be raised), and `__enter__`/`__exit__`, which do nothing, are not modelled.
- The read-only accessors (`code`, `result`, `reason`, `ex`, `call_frame`) are the datatype's fields.
- `str()` of payloads, codes and exceptions in the text is the `render` parameter. `PyObjects.Str` is one such rendering; it is used by the example, and the model proves nothing about `repr` of nested containers.
- A `reason` is a string in the model. The code applies `str()` to a non-string reason before stripping it, and the model does not cover that case.
- The demo and driver code (`CResultExample`, `ResultExample`, `main`, `test_*`, `example_*`) appears only as the concrete instances in `AddressExample`. The lookup routine itself is not modelled.
- The Enum code prints as `ECode.TIMEOUT`, which is what Python's `str()` gives for an Enum member.
- The `None` check of `ok` and the validators' checks are `assert` statements (QResult.py:235, 301-325, 341-361), which `python -O` removes. The model follows a normal run with assertions on. Under `-O`, `ok(None)` prints nothing for an unconstrained shape, and the validators skip those checks.
