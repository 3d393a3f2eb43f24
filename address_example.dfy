/** The address-lookup example that ships with the library, used as concrete
    instances of the general model: an `ECode` Enum, a `CResult` class and a
    `Result` class both bound to the shape `Tuple[str, int, List[Decimal]]`,
    and the outcomes its lookup routine and its tests build. */
module AddressExample {
  import opened Wrappers
  import opened PyObjects
  import opened Conformance
  import opened Declarations
  import opened Outcomes
  import opened Formatting

  /** The classes the example uses. */
  const ObjectClass := ClassId(10, "object")
  const StrClass := ClassId(11, "str")
  const IntClass := ClassId(12, "int")
  const DecimalClass := ClassId(13, "Decimal")
  const EnumClass := ClassId(14, "Enum")
  const BaseExceptionClass := ClassId(15, "BaseException")
  const OSErrorClass := ClassId(16, "OSError")
  const TimeoutErrorClass := ClassId(17, "TimeoutError")
  const ECodeClass := ClassId(20, "ECode")
  /** Another Enum class that happens to be called `ECode` too. */
  const OtherECodeClass := ClassId(21, "ECode")

  /** A member of `ECode`, with `str()` `ECode.NAME` and `repr()` `<ECode.NAME: n>`. */
  function Member(name: string, number: string): Value
  {
    Atom(ECodeClass, "ECode." + name, "<ECode." + name + ": " + number + ">")
  }

  function Timeout(): Value { Member("TIMEOUT", "2") }
  function Invalid(): Value { Member("INVALID", "1") }
  function Unknown(): Value { Member("UNKNOWN", "3") }

  /** The `ECode` Enum class and its five members. */
  function ECode(): ClassRef
  {
    ClassRef(ECodeClass, true, [Member("OK", "0"), Invalid(), Timeout(), Unknown(), Member("CORE_ERROR", "99")])
  }

  /** `Tuple[str, int, List[Decimal]]`. */
  function AddressShape(): Shape
  {
    TupleOf([PlainType(StrClass), PlainType(IntClass), ListOf(Some(PlainType(DecimalClass)))])
  }

  /** `CResult['_R', ECode, Tuple[str, int, List[Decimal]]]`. */
  function CBase(): GenericBase
  {
    GenericArgs([ForwardRef("_R"), ClassArg(ECode()), TypingForm(AddressShape())])
  }

  /** `Result['_R', Tuple[str, int, List[Decimal]]]`. */
  function RBase(): GenericBase
  {
    GenericArgs([ForwardRef("_R"), TypingForm(AddressShape())])
  }

  function CDecl(): ClassDecl
  {
    ClassDecl(ClassRef(ClassId(30, "_R"), false, []), {CResultFamily}, CBase())
  }

  function RDecl(): ClassDecl
  {
    ClassDecl(ClassRef(ClassId(31, "_R"), false, []), {ResultFamily}, RBase())
  }

  /** The ancestors of the classes the example uses. */
  function Ancestry(): Mro
  {
    map[
      TimeoutErrorClass := {OSErrorClass, ExceptionType, BaseExceptionClass, ObjectClass},
      ECodeClass := {EnumClass, ObjectClass},
      OtherECodeClass := {EnumClass, ObjectClass},
      StrClass := {ObjectClass},
      IntClass := {ObjectClass},
      DecimalClass := {ObjectClass}
    ]
  }

  function Text(s: string): Value { Atom(StrClass, s, "'" + s + "'") }
  function Number(digits: string): Value { Atom(IntClass, digits, digits) }
  function Decimal(digits: string): Value { Atom(DecimalClass, digits, "Decimal('" + digits + "')") }

  /** `(input, 2, [Decimal(345), Decimal(567)])`, the success payload. */
  function Payload(input: string): Value
  {
    TupleValue([Text(input), Number("2"), ListValue([Decimal("345"), Decimal("567")])])
  }

  /** `TimeoutError("timed out")`. */
  function TimedOut(): Value
  {
    Atom(TimeoutErrorClass, "timed out", "TimeoutError('timed out')")
  }

  /** Both example classes pass their load-time validation. */
  lemma ExampleClassesAreWellDeclared()
    ensures CheckCResultClassDef(Some(CDecl())) == None
    ensures CheckResultClassDef(Some(RDecl())) == None
  {
  }

  /** Whatever the address, the success payload conforms to the declared
      shape, so `ok` prints nothing for it in either family. */
  lemma PayloadConforms(input: string)
    ensures CResultOk(CBase(), Payload(input), Ancestry()).Returned?
    ensures CResultOk(CBase(), Payload(input), Ancestry()).value.diagnostic == None
    ensures ResultOk(RBase(), Payload(input), Ancestry()).Returned?
    ensures ResultOk(RBase(), Payload(input), Ancestry()).value.diagnostic == None
  {
  }

  /** A payload whose number is the text "2" is still accepted by `ok`, which
      reports the second tuple element; a pair is reported by its arity. */
  lemma MistypedPayloadsAreReported(input: string)
    ensures var bad := TupleValue([Text(input), Text("2"), ListValue([])]);
      && CResultOk(CBase(), bad, Ancestry()).Returned?
      && CResultOk(CBase(), bad, Ancestry()).value.outcome.IsOk()
      && CResultOk(CBase(), bad, Ancestry()).value.diagnostic == Some(TupleElement(1))
    ensures var pair := TupleValue([Text(input), Number("2")]);
      ResultOk(RBase(), pair, Ancestry()).value.diagnostic == Some(TupleArity(3))
  {
  }

  /** The outcome `fail(ECode.TIMEOUT, ex=TimeoutError("timed out"))` builds. */
  function TimeoutOutcome(): CResult
  {
    CResult(Timeout(), NoneValue, None, TimedOut(), None)
  }

  /** The outcome `fail(ECode.INVALID, reason="invalid data")` builds for a caller. */
  function InvalidOutcome(caller: CodeLocation): CResult
  {
    CResult(Invalid(), NoneValue, Some("invalid data"), NoneValue, Some(caller))
  }

  lemma TimeoutBody()
    ensures CResultBody(TimeoutOutcome(), Str) == "ERR code: ECode.TIMEOUT, ex: timed out"
  {
  }

  lemma InvalidBody(caller: CodeLocation)
    ensures CResultBody(InvalidOutcome(caller), Str) == "FAIL code: ECode.INVALID"
  {
  }

  lemma NotBlank(s: string)
    requires |s| > 0 && s[0] in "abcdefghijklmnopqrstuvwxyz"
    ensures !IsBlank(s)
  {
  }

  /** The timeout outcome of the `CResult` example: the code is checked and
      kept, no call frame is kept whoever the caller, and its text is the ERR
      form. */
  lemma TimeoutFailure(caller: CodeLocation)
    ensures CResultFail(CBase(), Ancestry(), Timeout(), None, TimedOut(), caller) == Returned(TimeoutOutcome())
    ensures TimeoutOutcome().IsNotOk() && TimeoutOutcome().HasEx()
    ensures CResultText(TimeoutOutcome(), Str, "_R", false, false) == "ERR code: ECode.TIMEOUT, ex: timed out"
  {
    var o := TimeoutOutcome();
    assert CResultPieces(o, Str, "_R", false, false) == [CResultBody(o, Str)];
    TimeoutBody();
    JoinOne(CResultBody(o, Str));
  }

  /** `fail(ECode.INVALID, reason="invalid data")` passes every guard and
      keeps its caller's frame. */
  lemma InvalidFailure(caller: CodeLocation)
    ensures CResultFail(CBase(), Ancestry(), Invalid(), Some("invalid data"), NoneValue, caller) == Returned(InvalidOutcome(caller))
  {
    NotBlank("invalid data");
  }

  /** Without the caller, the invalid-data outcome reads as a FAIL with its reason. */
  lemma InvalidText(caller: CodeLocation)
    ensures CResultText(InvalidOutcome(caller), Str, "_R", false, false) == "FAIL code: ECode.INVALID reason: invalid data"
  {
    var a := InvalidOutcome(caller);
    var body := CResultBody(a, Str);
    var note := CResultReason("invalid data");
    InvalidBody(caller);
    assert CResultPieces(a, Str, "_R", false, false) == [body, note] by {
      assert ShowsReason(a.reason);
    }
    JoinTwo(body, note);
  }

  /** The invalid-data outcome of the `CResult` example, built by two different
      callers (the lookup routine and the test): the two keep different call
      frames, yet their texts without the caller agree, which is what the
      tests compare. */
  lemma InvalidFailureFromTwoCallers(lookup: CodeLocation, test: CodeLocation)
    ensures var a := CResultFail(CBase(), Ancestry(), Invalid(), Some("invalid data"), NoneValue, lookup);
      var b := CResultFail(CBase(), Ancestry(), Invalid(), Some("invalid data"), NoneValue, test);
      && a.Returned? && b.Returned?
      && a.value.callFrame == Some(lookup) && b.value.callFrame == Some(test)
      && CResultText(a.value, Str, "_R", false, false) == CResultText(b.value, Str, "_R", false, false)
  {
    InvalidFailure(lookup);
    InvalidFailure(test);
    InvalidText(lookup);
    InvalidText(test);
  }

  /** The success outcome of the `Result` example and its text. */
  lemma ResultSuccessText()
    ensures ResultOk(RBase(), Payload("123 Main St"), Ancestry()).Returned?
    ensures ResultText(ResultOk(RBase(), Payload("123 Main St"), Ancestry()).value.outcome, Str, "_R", false, false) ==
      "OK result: `" + Str(Payload("123 Main St")) + "`"
  {
    var o := Result(Payload("123 Main St"), None, NoneValue, None);
    assert ResultOk(RBase(), Payload("123 Main St"), Ancestry()).value.outcome == o;
    var body := ResultBody(o, Str);
    assert body == "OK result: `" + Str(Payload("123 Main St")) + "`";
    assert ResultPieces(o, Str, "_R", false, false) == [body];
    JoinOne(body);
  }

  /** The guards of `CResult.fail` on the example class: a plain number is not
      an `ECode`, and a failure needs a reason or an exception. */
  lemma FailGuards(caller: CodeLocation)
    ensures CResultFail(CBase(), Ancestry(), Number("2"), Some("x"), NoneValue, caller) == Raised(CodeTypeMismatch)
    ensures CResultFail(CBase(), Ancestry(), Unknown(), None, NoneValue, caller) == Raised(BlankReasonWithoutEx)
    ensures CResultFail(CBase(), Ancestry(), Timeout(), Some(" "), TimedOut(), caller) == Raised(BlankReason)
    ensures ResultFail(Ancestry(), Some("unknown data"), Text("boom"), caller) == Raised(ExNotException)
  {
    assert IsBlank(" ");
    NotBlank("unknown data");
  }

  /** A member of a different Enum class that is also named `ECode` prints
      the same, yet it is not an instance of the bound class: `fail` raises
      a TypeError for it. */
  lemma SameNamedEnumIsRejected(caller: CodeLocation)
    ensures var foreign := Atom(OtherECodeClass, "ECode.TIMEOUT", "<ECode.TIMEOUT: 2>");
      && foreign != Timeout()
      && Str(foreign) == Str(Timeout())
      && CResultFail(CBase(), Ancestry(), foreign, Some("x"), NoneValue, caller) == Raised(CodeTypeMismatch)
  {
  }
}
