/** The declaration validators `check_cresult_class_def` and
    `check_result_class_def`. A concrete outcome class binds the generic
    parameters of its family (`CResult['_R', ECode, Shape]`,
    `Result['_R', Shape]`); the validator looks at that binding once, when the
    class is defined, and reports the first thing wrong with it. It never
    raises: every problem becomes a returned diagnostic. */
module Declarations {
  import opened Wrappers
  import opened PyObjects
  import opened Conformance

  /** A class handed over as a generic argument: the class object that
      `isinstance` and `is` compare, whether it is an Enum class, and for an
      Enum class its members, `list(cls)`. */
  datatype ClassRef = ClassRef(obj: ClassId, isEnum: bool, members: seq<Value>)

  /** One generic argument, as Python's typing machinery hands it over. */
  datatype TypeArg =
    | ClassArg(cls: ClassRef)   // a class: `isinstance(arg, type)`
    | ForwardRef(name: string)  // a name in quotes, such as '_R'
    | TypingForm(shape: Shape)  // a construct of the `typing` module: Union, Tuple, List, Any
    | OtherForm(shape: Shape)   // anything else: a TypeVar of another module, a literal

  /** The first entry of the class's `__orig_bases__`: either no such entry
      or one without `__args__`, or a parameterised base with its arguments. */
  datatype GenericBase = NoGenericArgs | GenericArgs(args: seq<TypeArg>)

  datatype Family = CResultFamily | ResultFamily

  /** A class handed to a validator: the class itself, the families it
      subclasses (`issubclass`) and its first generic base. */
  datatype ClassDecl = ClassDecl(cls: ClassRef, families: set<Family>, base: GenericBase)

  /** The diagnostic a validator prints; one per assertion it makes. */
  datatype DeclDiag =
    | TypeIsNone                            // "_type cannot be null"
    | NotSubclass                           // "... is not a subclass of CResult/Result"
    | NoGenericParams                       // "... does not specify generic parameters"
    | WrongArity(expected: nat, got: nat)   // "... must specify exactly N generic parameters, got M"
    | SelfRefWrongName                      // "First generic parameter ... must refer to the class name"
    | SelfRefNotSameClass                   // "First generic parameter ... must be the same as the class type"
    | CodeTypeNotEnum                       // "Second generic parameter ... must be an Enum type"
    | ShapeNotType                          // "... must be a valid type or a typing type"

  /** The number of generic parameters a family takes. */
  function Arity(f: Family): nat
  {
    match f
    case CResultFamily => 3
    case ResultFamily => 2
  }

  /** The shape `validate` sees for a generic argument. */
  function ShapeOf(a: TypeArg): Shape
  {
    match a
    case ClassArg(c) => PlainType(c.obj)
    case ForwardRef(_) => Unconstrained
    case TypingForm(s) => s
    case OtherForm(s) => s
  }

  /** The first parameter names the class: by its name when it is a forward
      reference, by identity otherwise. */
  predicate RefersTo(a: TypeArg, c: ClassRef)
  {
    if a.ForwardRef? then a.name == c.obj.name else a.ClassArg? && a.cls.obj == c.obj
  }

  predicate IsEnumClass(a: TypeArg)
  {
    a.ClassArg? && a.cls.isEnum
  }

  /** A class, or an object whose module is `typing` (a forward reference is one). */
  predicate IsTypeOrTypingForm(a: TypeArg)
  {
    a.ClassArg? || a.ForwardRef? || a.TypingForm?
  }

  /** The first three checks pass: a class of the family with a parameterised
      first base of the family's arity. */
  predicate HasFamilyArity(f: Family, t: Option<ClassDecl>)
  {
    && t.Some?
    && f in t.value.families
    && t.value.base.GenericArgs?
    && |t.value.base.args| == Arity(f)
  }

  /** The checks that follow the arity check, for a binding of the right arity. */
  predicate ArgsWellFormed(f: Family, c: ClassRef, args: seq<TypeArg>)
    requires |args| == Arity(f)
  {
    && RefersTo(args[0], c)
    && (f == CResultFamily ==> IsEnumClass(args[1]))
    && IsTypeOrTypingForm(args[Arity(f) - 1])
  }

  /** The class is declared as its family asks: every check passes. */
  predicate WellDeclared(f: Family, t: Option<ClassDecl>)
  {
    HasFamilyArity(f, t) && ArgsWellFormed(f, t.value.cls, t.value.base.args)
  }

  /** The checks both validators make, in their order; the result is the
      first failed check, or None. Each diagnostic is returned exactly when
      every check before it passes and its own check fails. */
  function CheckClassDef(f: Family, t: Option<ClassDecl>): (r: Option<DeclDiag>)
    ensures r.None? <==> WellDeclared(f, t)
    ensures r == Some(TypeIsNone) <==> t.None?
    ensures r == Some(NotSubclass) <==> t.Some? && f !in t.value.families
    ensures r == Some(NoGenericParams) <==>
      t.Some? && f in t.value.families && t.value.base.NoGenericArgs?
    ensures r.Some? && r.value.WrongArity? <==>
      && t.Some? && f in t.value.families && t.value.base.GenericArgs?
      && |t.value.base.args| != Arity(f)
    ensures r.Some? && r.value.WrongArity? ==>
      r.value.expected == Arity(f) && r.value.got == |t.value.base.args|
    ensures r == Some(SelfRefWrongName) <==>
      && HasFamilyArity(f, t)
      && t.value.base.args[0].ForwardRef? && t.value.base.args[0].name != t.value.cls.obj.name
    ensures r == Some(SelfRefNotSameClass) <==>
      && HasFamilyArity(f, t)
      && !t.value.base.args[0].ForwardRef? && !RefersTo(t.value.base.args[0], t.value.cls)
    ensures r == Some(CodeTypeNotEnum) <==>
      && HasFamilyArity(f, t) && f == CResultFamily
      && RefersTo(t.value.base.args[0], t.value.cls) && !IsEnumClass(t.value.base.args[1])
    ensures r == Some(ShapeNotType) <==>
      && HasFamilyArity(f, t)
      && RefersTo(t.value.base.args[0], t.value.cls)
      && (f == CResultFamily ==> IsEnumClass(t.value.base.args[1]))
      && !IsTypeOrTypingForm(t.value.base.args[Arity(f) - 1])
  {
    if t.None? then Some(TypeIsNone)
    else if f !in t.value.families then Some(NotSubclass)
    else if t.value.base.NoGenericArgs? then Some(NoGenericParams)
    else
      var args := t.value.base.args;
      if |args| != Arity(f) then Some(WrongArity(Arity(f), |args|))
      else if args[0].ForwardRef? && args[0].name != t.value.cls.obj.name then Some(SelfRefWrongName)
      else if !args[0].ForwardRef? && !RefersTo(args[0], t.value.cls) then Some(SelfRefNotSameClass)
      else if f == CResultFamily && !IsEnumClass(args[1]) then Some(CodeTypeNotEnum)
      else if !IsTypeOrTypingForm(args[Arity(f) - 1]) then Some(ShapeNotType)
      else None
  }

  /** `check_cresult_class_def`: a class it accepts subclasses CResult and
      binds exactly three parameters (itself, an Enum class, a value shape). */
  function CheckCResultClassDef(t: Option<ClassDecl>): (r: Option<DeclDiag>)
    ensures r.None? <==>
      && t.Some? && CResultFamily in t.value.families && t.value.base.GenericArgs?
      && |t.value.base.args| == 3
      && RefersTo(t.value.base.args[0], t.value.cls)
      && IsEnumClass(t.value.base.args[1])
      && IsTypeOrTypingForm(t.value.base.args[2])
    ensures r == Some(CodeTypeNotEnum) <==>
      && HasFamilyArity(CResultFamily, t)
      && RefersTo(t.value.base.args[0], t.value.cls)
      && !IsEnumClass(t.value.base.args[1])
  {
    CheckClassDef(CResultFamily, t)
  }

  /** `check_result_class_def`: a class it accepts subclasses Result and binds
      exactly two parameters (itself, a value shape); it never asks for an
      Enum, so it never reports `CodeTypeNotEnum`. */
  function CheckResultClassDef(t: Option<ClassDecl>): (r: Option<DeclDiag>)
    ensures r.None? <==>
      && t.Some? && ResultFamily in t.value.families && t.value.base.GenericArgs?
      && |t.value.base.args| == 2
      && RefersTo(t.value.base.args[0], t.value.cls)
      && IsTypeOrTypingForm(t.value.base.args[1])
    ensures r != Some(CodeTypeNotEnum)
  {
    CheckClassDef(ResultFamily, t)
  }
}
