/** The conformance checker run by `ok`: a success payload is matched against
    the value shape declared as the outcome class's last generic argument.
    `Validate` follows the nested `validate(val, typ, asrt=False)` walk;
    `TopDiagnostic` is the top-level call (`asrt=True`), which names the first
    check that failed; `CheckOkResult` adds the "result must not be None" rule.
    Nothing here can stop `ok`: every outcome is a value, never an exception. */
module Conformance {
  import opened Wrappers
  import opened PyObjects

  /** A value-shape descriptor, as `get_origin`/`get_args` decompose it. */
  datatype Shape =
    | UnionOf(alts: seq<Shape>)     // Union[...], Optional[...]
    | TupleOf(elems: seq<Shape>)    // Tuple[a, b, ...]: a fixed arity
    | ListOf(elem: Option<Shape>)   // List[a]; None for a bare List
    | PlainType(cls: ClassId)       // a class
    | Unconstrained                 // Any, a forward reference, a TypeVar, anything else

  /** What it means for a value to conform to a shape. */
  ghost predicate Conforms(v: Value, s: Shape, mro: Mro)
    decreases s
  {
    match s
    case UnionOf(alts) => exists i :: 0 <= i < |alts| && Conforms(v, alts[i], mro)
    case TupleOf(elems) =>
      && v.TupleValue?
      && |v.items| == |elems|
      && forall i :: 0 <= i < |elems| ==> Conforms(v.items[i], elems[i], mro)
    case ListOf(elem) =>
      && v.ListValue?
      && (elem.None? || forall i :: 0 <= i < |v.items| ==> Conforms(v.items[i], elem.value, mro))
    case PlainType(t) => IsInstance(v, t, mro)
    case Unconstrained => true
  }

  /** `validate(val, typ, asrt=False)`: alternatives, tuple positions and list
      elements are tried in order and the walk stops at the first answer. */
  function Validate(v: Value, s: Shape, mro: Mro): bool
    decreases s, 0
  {
    match s
    case UnionOf(alts) => AnyAlternative(v, alts, mro)
    case TupleOf(elems) => v.TupleValue? && |v.items| == |elems| && Pairwise(v.items, elems, mro)
    case ListOf(elem) => v.ListValue? && (elem.None? || Every(v.items, elem.value, mro))
    case PlainType(t) => IsInstance(v, t, mro)
    case Unconstrained => true
  }

  /** `any(validate(val, t) for t in args)`. */
  function AnyAlternative(v: Value, alts: seq<Shape>, mro: Mro): bool
    decreases alts
  {
    |alts| > 0 && (Validate(v, alts[0], mro) || AnyAlternative(v, alts[1..], mro))
  }

  /** The loop over `zip(val, args)`. */
  function Pairwise(vs: seq<Value>, ts: seq<Shape>, mro: Mro): bool
    requires |vs| == |ts|
    decreases ts
  {
    |ts| == 0 || (Validate(vs[0], ts[0], mro) && Pairwise(vs[1..], ts[1..], mro))
  }

  /** The loop over the elements of a list. */
  function Every(vs: seq<Value>, t: Shape, mro: Mro): bool
    decreases t, 1, vs
  {
    |vs| == 0 || (Validate(vs[0], t, mro) && Every(vs[1..], t, mro))
  }

  /** The walk decides conformance exactly: a union conforms iff one of its
      alternatives does, a tuple iff it has the declared arity and conforms
      position by position, a list iff every element conforms (so the empty
      list and a list with no element shape always do), a class iff the value
      is an instance of it, and any other descriptor always. */
  lemma {:induction false} ValidateIsConforms(v: Value, s: Shape, mro: Mro)
    ensures Validate(v, s, mro) <==> Conforms(v, s, mro)
    decreases s, 0
  {
    match s
    case UnionOf(alts) => AnyAlternativeIsSome(v, alts, mro);
    case TupleOf(elems) =>
      if v.TupleValue? && |v.items| == |elems| {
        PairwiseIsAll(v.items, elems, mro);
      }
    case ListOf(elem) =>
      if v.ListValue? && elem.Some? {
        EveryIsAll(v.items, elem.value, mro);
      }
    case PlainType(_) =>
    case Unconstrained =>
  }

  lemma {:induction false} AnyAlternativeIsSome(v: Value, alts: seq<Shape>, mro: Mro)
    ensures AnyAlternative(v, alts, mro) <==> exists i :: 0 <= i < |alts| && Conforms(v, alts[i], mro)
    decreases alts
  {
    if |alts| > 0 {
      ValidateIsConforms(v, alts[0], mro);
      AnyAlternativeIsSome(v, alts[1..], mro);
      assert forall i :: 1 <= i < |alts| ==> alts[i] == alts[1..][i - 1];
    }
  }

  lemma {:induction false} PairwiseIsAll(vs: seq<Value>, ts: seq<Shape>, mro: Mro)
    requires |vs| == |ts|
    ensures Pairwise(vs, ts, mro) <==> forall i :: 0 <= i < |ts| ==> Conforms(vs[i], ts[i], mro)
    decreases ts
  {
    if |ts| > 0 {
      ValidateIsConforms(vs[0], ts[0], mro);
      PairwiseIsAll(vs[1..], ts[1..], mro);
      assert forall i :: 1 <= i < |ts| ==> vs[i] == vs[1..][i - 1] && ts[i] == ts[1..][i - 1];
    }
  }

  lemma {:induction false} EveryIsAll(vs: seq<Value>, t: Shape, mro: Mro)
    ensures Every(vs, t, mro) <==> forall i :: 0 <= i < |vs| ==> Conforms(vs[i], t, mro)
    decreases t, 1, vs
  {
    if |vs| > 0 {
      ValidateIsConforms(vs[0], t, mro);
      EveryIsAll(vs[1..], t, mro);
      assert forall i :: 1 <= i < |vs| ==> vs[i] == vs[1..][i - 1];
    }
  }

  /** The message the top-level `validate` raises (and `ok` prints). */
  datatype OkDiag =
    | ResultIsNone                          // "result must not be None"
    | NoAlternative                         // "value ... must match one of ..."
    | NotATuple                             // "value ... must be a tuple"
    | TupleArity(expected: nat)             // "tuple must have N elements"
    | TupleElement(index: nat)              // "tuple element ... must match ..."
    | NotAList                              // "value ... must be a list"
    | ListElement(index: nat)               // "list element ... must match ..."
    | NotAnInstance                         // "value ... type ... does not match expected ..."

  /** The position of the first pair that does not conform, or `|vs|`. */
  function FirstMismatch(vs: seq<Value>, ts: seq<Shape>, mro: Mro): (k: nat)
    requires |vs| == |ts|
    ensures k <= |ts|
    ensures forall j :: 0 <= j < k ==> Conforms(vs[j], ts[j], mro)
    ensures k < |ts| ==> !Conforms(vs[k], ts[k], mro)
    decreases ts
  {
    if |ts| == 0 then 0
    else
      ValidateIsConforms(vs[0], ts[0], mro);
      if !Validate(vs[0], ts[0], mro) then 0
      else
        var k := FirstMismatch(vs[1..], ts[1..], mro);
        assert forall j :: 1 <= j < k + 1 ==> vs[j] == vs[1..][j - 1] && ts[j] == ts[1..][j - 1];
        k + 1
  }

  /** The position of the first element that does not conform, or `|vs|`. */
  function FirstNonConforming(vs: seq<Value>, t: Shape, mro: Mro): (k: nat)
    ensures k <= |vs|
    ensures forall j :: 0 <= j < k ==> Conforms(vs[j], t, mro)
    ensures k < |vs| ==> !Conforms(vs[k], t, mro)
    decreases vs
  {
    if |vs| == 0 then 0
    else
      ValidateIsConforms(vs[0], t, mro);
      if !Validate(vs[0], t, mro) then 0
      else
        var k := FirstNonConforming(vs[1..], t, mro);
        assert forall j :: 1 <= j < k + 1 ==> vs[j] == vs[1..][j - 1];
        k + 1
  }

  /** `validate(val, typ)` at the top level: None when the value conforms,
      otherwise the first failed check, in the order the code makes them. */
  function TopDiagnostic(v: Value, s: Shape, mro: Mro): (r: Option<OkDiag>)
    ensures r.None? <==> Conforms(v, s, mro)
    ensures r == Some(NoAlternative) <==> s.UnionOf? && !Conforms(v, s, mro)
    ensures r == Some(NotATuple) <==> s.TupleOf? && !v.TupleValue?
    ensures r == Some(NotAList) <==> s.ListOf? && !v.ListValue?
    ensures r == Some(NotAnInstance) <==> s.PlainType? && !IsInstance(v, s.cls, mro)
    ensures r.Some? && r.value.TupleArity? ==>
      && s.TupleOf? && v.TupleValue?
      && r.value.expected == |s.elems| && |v.items| != |s.elems|
    ensures r.Some? && r.value.TupleElement? ==>
      && s.TupleOf? && v.TupleValue? && |v.items| == |s.elems|
      && r.value.index < |s.elems|
      && !Conforms(v.items[r.value.index], s.elems[r.value.index], mro)
      && forall j :: 0 <= j < r.value.index ==> Conforms(v.items[j], s.elems[j], mro)
    ensures r.Some? && r.value.ListElement? ==>
      && s.ListOf? && s.elem.Some? && v.ListValue?
      && r.value.index < |v.items|
      && !Conforms(v.items[r.value.index], s.elem.value, mro)
      && forall j :: 0 <= j < r.value.index ==> Conforms(v.items[j], s.elem.value, mro)
    ensures r != Some(ResultIsNone)
  {
    match s
    case UnionOf(alts) =>
      AnyAlternativeIsSome(v, alts, mro);
      if AnyAlternative(v, alts, mro) then None else Some(NoAlternative)
    case TupleOf(elems) =>
      if !v.TupleValue? then Some(NotATuple)
      else if |v.items| != |elems| then Some(TupleArity(|elems|))
      else
        var k := FirstMismatch(v.items, elems, mro);
        if k < |elems| then Some(TupleElement(k)) else None
    case ListOf(elem) =>
      if !v.ListValue? then Some(NotAList)
      else if elem.None? then None
      else
        var k := FirstNonConforming(v.items, elem.value, mro);
        if k < |v.items| then Some(ListElement(k)) else None
    case PlainType(t) => if IsInstance(v, t, mro) then None else Some(NotAnInstance)
    case Unconstrained => None
  }

  /** `__check_ok_result__`: the diagnostic `ok` prints for its argument, if
      any. `None` is refused first; otherwise the value is walked. */
  function CheckOkResult(result: Value, s: Shape, mro: Mro): (r: Option<OkDiag>)
    ensures r.None? <==> !result.NoneValue? && Conforms(result, s, mro)
    ensures r == Some(ResultIsNone) <==> result.NoneValue?
  {
    if result.NoneValue? then Some(ResultIsNone) else TopDiagnostic(result, s, mro)
  }
}
