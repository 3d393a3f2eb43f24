/** The Python objects the outcome library handles: payloads, failure codes and
    wrapped exceptions, the `isinstance` relation, and the `str`/`repr`
    renderings that the diagnostic strings embed. */
module PyObjects {

  /** A class object. `id` stands for its identity (`is`) and `name` is its
      `__name__`; two different classes may share a name. */
  datatype ClassId = ClassId(id: nat, name: string)

  const NoneType := ClassId(0, "NoneType")
  const TupleType := ClassId(1, "tuple")
  const ListType := ClassId(2, "list")
  const ExceptionType := ClassId(3, "Exception")

  /** A Python object. `NoneValue` is Python's `None`; an `Atom` is an instance
      of any other class (str, int, Decimal, an Enum member, an exception),
      carrying its class and its `str()` and `repr()` texts. */
  datatype Value =
    | NoneValue
    | Atom(cls: ClassId, text: string, repr: string)
    | TupleValue(items: seq<Value>)
    | ListValue(items: seq<Value>)

  /** The class hierarchy: for each class, its proper ancestors (its method
      resolution order without the class itself). */
  type Mro = map<ClassId, set<ClassId>>

  function ClassOf(v: Value): ClassId
  {
    match v
    case NoneValue => NoneType
    case Atom(cls, _, _) => cls
    case TupleValue(_) => TupleType
    case ListValue(_) => ListType
  }

  /** Python's `isinstance(v, t)` for a class `t`. */
  predicate IsInstance(v: Value, t: ClassId, mro: Mro)
  {
    var c := ClassOf(v);
    c == t || (c in mro && t in mro[c])
  }

  /** The characters Python's `str.strip()` removes by default. */
  predicate IsSpace(c: char)
  {
    || '\t' <= c <= '\r'
    || '\U{1c}' <= c <= '\U{1f}'
    || c == ' ' || c == '\U{85}' || c == '\U{a0}' || c == '\U{1680}'
    || '\U{2000}' <= c <= '\U{200a}'
    || c == '\U{2028}' || c == '\U{2029}' || c == '\U{202f}' || c == '\U{205f}' || c == '\U{3000}'
  }

  /** The string is empty or whitespace only. */
  predicate IsBlank(s: string)
  {
    forall i :: 0 <= i < |s| ==> IsSpace(s[i])
  }

  /** `s.strip()`: whitespace removed from both ends, the rest kept in place. */
  function Strip(s: string): (r: string)
    ensures |r| <= |s|
    ensures r != "" ==> !IsSpace(r[0]) && !IsSpace(r[|r| - 1])
    decreases |s|
  {
    if |s| > 0 && IsSpace(s[0]) then Strip(s[1..])
    else if |s| > 0 && IsSpace(s[|s| - 1]) then Strip(s[..|s| - 1])
    else s
  }

  /** `r` is a slice of `s` between a blank prefix and a blank suffix. */
  ghost predicate IsTrimmed(s: string, r: string)
  {
    exists i, j :: 0 <= i <= j <= |s| && r == s[i..j] && IsBlank(s[..i]) && IsBlank(s[j..])
  }

  /** `strip()` removes only whitespace, and only at the ends: its result is
      the slice of `s` between a blank prefix and a blank suffix. With
      `Strip`'s own contract (the result neither starts nor ends with
      whitespace) this leaves no other choice of slice. */
  lemma StripTrims(s: string)
    ensures IsTrimmed(s, Strip(s))
  {
    var i, j := StripBounds(s);
  }

  /** Where `strip()` cuts `s`. */
  lemma {:induction false} StripBounds(s: string) returns (i: nat, j: nat)
    ensures i <= j <= |s| && Strip(s) == s[i..j] && IsBlank(s[..i]) && IsBlank(s[j..])
    decreases |s|
  {
    if |s| > 0 && IsSpace(s[0]) {
      var i', j' := StripBounds(s[1..]);
      i, j := i' + 1, j' + 1;
      SlicesOfTail(s, i', j');
      BlankCons(s[0], s[1..][..i']);
    } else if |s| > 0 && IsSpace(s[|s| - 1]) {
      i, j := StripBounds(s[..|s| - 1]);
      SlicesOfInit(s, i, j);
      BlankSnoc(s[..|s| - 1][j..], s[|s| - 1]);
    } else {
      i, j := 0, |s|;
      assert s == s[0..|s|] && IsBlank(s[..0]) && IsBlank(s[|s|..]);
    }
  }

  /** The slices of `s[1..]` as slices of `s`. */
  lemma SlicesOfTail(s: string, i: nat, j: nat)
    requires i <= j <= |s| - 1
    ensures s[1..][i..j] == s[i + 1..j + 1]
    ensures s[1..][j..] == s[j + 1..]
    ensures s[..i + 1] == [s[0]] + s[1..][..i]
  {
  }

  /** The slices of `s[..|s| - 1]` as slices of `s`. */
  lemma SlicesOfInit(s: string, i: nat, j: nat)
    requires i <= j <= |s| - 1
    ensures s[..|s| - 1][i..j] == s[i..j]
    ensures s[..|s| - 1][..i] == s[..i]
    ensures s[j..] == s[..|s| - 1][j..] + [s[|s| - 1]]
  {
  }

  lemma BlankCons(c: char, t: string)
    requires IsSpace(c) && IsBlank(t)
    ensures IsBlank([c] + t)
  {
    var u := [c] + t;
    forall k | 0 < k < |u|
      ensures IsSpace(u[k])
    {
      assert u[k] == t[k - 1];
    }
  }

  lemma BlankSnoc(t: string, c: char)
    requires IsBlank(t) && IsSpace(c)
    ensures IsBlank(t + [c])
  {
  }

  /** `s.strip() == ""` holds exactly for the blank strings. */
  lemma {:induction false} StripEmptyIffBlank(s: string)
    ensures Strip(s) == "" <==> IsBlank(s)
    decreases |s|
  {
    if |s| > 0 && IsSpace(s[0]) {
      StripEmptyIffBlank(s[1..]);
      assert forall i :: 1 <= i < |s| ==> s[i] == s[1..][i - 1];
    } else if |s| > 0 && IsSpace(s[|s| - 1]) {
      StripEmptyIffBlank(s[..|s| - 1]);
      assert forall i :: 0 <= i < |s| - 1 ==> s[i] == s[..|s| - 1][i];
    } else if |s| > 0 {
      assert !IsSpace(s[0]);
    }
  }

  /** `str(v)`. Containers render their elements with `repr`. */
  function Str(v: Value): string
  {
    match v
    case Atom(_, text, _) => text
    case _ => Repr(v)
  }

  /** `repr(v)`; a one-element tuple keeps its trailing comma. */
  function Repr(v: Value): string
  {
    match v
    case NoneValue => "None"
    case Atom(_, _, repr) => repr
    case TupleValue(items) => "(" + ReprList(items) + (if |items| == 1 then "," else "") + ")"
    case ListValue(items) => "[" + ReprList(items) + "]"
  }

  /** The `repr` of each element, separated by ", ". */
  function ReprList(vs: seq<Value>): string
  {
    if |vs| == 0 then ""
    else if |vs| == 1 then Repr(vs[0])
    else Repr(vs[0]) + ", " + ReprList(vs[1..])
  }

  /** `str(n)` for a natural number: its decimal digits. */
  function NatToString(n: nat): string
  {
    if n < 10 then [DigitChar(n)] else NatToString(n / 10) + [DigitChar(n % 10)]
  }

  function DigitChar(d: nat): char
    requires d < 10
  {
    "0123456789"[d]
  }
}
