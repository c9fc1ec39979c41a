/**
 * Python values held in the loosely typed dictionaries of the system
 * (contexts, metadata, serialised records), and the few Python operations
 * the core applies to them: truthiness, `==`, `isinstance(v, (str, int,
 * float, bool))` and `str(v)`.
 */
module Values {
  import opened Wrappers
  import opened Dicts
  import Text

  datatype Value =
    | VNone
    | VBool(b: bool)
    | VInt(i: int)
    | VReal(r: real)
    | VStr(s: string)
    | VList(items: seq<Value>)
    | VDict(entries: Dict<string, Value>)

  /** A Python dictionary with string keys and arbitrary values. */
  type Ctx = Dict<string, Value>

  /** `isinstance(v, (str, int, float, bool))`. */
  predicate IsScalar(v: Value)
  {
    v.VBool? || v.VInt? || v.VReal? || v.VStr?
  }

  /** The numeric value of a Python bool, int or float. */
  function NumOf(v: Value): Option<real>
  {
    match v
    case VBool(b) => Some(if b then 1.0 else 0.0)
    case VInt(i) => Some(i as real)
    case VReal(r) => Some(r)
    case _ => None
  }

  /** Python's `a == b`: numbers compare by value across bool, int and float. */
  predicate PyEq(a: Value, b: Value)
  {
    if NumOf(a).Some? && NumOf(b).Some? then NumOf(a).value == NumOf(b).value else a == b
  }

  /** Python's `bool(v)`. */
  predicate Truthy(v: Value)
  {
    match v
    case VNone => false
    case VBool(b) => b
    case VInt(i) => i != 0
    case VReal(r) => r != 0.0
    case VStr(s) => |s| > 0
    case VList(items) => |items| > 0
    case VDict(entries) => |entries| > 0
  }

  /**
   * Python's `str(v)` on a scalar. Float rendering (shortest round-trip
   * digits) is outside the model and is supplied as `realText`.
   */
  function ScalarText(v: Value, realText: real -> string): string
    requires IsScalar(v)
  {
    match v
    case VBool(b) => if b then "True" else "False"
    case VInt(i) => Text.IntText(i)
    case VReal(r) => realText(r)
    case VStr(s) => s
  }

  /** A value used where a float is expected. */
  function AsReal(v: Value): (r: Result<real>)
    ensures r.Ok? <==> NumOf(v).Some?
  {
    match NumOf(v)
    case Some(x) => Ok(x)
    case None => Err("TypeError: a number is required")
  }

  function AsStr(v: Value): (r: Result<string>)
    ensures r.Ok? <==> v.VStr?
  {
    if v.VStr? then Ok(v.s) else Err("TypeError: a string is required")
  }

  function AsBool(v: Value): (r: Result<bool>)
    ensures r.Ok? <==> v.VBool?
  {
    if v.VBool? then Ok(v.b) else Err("TypeError: a bool is required")
  }

  function AsDict(v: Value): (r: Result<Ctx>)
    ensures r.Ok? <==> v.VDict?
  {
    if v.VDict? then Ok(v.entries) else Err("TypeError: a dict is required")
  }

  /** `data[k]` on a dictionary: a missing key raises `KeyError`. */
  function Field(d: Ctx, k: string): Result<Value>
  {
    match Get(d, k)
    case Some(v) => Ok(v)
    case None => Err("KeyError: " + k)
  }

  /** `data[k]` where a string is expected. */
  function StrField(d: Ctx, k: string): Result<string>
  {
    var v :- Field(d, k);
    AsStr(v)
  }

  /** `data[k]` where a number is expected. */
  function RealField(d: Ctx, k: string): Result<real>
  {
    var v :- Field(d, k);
    AsReal(v)
  }

  lemma StrFieldOf(d: Ctx, k: string, s: string)
    requires Get(d, k) == Some(VStr(s))
    ensures StrField(d, k) == Ok(s)
  {
  }

  lemma RealFieldOf(d: Ctx, k: string, x: real)
    requires Get(d, k) == Some(VReal(x))
    ensures RealField(d, k) == Ok(x)
  {
    assert AsReal(VReal(x)) == Ok(x);
  }

  /** `data.get(k, default)`. */
  function FieldOr(d: Ctx, k: string, default: Value): Value
  {
    match Get(d, k)
    case Some(v) => v
    case None => default
  }

  /** The entries of a context whose value is a str, int, float or bool, in order. */
  function ScalarsOnly(c: Ctx): (r: Ctx)
    ensures forall i :: 0 <= i < |r| ==> IsScalar(r[i].1) && r[i] in c
    ensures forall i :: 0 <= i < |c| && IsScalar(c[i].1) ==> c[i] in r
  {
    if |c| == 0 then []
    else if IsScalar(c[0].1) then [c[0]] + ScalarsOnly(c[1..])
    else ScalarsOnly(c[1..])
  }

  /** A list of strings as a Python list value. */
  function StrList(ss: seq<string>): (v: Value)
    ensures v.VList? && |v.items| == |ss|
  {
    VList(seq(|ss|, i requires 0 <= i < |ss| => VStr(ss[i])))
  }

  function FromStrList(v: Value): Result<seq<string>>
  {
    if v.VList? && forall i :: 0 <= i < |v.items| ==> v.items[i].VStr? then
      Ok(seq(|v.items|, i requires 0 <= i < |v.items| => v.items[i].s))
    else Err("TypeError: a list of strings is required")
  }

  lemma StrListRoundTrip(ss: seq<string>)
    ensures FromStrList(StrList(ss)) == Ok(ss)
  {
    var items := StrList(ss).items;
    assert seq(|items|, i requires 0 <= i < |items| => items[i].s) == ss;
  }

  /** A dictionary of floats as a Python dict value. */
  function RealDict(d: Dict<string, real>): (v: Value)
    ensures v.VDict? && |v.entries| == |d|
  {
    VDict(seq(|d|, i requires 0 <= i < |d| => (d[i].0, VReal(d[i].1))))
  }

  function FromRealDict(v: Value): Result<Dict<string, real>>
  {
    if v.VDict? && forall i :: 0 <= i < |v.entries| ==> NumOf(v.entries[i].1).Some? then
      Ok(seq(|v.entries|, i requires 0 <= i < |v.entries| => (v.entries[i].0, NumOf(v.entries[i].1).value)))
    else Err("TypeError: a dict of numbers is required")
  }

  lemma RealDictRoundTrip(d: Dict<string, real>)
    ensures FromRealDict(RealDict(d)) == Ok(d)
  {
    var es := RealDict(d).entries;
    assert seq(|es|, i requires 0 <= i < |es| => (es[i].0, NumOf(es[i].1).value)) == d;
  }

  /** A dictionary of strings as a Python dict value. */
  function StrDict(d: Dict<string, string>): (v: Value)
    ensures v.VDict? && |v.entries| == |d|
  {
    VDict(seq(|d|, i requires 0 <= i < |d| => (d[i].0, VStr(d[i].1))))
  }

  function FromStrDict(v: Value): Result<Dict<string, string>>
  {
    if v.VDict? && forall i :: 0 <= i < |v.entries| ==> v.entries[i].1.VStr? then
      Ok(seq(|v.entries|, i requires 0 <= i < |v.entries| => (v.entries[i].0, v.entries[i].1.s)))
    else Err("TypeError: a dict of strings is required")
  }

  lemma StrDictRoundTrip(d: Dict<string, string>)
    ensures FromStrDict(StrDict(d)) == Ok(d)
  {
    var es := StrDict(d).entries;
    assert seq(|es|, i requires 0 <= i < |es| => (es[i].0, es[i].1.s)) == d;
  }
}
