/** JavaScript values as the controller sees them: attribute values, configuration
    fields, call-time parameters and decoded JSON replies, with the few operators
    the controller applies to them (`||`, `??`, truthiness, property access). */
module Values {

  datatype Option<+T> = None | Some(value: T)

  datatype Result<+T, +E> = Ok(value: T) | Err(error: E)

  /** A JSON-like JavaScript value. Numbers are kept as reals; NaN and -0 are not modelled. */
  datatype Value =
    | Undefined
    | Null
    | Bool(b: bool)
    | Num(n: real)
    | Str(s: string)
    | List(items: seq<Value>)
    | Obj(fields: map<string, Value>)

  /** JavaScript truthiness. */
  predicate Truthy(v: Value) {
    match v
    case Undefined => false
    case Null => false
    case Bool(b) => b
    case Num(n) => n != 0.0
    case Str(s) => s != ""
    case List(_) => true
    case Obj(_) => true
  }

  predicate Nullish(v: Value) {
    v.Undefined? || v.Null?
  }

  /** The expression `a || b`. */
  function Or(a: Value, b: Value): Value {
    if Truthy(a) then a else b
  }

  /** The expression `a ?? b`. */
  function Coalesce(a: Value, b: Value): Value {
    if Nullish(a) then b else a
  }

  /** A falsy left operand of `||` is indistinguishable from an absent one: `0 || x` is `x`. */
  lemma FalsyNeverOverrides(a: Value, b: Value)
    requires !Truthy(a)
    ensures Or(a, b) == Or(Undefined, b) == b
  {
  }

  /** The host's `getAttribute`, which the controller calls but does not define: a key that
      was never written reads as `undefined`. */
  function Get(attrs: map<string, Value>, key: string): Value {
    if key in attrs then attrs[key] else Undefined
  }

  /** The negation of the change test `value != newValue && JSON.stringify(value) !=
      JSON.stringify(newValue)`, on structural equality plus the loose equality of
      `null` and `undefined`. */
  predicate Unchanged(stored: Value, incoming: Value) {
    stored == incoming || (Nullish(stored) && Nullish(incoming))
  }

  lemma UnchangedReflexiveSymmetric(a: Value, b: Value)
    ensures Unchanged(a, a)
    ensures Unchanged(a, b) <==> Unchanged(b, a)
  {
  }

  /** A stored value that is unchanged with respect to a non-nullish value is that value. */
  lemma UnchangedDefinite(stored: Value, incoming: Value)
    requires Unchanged(stored, incoming) && !Nullish(incoming)
    ensures stored == incoming
  {
  }

  /** The sentinel attribute value meaning "leave this attribute alone". */
  const IGNORED: string := "@@IGNORED@@"

  predicate Ignored(v: Value) {
    v == Str(IGNORED)
  }

  predicate IsUpper(c: char) {
    'A' <= c <= 'Z'
  }

  function LowerChar(c: char): char {
    if IsUpper(c) then (c as int + 32) as char else c
  }

  /** `String.prototype.toLowerCase`, restricted to the ASCII letters. */
  function Lower(s: string): (r: string)
    ensures |r| == |s|
    ensures forall i :: 0 <= i < |r| ==> !IsUpper(r[i])
    ensures forall i :: 0 <= i < |s| && !IsUpper(s[i]) ==> r[i] == s[i]
    ensures forall i :: 0 <= i < |s| && IsUpper(s[i]) ==> r[i] as int == s[i] as int + 32
  {
    if s == [] then [] else [LowerChar(s[0])] + Lower(s[1..])
  }

  lemma {:induction false} LowerIdempotent(s: string)
    ensures Lower(Lower(s)) == Lower(s)
  {
    var r := Lower(s);
    var rr := Lower(r);
    assert |rr| == |r|;
    forall i | 0 <= i < |r| ensures rr[i] == r[i] {
      assert !IsUpper(r[i]);
    }
  }

  /** A lower-cased string is never the sentinel, whose letters are upper case. */
  lemma LowerNeverIgnored(s: string)
    ensures !Ignored(Str(Lower(s)))
  {
    var r := Lower(s);
    assert IsUpper(IGNORED[2]);
    assert |r| > 2 ==> !IsUpper(r[2]);
  }

  lemma LowerOpenAI()
    ensures Lower("OpenAI") == "openai"
    ensures Lower("Azure") == "azure"
  {
    var r := Lower("OpenAI");
    assert r[0] == 'o' && r[1] == 'p' && r[2] == 'e' && r[3] == 'n' && r[4] == 'a' && r[5] == 'i';
    var q := Lower("Azure");
    assert q[0] == 'a' && q[1] == 'z' && q[2] == 'u' && q[3] == 'r' && q[4] == 'e';
  }

  /** The property access `v.key`; `None` is the TypeError thrown on `null` or `undefined`. */
  function Member(v: Value, key: string): (r: Option<Value>)
    ensures r.None? <==> Nullish(v)
    ensures v.Obj? && key in v.fields ==> r == Some(v.fields[key])
  {
    match v
    case Undefined => None
    case Null => None
    case Obj(f) => Some(if key in f then f[key] else Undefined)
    case _ => Some(Undefined)
  }

  /** The element access `v[0]`; `None` is the TypeError thrown on `null` or `undefined`. */
  function First(v: Value): (r: Option<Value>)
    ensures r.None? <==> Nullish(v)
    ensures v.List? && |v.items| > 0 ==> r == Some(v.items[0])
    ensures v.List? && |v.items| == 0 ==> r == Some(Undefined)
  {
    match v
    case Undefined => None
    case Null => None
    case List(items) => Some(if |items| > 0 then items[0] else Undefined)
    case Str(s) => Some(if |s| > 0 then Str([s[0]]) else Undefined)
    case Obj(f) => Some(if "0" in f then f["0"] else Undefined)
    case _ => Some(Undefined)
  }
}
