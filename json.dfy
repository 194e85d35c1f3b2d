/** An abstract model of the generic JSON value (serde_json::Value) through
    which the wire protocol is encoded and decoded. Key order is irrelevant,
    so an object is a map; text-level formatting is not part of this model. */
module JsonValues {

  datatype Option<+T> = None | Some(value: T) {
    predicate IsFailure() { None? }
    function PropagateFailure<U>(): Option<U>
      requires None?
    {
      None
    }
    function Extract(): T
      requires Some?
    {
      value
    }
  }

  datatype Result<+T, +E> = Ok(value: T) | Err(error: E)

  /** A float payload (f32 or f64 on the Rust side). Floats are only carried
      through, so their exact value stands for them, without rounding. */
  type Num = real

  /** A JSON value. Integers and floats are distinct, as in serde_json:
      `1001` is a JInt and `1001.0` a JFloat. */
  datatype Json =
    | JNull
    | JBool(b: bool)
    | JInt(i: int)
    | JFloat(x: Num)
    | JStr(s: string)
    | JArr(items: seq<Json>)
    | JObj(fields: map<string, Json>)

  const I64_MIN: int := -0x8000_0000_0000_0000
  const I64_MAX: int := 0x7FFF_FFFF_FFFF_FFFF

  /** Value::get with a string key: only an object has members. */
  function Get(v: Json, key: string): (r: Option<Json>)
    ensures r.Some? <==> v.JObj? && key in v.fields
    ensures r.Some? ==> r.value == v.fields[key]
  {
    match v
    case JObj(fields) => if key in fields then Some(fields[key]) else None
    case _ => None
  }

  /** Value::as_i64: an integer that fits in 64 signed bits; every float,
      however integral its value, and every other kind of value gives None. */
  function AsI64(v: Json): (r: Option<int>)
    ensures r.Some? <==> v.JInt? && I64_MIN <= v.i <= I64_MAX
    ensures r.Some? ==> r.value == v.i
  {
    match v
    case JInt(i) => if I64_MIN <= i <= I64_MAX then Some(i) else None
    case _ => None
  }

  /** The order in which serde_json's default Map (a BTreeMap<String, Value>)
      holds and visits its keys: Rust's String order, byte-wise on the UTF-8
      encoding, which is the order of code points, a proper prefix first. */
  predicate KeyBefore(a: string, b: string)
    decreases |a|
  {
    if a == [] then b != []
    else if b == [] then false
    else if a[0] != b[0] then a[0] < b[0]
    else KeyBefore(a[1..], b[1..])
  }

  lemma {:induction false} KeyBeforeIrreflexive(a: string)
    ensures !KeyBefore(a, a)
    decreases |a|
  {
    if a != [] {
      KeyBeforeIrreflexive(a[1..]);
    }
  }

  lemma {:induction false} KeyBeforeAsymmetric(a: string, b: string)
    ensures KeyBefore(a, b) ==> !KeyBefore(b, a)
    decreases |a|
  {
    if a != [] && b != [] && a[0] == b[0] {
      KeyBeforeAsymmetric(a[1..], b[1..]);
    }
  }

  /** Any two distinct keys are ordered one way or the other. */
  lemma {:induction false} KeyBeforeTotal(a: string, b: string)
    ensures a == b || KeyBefore(a, b) || KeyBefore(b, a)
    decreases |a|
  {
    if a != [] && b != [] && a[0] == b[0] {
      KeyBeforeTotal(a[1..], b[1..]);
      if a[1..] == b[1..] {
        assert a == [a[0]] + a[1..] && b == [b[0]] + b[1..];
      }
    }
  }

  lemma {:induction false} KeyBeforeTransitive(a: string, b: string, c: string)
    requires KeyBefore(a, b) && KeyBefore(b, c)
    ensures KeyBefore(a, c)
    decreases |a|
  {
    if a != [] && a[0] == b[0] && b[0] == c[0] {
      KeyBeforeTransitive(a[1..], b[1..], c[1..]);
    }
  }

  /** "Not before" chains: if c is not before k and k not before a, then c
      is not before a. */
  lemma NotBeforeTransitive(c: string, k: string, a: string)
    requires !KeyBefore(c, k) && !KeyBefore(k, a)
    ensures !KeyBefore(c, a)
  {
    KeyBeforeTotal(k, a);
    if KeyBefore(c, a) && KeyBefore(a, k) {
      KeyBeforeTransitive(c, a, k);
    }
  }

  /** A value that serde accepts where an f32 or f64 is expected: any number,
      integer or float. */
  predicate IsNumber(v: Json) {
    v.JInt? || v.JFloat?
  }

  /** The float a number deserialises to. */
  function NumOf(v: Json): Num
    requires IsNumber(v)
  {
    match v
    case JInt(i) => i as real
    case JFloat(x) => x
  }

  /** A value with no members: the flattened wire object nests nothing. */
  predicate IsScalar(v: Json) {
    !v.JObj? && !v.JArr?
  }
}
