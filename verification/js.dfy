/** The slice of JavaScript value semantics the Wrike strategy relies on:
    plain data values as produced by `JSON.parse`, truthiness, `||`, property
    reads, `v[0]`, and property assignment on an insertion-ordered object. */
module Js {
  import opened Wrappers

  /** A JavaScript data value. Objects keep their own properties in insertion
      order, which for keys that are not array indices is the order
      `Object.keys` and `JSON.stringify` report. */
  datatype Value =
    | Undefined
    | Null
    | Bool(b: bool)
    | Number(n: real)
    | Str(s: string)
    | Array(elems: seq<Value>)
    | Object(props: seq<Property>)

  datatype Property = Property(key: string, value: Value)

  /** The exceptions the modelled code can throw. */
  datatype Exception =
    | SyntaxError   // thrown by `JSON.parse` on text that is not JSON
    | TypeError     // thrown by a property read on `undefined` or `null`

  /** JavaScript truthiness (NaN is not a value of this model). */
  predicate Truthy(v: Value) {
    match v
    case Undefined => false
    case Null => false
    case Bool(b) => b
    case Number(n) => n != 0.0
    case Str(s) => s != ""
    case Array(_) => true
    case Object(_) => true
  }

  /** `a || b`: the left operand when it is truthy, otherwise the right one. */
  function Or(a: Value, b: Value): (r: Value)
    ensures Truthy(a) ==> r == a
    ensures !Truthy(a) ==> r == b
    ensures Truthy(r) <==> Truthy(a) || Truthy(b)
  {
    if Truthy(a) then a else b
  }

  predicate Nullish(v: Value) {
    v.Undefined? || v.Null?
  }

  /** The own property keys of an object, in insertion order. */
  function Keys(ps: seq<Property>): seq<string> {
    if |ps| == 0 then [] else [ps[0].key] + Keys(ps[1..])
  }

  /** Reading own property `k`; `undefined` when there is none. */
  function Lookup(ps: seq<Property>, k: string): (r: Value)
  {
    if |ps| == 0 then Undefined
    else if ps[0].key == k then ps[0].value
    else Lookup(ps[1..], k)
  }

  /** A key the object does not have reads as `undefined`. */
  lemma {:induction false} LookupAbsent(ps: seq<Property>, k: string)
    requires k !in Keys(ps)
    ensures Lookup(ps, k) == Undefined
  {
    if |ps| > 0 {
      LookupAbsent(ps[1..], k);
    }
  }

  /** `o.k = v`: an existing property keeps its place and takes the new value,
      a new property is appended after all existing ones. */
  function Set(ps: seq<Property>, k: string, v: Value): (r: seq<Property>)
    ensures Lookup(r, k) == v
    ensures forall k' :: k' != k ==> Lookup(r, k') == Lookup(ps, k')
  {
    if |ps| == 0 then [Property(k, v)]
    else if ps[0].key == k then [Property(k, v)] + ps[1..]
    else [ps[0]] + Set(ps[1..], k, v)
  }

  /** Assigning a key the object does not have appends a property. */
  lemma {:induction false} SetFresh(ps: seq<Property>, k: string, v: Value)
    requires k !in Keys(ps)
    ensures Set(ps, k, v) == ps + [Property(k, v)]
    ensures Keys(Set(ps, k, v)) == Keys(ps) + [k]
  {
    if |ps| > 0 {
      SetFresh(ps[1..], k, v);
      assert ps == [ps[0]] + ps[1..];
    }
    KeysConcat(ps, [Property(k, v)]);
  }

  /** `v.key` for a key that no built-in prototype defines (every key the
      modelled code reads is one): throws on `undefined` and `null`, reads the
      own property of an object, and is `undefined` on any other value. */
  function Get(v: Value, key: string): (r: Result<Value, Exception>)
    ensures r.Failure? <==> Nullish(v)
    ensures r.Failure? ==> r.error == TypeError
    ensures r.Success? && r.value != Undefined ==> v.Object?
  {
    match v
    case Undefined => Failure(TypeError)
    case Null => Failure(TypeError)
    case Object(ps) => Success(Lookup(ps, key))
    case _ => Success(Undefined)
  }

  /** `v[0]`: the first element of an array, the first character of a string,
      the property named "0" of an object; throws on `undefined` and `null`. */
  function First(v: Value): (r: Result<Value, Exception>)
    ensures r.Failure? <==> Nullish(v)
    ensures r.Failure? ==> r.error == TypeError
    ensures v.Array? ==> r == Success(if |v.elems| > 0 then v.elems[0] else Undefined)
    ensures v.Str? && v.s == "" ==> r == Success(Undefined)
  {
    match v
    case Undefined => Failure(TypeError)
    case Null => Failure(TypeError)
    case Array(es) => Success(if |es| > 0 then es[0] else Undefined)
    case Str(s) => Success(if |s| > 0 then Str([s[0]]) else Undefined)
    case Object(ps) => Success(Lookup(ps, "0"))
    case _ => Success(Undefined)
  }

  lemma {:induction false} KeysConcat(a: seq<Property>, b: seq<Property>)
    ensures Keys(a + b) == Keys(a) + Keys(b)
  {
    if |a| > 0 {
      assert (a + b)[1..] == a[1..] + b;
      KeysConcat(a[1..], b);
    } else {
      assert a + b == b;
    }
  }

  /** In `a + b` a key of `a` reads from `a`; any other key reads from `b`. */
  lemma {:induction false} LookupConcat(a: seq<Property>, b: seq<Property>, k: string)
    ensures Lookup(a + b, k) == if k in Keys(a) then Lookup(a, k) else Lookup(b, k)
  {
    if |a| > 0 {
      assert (a + b)[1..] == a[1..] + b;
      LookupConcat(a[1..], b, k);
    } else {
      assert a + b == b;
    }
  }
}
