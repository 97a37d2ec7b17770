/** The JavaScript values the chat client handles: parsed JSON replies, the objects the chart
    component builds from them, and the numbers its arithmetic produces. Objects keep their
    properties in insertion order, which is the order JavaScript enumerates string keys in. */
module JsValue {

  /** A JavaScript number. Finite values are exact reals, so rounding is not modelled, and
      negative zero is not told apart from zero. */
  datatype Number = Finite(r: real) | PosInf | NegInf | NaN

  datatype Value =
    | Undefined
    | Null
    | Bool(b: bool)
    | Num(n: Number)
    | Str(s: string)
    | Arr(elems: seq<Value>)
    | Obj(props: seq<Prop>)

  datatype Prop = Prop(key: string, val: Value)

  type Props = seq<Prop>

  /** The keys of an object, in enumeration order. */
  function Keys(ps: Props): (ks: seq<string>)
    ensures |ks| == |ps|
    ensures forall i :: 0 <= i < |ps| ==> ks[i] == ps[i].key
  {
    if ps == [] then [] else [ps[0].key] + Keys(ps[1..])
  }

  predicate HasKey(ps: Props, k: string)
  {
    k in Keys(ps)
  }

  /** Property lookup on an object: the value of the first property named `k`, or
      `undefined` when there is none. */
  function Lookup(ps: Props, k: string): Value
  {
    if ps == [] then Undefined
    else if ps[0].key == k then ps[0].val
    else Lookup(ps[1..], k)
  }

  /** Reading a property the object does not have yields `undefined`. */
  lemma {:induction false} LookupMissing(ps: Props, k: string)
    requires !HasKey(ps, k)
    ensures Lookup(ps, k) == Undefined
  {
    if ps != [] {
      assert Keys(ps) == [ps[0].key] + Keys(ps[1..]);
      LookupMissing(ps[1..], k);
    }
  }

  /** The value of a property whose key no earlier property has. */
  lemma {:induction false} LookupAt(ps: Props, i: nat)
    requires i < |ps|
    requires forall j :: 0 <= j < i ==> ps[j].key != ps[i].key
    ensures Lookup(ps, ps[i].key) == ps[i].val
  {
    if i > 0 {
      assert ps[0].key != ps[i].key;
      assert forall j :: 0 <= j < i - 1 ==> ps[1..][j] == ps[j + 1];
      LookupAt(ps[1..], i - 1);
    }
  }

  /** `v.k` on a value that is not null or undefined: objects look the key up; reading one of
      the chart fields from a number, string, boolean or array yields `undefined`. */
  function Get(v: Value, k: string): (r: Value)
    ensures !v.Obj? ==> r == Undefined
    ensures v.Obj? ==> r == Lookup(v.props, k)
  {
    match v
    case Obj(ps) => Lookup(ps, k)
    case _ => Undefined
  }

  /** `k in v` for an object. */
  predicate Has(v: Value, k: string)
  {
    v.Obj? && HasKey(v.props, k)
  }

  /** Property assignment in an object literal that follows a spread (`{...o, k: v}`): an
      existing property keeps its position and takes the new value, a new one goes last. */
  function Put(ps: Props, k: string, v: Value): (r: Props)
    ensures Lookup(r, k) == v
    ensures forall k' :: k' != k ==> Lookup(r, k') == Lookup(ps, k')
  {
    if ps == [] then [Prop(k, v)]
    else
      assert Keys(ps) == [ps[0].key] + Keys(ps[1..]);
      if ps[0].key == k then
        var r := [Prop(k, v)] + ps[1..];
        assert r[1..] == ps[1..];
        r
      else
        var rest := Put(ps[1..], k, v);
        var r := [ps[0]] + rest;
        assert r[0] == ps[0] && r[1..] == rest;
        assert forall k' :: Lookup(r, k') == if ps[0].key == k' then ps[0].val else Lookup(rest, k');
        r
  }

  /** Assigning a property keeps every existing key where it was; a key that was missing is
      added last. */
  lemma {:induction false} PutKeys(ps: Props, k: string, v: Value)
    ensures HasKey(ps, k) ==> Keys(Put(ps, k, v)) == Keys(ps)
    ensures !HasKey(ps, k) ==> Keys(Put(ps, k, v)) == Keys(ps) + [k]
  {
    if ps == [] {
      assert Keys(Put(ps, k, v)) == [k];
    } else if ps[0].key == k {
      var r := [Prop(k, v)] + ps[1..];
      assert Put(ps, k, v) == r;
      assert r[1..] == ps[1..];
      assert Keys(r) == [k] + Keys(ps[1..]);
      assert Keys(ps) == [k] + Keys(ps[1..]);
      assert HasKey(ps, k);
    } else {
      var rest := Put(ps[1..], k, v);
      var r := [ps[0]] + rest;
      assert Put(ps, k, v) == r;
      assert r[1..] == rest;
      assert Keys(r) == [ps[0].key] + Keys(rest);
      assert Keys(ps) == [ps[0].key] + Keys(ps[1..]);
      assert HasKey(ps, k) == HasKey(ps[1..], k);
      PutKeys(ps[1..], k, v);
    }
  }

  /** JavaScript truthiness. */
  predicate Truthy(v: Value)
  {
    match v
    case Undefined => false
    case Null => false
    case Bool(b) => b
    case Num(n) => n != Finite(0.0) && n != NaN
    case Str(s) => s != ""
    case Arr(_) => true
    case Obj(_) => true
  }

  /** `a || b`. */
  function Or(a: Value, b: Value): (r: Value)
    ensures Truthy(a) ==> r == a
    ensures !Truthy(a) ==> r == b
  {
    if Truthy(a) then a else b
  }

  /** Number coercion of the operands of `-` and of `Math.max`/`Math.min`. Numbers, null,
      booleans and undefined coerce as in JavaScript; text, arrays and objects are taken to be
      NaN (the backend sends prices as JSON numbers). */
  function ToNumber(v: Value): Number
  {
    match v
    case Undefined => NaN
    case Null => Finite(0.0)
    case Bool(b) => Finite(if b then 1.0 else 0.0)
    case Num(n) => n
    case _ => NaN
  }

  function Neg(a: Number): (r: Number)
    ensures a.Finite? ==> r == Finite(-a.r)
    ensures a.NaN? <==> r.NaN?
  {
    match a
    case Finite(x) => Finite(-x)
    case PosInf => NegInf
    case NegInf => PosInf
    case NaN => NaN
  }

  /** IEEE addition on exact reals: NaN absorbs, and opposite infinities give NaN. */
  function Add(a: Number, b: Number): (r: Number)
    ensures a.Finite? && b.Finite? ==> r == Finite(a.r + b.r)
    ensures a.NaN? || b.NaN? ==> r.NaN?
  {
    if a.NaN? || b.NaN? then NaN
    else if a.PosInf? then (if b.NegInf? then NaN else PosInf)
    else if a.NegInf? then (if b.PosInf? then NaN else NegInf)
    else if b.Finite? then Finite(a.r + b.r)
    else b
  }

  function Sub(a: Number, b: Number): (r: Number)
    ensures a.Finite? && b.Finite? ==> r == Finite(a.r - b.r)
    ensures a.NaN? || b.NaN? ==> r.NaN?
  {
    Add(a, Neg(b))
  }

  /** The sign of a number that is not NaN: -1, 0 or 1. */
  function Sign(a: Number): int
  {
    match a
    case Finite(x) => if x > 0.0 then 1 else if x < 0.0 then -1 else 0
    case PosInf => 1
    case NegInf => -1
    case NaN => 0
  }

  function Infinity(sign: int): Number
  {
    if sign > 0 then PosInf else if sign < 0 then NegInf else NaN
  }

  function Mul(a: Number, b: Number): (r: Number)
    ensures a.Finite? && b.Finite? ==> r == Finite(a.r * b.r)
    ensures a.NaN? || b.NaN? ==> r.NaN?
  {
    if a.NaN? || b.NaN? then NaN
    else if a.Finite? && b.Finite? then Finite(a.r * b.r)
    else Infinity(Sign(a) * Sign(b))
  }

  /** IEEE division on exact reals: a non-zero finite number over zero is an infinity of its
      sign, zero over zero is NaN, and a finite number over an infinity is zero. */
  function Div(a: Number, b: Number): (r: Number)
    ensures a.Finite? && b.Finite? && b.r != 0.0 ==> r == Finite(a.r / b.r)
    ensures a.NaN? || b.NaN? ==> r.NaN?
    ensures a == Finite(0.0) && b == Finite(0.0) ==> r.NaN?
    ensures a.Finite? && a.r > 0.0 && b == Finite(0.0) ==> r == PosInf
    ensures a.Finite? && a.r < 0.0 && b == Finite(0.0) ==> r == NegInf
  {
    if a.NaN? || b.NaN? then NaN
    else if a.Finite? && b.Finite? then (if b.r != 0.0 then Finite(a.r / b.r) else Infinity(Sign(a)))
    else if a.Finite? then Finite(0.0)
    else if b.Finite? then Infinity(Sign(a) * (if b.r < 0.0 then -1 else 1))
    else NaN
  }

  /** The order on numbers that are not NaN, infinities included. */
  predicate Below(a: Number, b: Number)
    requires !a.NaN? && !b.NaN?
  {
    match (a, b)
    case (NegInf, _) => true
    case (_, PosInf) => true
    case (Finite(x), Finite(y)) => x <= y
    case _ => false
  }

  /** `Math.max(a, b)`: NaN if either is NaN. */
  function Max(a: Number, b: Number): (r: Number)
    ensures a.NaN? || b.NaN? ==> r.NaN?
    ensures !a.NaN? && !b.NaN? ==> (r == a || r == b) && !r.NaN? && Below(a, r) && Below(b, r)
  {
    if a.NaN? || b.NaN? then NaN else if Below(a, b) then b else a
  }

  /** `Math.min(a, b)`: NaN if either is NaN. */
  function Min(a: Number, b: Number): (r: Number)
    ensures a.NaN? || b.NaN? ==> r.NaN?
    ensures !a.NaN? && !b.NaN? ==> (r == a || r == b) && !r.NaN? && Below(r, a) && Below(r, b)
  {
    if a.NaN? || b.NaN? then NaN else if Below(a, b) then a else b
  }
}
