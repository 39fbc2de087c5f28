/**
 * isEqual: deep equality over JavaScript values, by the same case analysis
 * as the TypeScript function: identity, null and undefined, typeof, two
 * arrays element by element, otherwise two objects key by key through
 * Object.keys and hasOwnProperty.
 *
 * Values are finite trees. An array or object is never === another one: the
 * model treats each as its own reference (no sharing, no cycles).
 */
module JsEquality {
  import opened Common

  datatype JsValue =
    | Undefined
    | Null
    | Bool(b: bool)
    | Num(n: int)
    | Str(s: string)
    | Arr(items: seq<JsValue>)
    | Obj(props: map<string, JsValue>)

  /** The typeof operator; null and arrays are "object". */
  function TypeOf(v: JsValue): string
  {
    match v
    case Undefined => "undefined"
    case Null => "object"
    case Bool(_) => "boolean"
    case Num(_) => "number"
    case Str(_) => "string"
    case Arr(_) => "object"
    case Obj(_) => "object"
  }

  /** ===: primitives by value, never for two arrays or objects. */
  predicate StrictEquals(a: JsValue, b: JsValue)
  {
    match (a, b)
    case (Undefined, Undefined) => true
    case (Null, Null) => true
    case (Bool(x), Bool(y)) => x == y
    case (Num(x), Num(y)) => x == y
    case (Str(x), Str(y)) => x == y
    case _ => false
  }

  predicate IsPrimitive(v: JsValue)
  {
    v.Bool? || v.Num? || v.Str?
  }

  // ---------------------------------------------------------------------
  // Array index keys: an array's own keys are the decimal strings of its
  // indices, plus the non-enumerable "length".
  // ---------------------------------------------------------------------

  function DigitChar(d: nat): char
    requires d < 10
  {
    ('0' as int + d) as char
  }

  predicate IsDigit(c: char)
  {
    '0' <= c <= '9'
  }

  predicate AllDigits(s: string)
  {
    forall i :: 0 <= i < |s| ==> IsDigit(s[i])
  }

  /** String(i): the decimal key of index i. */
  function IndexKey(i: nat): string
  {
    if i < 10 then [DigitChar(i)] else IndexKey(i / 10) + [DigitChar(i % 10)]
  }

  function DecimalValue(s: string): nat
    requires AllDigits(s)
  {
    if s == [] then 0 else DecimalValue(s[..|s| - 1]) * 10 + (s[|s| - 1] as int - '0' as int)
  }

  /** The index a property key names when it is a canonical decimal string (no sign, no leading zero). */
  function ParseIndex(k: string): Option<nat>
  {
    if k != [] && AllDigits(k) && (k[0] != '0' || |k| == 1) then Some(DecimalValue(k)) else None
  }

  /** Object.keys(v).length for an array or object. */
  function KeyCount(v: JsValue): nat
  {
    match v
    case Arr(xs) => |xs|
    case Obj(m) => |m|
    case _ => 0
  }

  /** Object.prototype.hasOwnProperty.call(v, k) for an array or object. */
  predicate HasOwn(v: JsValue, k: string)
  {
    match v
    case Arr(xs) => (ParseIndex(k).Some? && ParseIndex(k).value < |xs|) || k == "length"
    case Obj(m) => k in m
    case _ => false
  }

  /** v[k] for an own key k of an array or object. */
  function Get(v: JsValue, k: string): JsValue
  {
    match v
    case Arr(xs) =>
      if ParseIndex(k).Some? && ParseIndex(k).value < |xs| then xs[ParseIndex(k).value]
      else if k == "length" then Num(|xs|)
      else Undefined
    case Obj(m) => if k in m then m[k] else Undefined
    case _ => Undefined
  }

  // ---------------------------------------------------------------------
  // isEqual as written
  // ---------------------------------------------------------------------

  function IsEqual(a: JsValue, b: JsValue): (r: bool)
    ensures StrictEquals(a, b) ==> r
    ensures r ==> TypeOf(a) == TypeOf(b)
    ensures r && (a.Null? || a.Undefined? || IsPrimitive(a)) ==> a == b
  {
    if StrictEquals(a, b) then true
    else if a == Null || b == Null then false
    else if a == Undefined || b == Undefined then false
    else if TypeOf(a) != TypeOf(b) then false
    else if a.Arr? && b.Arr? then
      |a.items| == |b.items| && forall i :: 0 <= i < |a.items| ==> IsEqual(a.items[i], b.items[i])
    else if TypeOf(a) == "object" then
      KeyCount(a) == KeyCount(b) &&
      match a
      case Arr(xs) => forall i :: 0 <= i < |xs| ==> HasOwn(b, IndexKey(i)) && IsEqual(xs[i], Get(b, IndexKey(i)))
      case Obj(m) => forall k :: k in m ==> HasOwn(b, k) && IsEqual(m[k], Get(b, k))
      case _ => false
    else
      StrictEquals(a, b)
  }

  /** The key of index i reads back as i, so it names element i of an array. */
  lemma {:induction false} IndexKeyRoundTrip(i: nat)
    ensures AllDigits(IndexKey(i)) && |IndexKey(i)| > 0
    ensures IndexKey(i)[0] == '0' ==> i == 0
    ensures ParseIndex(IndexKey(i)) == Some(i)
  {
    if i >= 10 {
      IndexKeyRoundTrip(i / 10);
      var p := IndexKey(i / 10);
      var s := IndexKey(i);
      assert s == p + [DigitChar(i % 10)];
      assert s[..|s| - 1] == p;
      assert s[0] == p[0];
      assert AllDigits(s);
      assert DecimalValue(p) == i / 10;
      assert s[|s| - 1] as int - '0' as int == i % 10;
      assert DecimalValue(s) == (i / 10) * 10 + i % 10;
      assert s[0] != '0';
      assert ParseIndex(s) == Some(DecimalValue(s));
    } else {
      assert IndexKey(i) == [DigitChar(i)];
      assert DecimalValue(IndexKey(i)) == DecimalValue([]) * 10 + i;
    }
  }

  /** Object.keys of an array enumerates IndexKey(i), and array[IndexKey(i)] is element i. */
  lemma ArrayKeyNamesElement(xs: seq<JsValue>, i: nat)
    requires i < |xs|
    ensures HasOwn(Arr(xs), IndexKey(i)) && Get(Arr(xs), IndexKey(i)) == xs[i]
  {
    IndexKeyRoundTrip(i);
  }

  /** Any value equals itself, although no array or object is === to anything. */
  lemma {:induction false} IsEqualReflexive(v: JsValue)
    ensures IsEqual(v, v)
  {
    match v
    case Arr(xs) =>
      forall i | 0 <= i < |xs| ensures IsEqual(xs[i], xs[i]) {
        IsEqualReflexive(xs[i]);
      }
    case Obj(m) =>
      forall k | k in m ensures IsEqual(m[k], Get(v, k)) {
        IsEqualReflexive(m[k]);
      }
    case _ =>
  }

  /** null or undefined equals nothing but itself. */
  lemma NullishEqualsOnlyItself(a: JsValue, b: JsValue)
    requires a == Null || a == Undefined || b == Null || b == Undefined
    ensures IsEqual(a, b) <==> a == b
  {
  }

  /** Values of different typeof are never equal. */
  lemma TypeMismatchUnequal(a: JsValue, b: JsValue)
    requires TypeOf(a) != TypeOf(b)
    ensures !IsEqual(a, b)
  {
  }

  /** Two primitives of the same type are equal exactly when they are the same value. */
  lemma PrimitivesEqualByValue(a: JsValue, b: JsValue)
    requires IsPrimitive(a) && IsPrimitive(b)
    ensures IsEqual(a, b) <==> a == b
  {
  }

  /** Two arrays: same length and pairwise isEqual. */
  lemma ArraysEqual(xs: seq<JsValue>, ys: seq<JsValue>)
    ensures IsEqual(Arr(xs), Arr(ys)) <==> |xs| == |ys| && forall i :: 0 <= i < |xs| ==> IsEqual(xs[i], ys[i])
  {
  }

  /**
   * Two objects: the same key count, and every key of the first is a key of
   * the second with an isEqual value. A map has no key order, so the order
   * properties were added in does not matter.
   */
  lemma ObjectsEqual(m: map<string, JsValue>, n: map<string, JsValue>)
    ensures IsEqual(Obj(m), Obj(n)) <==> |m| == |n| && forall k :: k in m ==> k in n && IsEqual(m[k], n[k])
  {
  }

  /** [1] and {"0": 1} compare equal, in both orders: an array meets an object in the key branch. */
  lemma ArrayEqualsIndexKeyedObject()
    ensures IsEqual(Arr([Num(1)]), Obj(map["0" := Num(1)]))
    ensures IsEqual(Obj(map["0" := Num(1)]), Arr([Num(1)]))
  {
    assert IndexKey(0) == "0";
    assert ParseIndex("0") == Some(0);
  }

  /**
   * hasOwnProperty sees an array's "length", Object.keys does not: so
   * {length: 1} equals [5], but [5] does not equal {length: 1}.
   */
  lemma LengthKeyAsymmetry()
    ensures IsEqual(Obj(map["length" := Num(1)]), Arr([Num(5)]))
    ensures !IsEqual(Arr([Num(5)]), Obj(map["length" := Num(1)]))
  {
    var o := Obj(map["length" := Num(1)]);
    var a := Arr([Num(5)]);
    assert ParseIndex("length").None?;
    assert HasOwn(a, "length") && Get(a, "length") == Num(1);
    assert IndexKey(0) == "0";
    assert !HasOwn(o, IndexKey(0));
  }

  // ---------------------------------------------------------------------
  // isEqual with an array compared to a non-array object rejected
  // ---------------------------------------------------------------------

  /** isEqual with one added test: exactly one side an array is unequal. */
  function IsEqualFixed(a: JsValue, b: JsValue): bool
  {
    if StrictEquals(a, b) then true
    else if a == Null || b == Null then false
    else if a == Undefined || b == Undefined then false
    else if TypeOf(a) != TypeOf(b) then false
    else if a.Arr? && b.Arr? then
      |a.items| == |b.items| && forall i :: 0 <= i < |a.items| ==> IsEqualFixed(a.items[i], b.items[i])
    else if a.Arr? || b.Arr? then false
    else if TypeOf(a) == "object" then
      KeyCount(a) == KeyCount(b) &&
      match a
      case Obj(m) => forall k :: k in m ==> HasOwn(b, k) && IsEqualFixed(m[k], Get(b, k))
      case _ => false
    else
      StrictEquals(a, b)
  }

  /** A subset as large as its superset is the superset. */
  lemma SubsetOfSameSize<T>(s: set<T>, t: set<T>)
    requires s <= t && |s| == |t|
    ensures s == t
  {
    assert t == s + (t - s);
    assert |t| == |s| + |t - s|;
  }

  /** The corrected comparison is exactly structural equality: reflexive, symmetric and transitive. */
  lemma {:induction false} IsEqualFixedIsStructural(a: JsValue, b: JsValue)
    ensures IsEqualFixed(a, b) <==> a == b
  {
    match a
    case Arr(xs) =>
      if b.Arr? {
        var ys := b.items;
        forall i | 0 <= i < |xs| && i < |ys| ensures IsEqualFixed(xs[i], ys[i]) <==> xs[i] == ys[i] {
          IsEqualFixedIsStructural(xs[i], ys[i]);
        }
        if IsEqualFixed(a, b) {
          assert xs == ys;
        }
      }
    case Obj(m) =>
      if b.Obj? {
        var n := b.props;
        forall k | k in m && k in n ensures IsEqualFixed(m[k], n[k]) <==> m[k] == n[k] {
          IsEqualFixedIsStructural(m[k], n[k]);
        }
        if IsEqualFixed(a, b) {
          assert m.Keys <= n.Keys;
          SubsetOfSameSize(m.Keys, n.Keys);
          assert m == n;
        }
      }
    case _ =>
  }
}
