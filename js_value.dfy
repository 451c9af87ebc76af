/**
 * The JavaScript values a configuration is made of (src/types.d.ts, plus the
 * arrays that ConfigSet concatenates), and the few built-in operations the
 * core applies to them: `typeof`, `??`, property reads and the own
 * enumerable properties that `Object.keys` and `Object.assign` see.
 */
module JsValues {
  import opened Results

  /** A setting value. Numbers are opaque: they are only copied and compared. */
  datatype Value =
    | Obj(fields: map<string, Value>)
    | Arr(elems: seq<Value>)
    | Bool(b: bool)
    | Num(n: int)
    | Str(s: string)
    | Null
    | Undef

  /** A plain configuration object: setting name to setting value. */
  type SubConfig = map<string, Value>

  /** The result of the `typeof` operator. */
  datatype TypeTag = TUndefined | TObject | TBoolean | TNumber | TString

  /** `typeof v`: arrays and `null` are both 'object'. */
  function TypeOf(v: Value): (t: TypeTag)
    ensures t == TObject <==> v.Obj? || v.Arr? || v.Null?
    ensures t == TUndefined <==> v.Undef?
  {
    match v
    case Obj(_) => TObject
    case Arr(_) => TObject
    case Null => TObject
    case Bool(_) => TBoolean
    case Num(_) => TNumber
    case Str(_) => TString
    case Undef => TUndefined
  }

  /** A non-null value other than an object or array: what `typeof v !== 'object'` rejects. */
  predicate IsScalar(v: Value) {
    v.Bool? || v.Num? || v.Str?
  }

  predicate IsNullish(v: Value) {
    v.Null? || v.Undef?
  }

  /** `v ?? d` */
  function NullishOr(v: Value, d: Value): (r: Value)
    ensures IsNullish(v) ==> r == d
    ensures !IsNullish(v) ==> r == v
  {
    if IsNullish(v) then d else v
  }

  /** `config[name]` on a plain object: an absent own property reads as undefined. */
  function Lookup(config: SubConfig, name: string): (v: Value)
    ensures name in config ==> v == config[name]
    ensures name !in config ==> v == Undef
  {
    if name in config then config[name] else Undef
  }

  // ---------------------------------------------------------------------------
  // Array and string indices as property names.

  predicate IsDigit(c: char) {
    '0' <= c <= '9'
  }

  function DigitChar(d: nat): (c: char)
    requires d < 10
    ensures IsDigit(c) && (c as int) - ('0' as int) == d
  {
    ((d + '0' as int) as char)
  }

  /** The canonical decimal property name of an index, as `String(n)`. */
  function IndexKey(n: nat): (k: string)
    ensures |k| >= 1
    ensures forall i :: 0 <= i < |k| ==> IsDigit(k[i])
    ensures 1 <= n ==> k[0] != '0'
    decreases n
  {
    if n < 10 then [DigitChar(n)] else IndexKey(n / 10) + [DigitChar(n % 10)]
  }

  function DigitsValue(k: string): nat
    requires forall i :: 0 <= i < |k| ==> IsDigit(k[i])
  {
    if k == [] then 0
    else
      assert IsDigit(k[|k| - 1]);
      DigitsValue(k[..|k| - 1]) * 10 + ((k[|k| - 1] as int) - ('0' as int))
  }

  /** The index a property name denotes, if it is a canonical decimal numeral. */
  function ParseIndex(k: string): Option<nat> {
    if k == [] || (|k| > 1 && k[0] == '0') || !(forall i :: 0 <= i < |k| ==> IsDigit(k[i])) then None
    else Some(DigitsValue(k))
  }

  /** Reading back the property name of an index gives that index. */
  lemma {:induction false} IndexKeyParses(n: nat)
    ensures ParseIndex(IndexKey(n)) == Some(n)
    decreases n
  {
    if n >= 10 {
      var k := IndexKey(n / 10);
      IndexKeyParses(n / 10);
      assert (k + [DigitChar(n % 10)])[..|k|] == k;
      assert DigitsValue(IndexKey(n)) == DigitsValue(k) * 10 + n % 10;
    }
  }

  /** Distinct indices have distinct property names. */
  lemma IndexKeyInjective()
    ensures forall i: nat, j: nat :: IndexKey(i) == IndexKey(j) ==> i == j
  {
    forall i: nat, j: nat | IndexKey(i) == IndexKey(j) ensures i == j {
      IndexKeyParses(i);
      IndexKeyParses(j);
    }
  }

  /** The index-keyed own properties of an array (or of a string's characters). */
  function Indexed(s: seq<Value>): (m: map<string, Value>)
    ensures forall i :: 0 <= i < |s| ==> IndexKey(i) in m && m[IndexKey(i)] == s[i]
  {
    if s == [] then map[]
    else
      var n := |s| - 1;
      IndexKeyInjective();
      Indexed(s[..n])[IndexKey(n) := s[n]]
  }

  /** Every property of an indexed map is the name of one of its indices. */
  lemma {:induction false} IndexedKeyIsIndex(s: seq<Value>, key: string)
    requires key in Indexed(s)
    ensures exists i :: 0 <= i < |s| && key == IndexKey(i)
  {
    if s != [] {
      var n := |s| - 1;
      if key != IndexKey(n) {
        IndexedKeyIsIndex(s[..n], key);
        var i :| 0 <= i < n && key == IndexKey(i);
      }
    }
  }

  /** A string's characters as one-character strings. */
  function Chars(s: string): (r: seq<Value>)
    ensures |r| == |s|
    ensures forall i :: 0 <= i < |s| ==> r[i] == Str([s[i]])
  {
    seq(|s|, i requires 0 <= i < |s| => Str([s[i]]))
  }

  /**
   * The own enumerable properties of a value, as `Object.keys` lists them and
   * `Object.assign` copies them from a source: an object's fields, an array's
   * elements or a string's characters under their indices, and nothing for any
   * other value (`Object.assign` skips null, undefined, booleans and numbers).
   */
  function OwnProps(v: Value): (m: map<string, Value>)
    ensures v.Obj? ==> m == v.fields
    ensures !(v.Obj? || v.Arr? || v.Str?) ==> m == map[]
  {
    match v
    case Obj(fields) => fields
    case Arr(elems) => Indexed(elems)
    case Str(s) => Indexed(Chars(s))
    case _ => map[]
  }

  /**
   * `v[key]`: an object's own field, an array element or string character by
   * index, an array's or string's `length`, and undefined otherwise.
   */
  function Get(v: Value, key: string): Value {
    match v
    case Obj(fields) => Lookup(fields, key)
    case Arr(elems) =>
      (match ParseIndex(key)
       case Some(i) => if i < |elems| then elems[i] else Undef
       case None => if key == "length" then Num(|elems|) else Undef)
    case Str(s) =>
      (match ParseIndex(key)
       case Some(i) => if i < |s| then Str([s[i]]) else Undef
       case None => if key == "length" then Num(|s|) else Undef)
    case _ => Undef
  }

  /** Reading an enumerated property gives the value `Object.keys`/`Object.assign` see for it. */
  lemma GetAgreesWithOwnProps(v: Value, key: string)
    requires key in OwnProps(v)
    ensures Get(v, key) == OwnProps(v)[key]
  {
    match v
    case Obj(_) =>
    case Arr(elems) =>
      IndexedKeyIsIndex(elems, key);
      var i :| 0 <= i < |elems| && key == IndexKey(i);
      IndexKeyParses(i);
    case Str(s) =>
      IndexedKeyIsIndex(Chars(s), key);
      var i :| 0 <= i < |s| && key == IndexKey(i);
      IndexKeyParses(i);
  }
}
