/**
 * PHP values as the adapter sees them: the result of `json_decode($text, true)`,
 * together with the few PHP language rules the adapter relies on
 * (`empty`, `isset`, string conversion, return-type coercion and offset writes).
 *
 * A decoded JSON list and a decoded JSON object are both PHP arrays. PHP keys an
 * array either by an integer or by a string, and a string key that is a canonical
 * decimal integer is turned into that integer. This model keeps lists as `JArr`
 * and keyed arrays as `JObj`, and writes an integer key of a keyed array as its
 * decimal string, so the JSON object `{"0": v}` and the list `[v]` both answer
 * offset 0 with `v`, as in PHP.
 */
module PhpValues {

  datatype Json =
    | JNull
    | JBool(b: bool)
    | JInt(i: int)
    | JStr(s: string)
    | JArr(items: seq<Json>)
    | JObj(fields: map<string, Json>)

  datatype Option<T> = None | Some(value: T)

  /** What the adapter can throw (transport errors come from the unseen `request()`). */
  datatype Failure =
    | TransportFailure     // the HTTP request failed
    | ReturnTypeError      // a value did not fit the declared return type
    | ScalarOffsetError    // an offset write on a string, an integer or `true`

  datatype Result<T> = Ok(value: T) | Err(failure: Failure)

  /** PHP `empty($v)` on a value that exists. */
  predicate Empty(v: Json) {
    match v
    case JNull => true
    case JBool(b) => !b
    case JInt(i) => i == 0
    case JStr(s) => s == "" || s == "0"
    case JArr(xs) => xs == []
    case JObj(m) => m == map[]
  }

  /** PHP `empty($a[$k])`: a missing offset is empty too. */
  predicate EmptyAt(o: Option<Json>) {
    o.None? || Empty(o.value)
  }

  /** PHP `isset($a[$k])`: the offset exists and does not hold null. */
  predicate Isset(o: Option<Json>) {
    o.Some? && o.value != JNull
  }

  /**
   * Reading `$v[$name]` for a string key that is not numeric (every key the
   * adapter reads is such a key): only a keyed array can hold it; a list has
   * integer keys only and a string offset of that kind is never set.
   */
  function Field(v: Json, name: string): (o: Option<Json>)
  {
    if v.JObj? && name in v.fields then Some(v.fields[name]) else None
  }

  /**
   * Reading `$v[$k]` for an integer offset: a list's element, a keyed array's
   * entry under the decimal key, or a one-character string of a string.
   */
  function Index(v: Json, k: nat): (o: Option<Json>)
  {
    match v
    case JArr(xs) => if k < |xs| then Some(xs[k]) else None
    case JObj(m) => if Decimal(k) in m then Some(m[Decimal(k)]) else None
    case JStr(s) => if k < |s| then Some(JStr([s[k]])) else None
    case _ => None
  }

  function DigitChar(d: nat): (c: char)
    requires d < 10
    ensures '0' <= c <= '9'
  {
    ('0' as int + d) as char
  }

  /** The decimal digits of a natural number, most significant first, no leading zero. */
  function NatToDecimal(n: nat): (s: string)
    ensures |s| > 0
    ensures forall i :: 0 <= i < |s| ==> '0' <= s[i] <= '9'
    ensures |s| > 1 ==> s[0] != '0'
    decreases n
  {
    if n < 10 then [DigitChar(n)] else NatToDecimal(n / 10) + [DigitChar(n % 10)]
  }

  /** What PHP prints for an integer. */
  function Decimal(i: int): (s: string)
    ensures |s| > 0
    ensures (i < 0) <==> s[0] == '-'
  {
    if i < 0 then "-" + NatToDecimal(-i) else NatToDecimal(i)
  }

  /** Reads a string of decimal digits back as a number. */
  function DigitsValue(s: string): nat {
    if s == [] then 0
    else
      var d := s[|s| - 1] as int - '0' as int;
      DigitsValue(s[..|s| - 1]) * 10 + (if 0 <= d < 10 then d else 0)
  }

  lemma {:induction false} DigitsValueOfDecimal(n: nat)
    ensures DigitsValue(NatToDecimal(n)) == n
    decreases n
  {
    var s := NatToDecimal(n);
    if n >= 10 {
      DigitsValueOfDecimal(n / 10);
      assert s[..|s| - 1] == NatToDecimal(n / 10);
    }
  }

  /** Distinct offsets have distinct decimal keys. */
  lemma DecimalInjective(i: nat, j: nat)
    requires Decimal(i) == Decimal(j)
    ensures i == j
  {
    DigitsValueOfDecimal(i);
    DigitsValueOfDecimal(j);
  }

  /** PHP string conversion, as the `.` operator applies it. */
  function ToPhpString(v: Json): string {
    match v
    case JNull => ""
    case JBool(b) => if b then "1" else ""
    case JInt(i) => Decimal(i)
    case JStr(s) => s
    case JArr(_) => "Array"
    case JObj(_) => "Array"
  }

  /**
   * Returning `v` from a function declared `: string` without strict types:
   * scalars are converted, null and arrays are a TypeError.
   */
  function ReturnString(v: Json): (r: Result<string>)
  {
    if v.JNull? || v.JArr? || v.JObj? then Err(ReturnTypeError) else Ok(ToPhpString(v))
  }

  /** Returning `v` from a function declared `: array`: no coercion applies. */
  function ReturnArray(v: Json): (r: Result<Json>)
  {
    if v.JArr? || v.JObj? then Ok(v) else Err(ReturnTypeError)
  }

  /** A list seen as a keyed array: element `i` under the key `Decimal(i)`. */
  function ListAsFields(xs: seq<Json>): map<string, Json> {
    if xs == [] then map[] else ListAsFields(xs[..|xs| - 1])[Decimal(|xs| - 1) := xs[|xs| - 1]]
  }

  /** The keys of the decimal offsets below `n`. */
  function DecimalKeys(n: nat): set<string> {
    set i | 0 <= i < n :: Decimal(i)
  }

  lemma DecimalKeysStep(n: nat)
    ensures DecimalKeys(n + 1) == DecimalKeys(n) + {Decimal(n)}
  {
    forall k | k in DecimalKeys(n + 1) ensures k in DecimalKeys(n) + {Decimal(n)} {
      var i :| 0 <= i < n + 1 && k == Decimal(i);
      if i < n { assert k in DecimalKeys(n); }
    }
  }

  /** Turning a list into a keyed array keeps every element under its decimal offset. */
  lemma {:induction false} ListAsFieldsContent(xs: seq<Json>)
    ensures ListAsFields(xs).Keys == DecimalKeys(|xs|)
    ensures forall i :: 0 <= i < |xs| ==> ListAsFields(xs)[Decimal(i)] == xs[i]
    decreases |xs|
  {
    if xs != [] {
      var n := |xs| - 1;
      var prev := xs[..n];
      ListAsFieldsContent(prev);
      DecimalKeysStep(n);
      var m := ListAsFields(prev);
      assert ListAsFields(xs) == m[Decimal(n) := xs[n]];
      forall i | 0 <= i < n ensures ListAsFields(xs)[Decimal(i)] == xs[i] {
        if Decimal(i) == Decimal(n) { DecimalInjective(i, n); }
        assert m[Decimal(i)] == prev[i] == xs[i];
      }
    }
  }

  /**
   * The statement `$v[$name] = $x;` for a non-numeric string key (PHP 8):
   * a keyed array gets the entry, a list becomes a keyed array with it, null
   * and `false` become a one-entry array, and any other scalar throws.
   */
  function AssignField(v: Json, name: string, x: Json): (r: Result<Json>)
    ensures r.Err? <==> v.JStr? || v.JInt? || v == JBool(true)
    ensures r.Err? ==> r.failure == ScalarOffsetError
    ensures r.Ok? ==> r.value.JObj? && name in r.value.fields && r.value.fields[name] == x
    ensures v.JObj? ==> r.Ok? && r.value.fields.Keys == v.fields.Keys + {name}
    ensures v.JObj? ==> forall k :: k in v.fields && k != name ==> r.value.fields[k] == v.fields[k]
    ensures v.JArr? ==> r.Ok? && r.value.fields.Keys == DecimalKeys(|v.items|) + {name}
    ensures (v.JNull? || v == JBool(false)) ==> r == Ok(JObj(map[name := x]))
  {
    match v
    case JObj(m) => Ok(JObj(m[name := x]))
    case JArr(xs) => ListAsFieldsContent(xs); Ok(JObj(ListAsFields(xs)[name := x]))
    case JNull => Ok(JObj(map[name := x]))
    case JBool(b) => if b then Err(ScalarOffsetError) else Ok(JObj(map[name := x]))
    case _ => Err(ScalarOffsetError)
  }

  /** A string key PHP keeps as a string: it does not start like an integer. */
  predicate NonNumeric(name: string) {
    |name| > 0 && !('0' <= name[0] <= '9') && name[0] != '-'
  }

  /** Reading back after `$v[$name] = $x`: the key holds `x`, and every other key of a keyed array is as before. */
  lemma FieldAfterAssign(v: Json, name: string, x: Json, other: string)
    requires AssignField(v, name, x).Ok?
    ensures Field(AssignField(v, name, x).value, name) == Some(x)
    ensures v.JObj? && other != name ==> Field(AssignField(v, name, x).value, other) == Field(v, other)
  {
  }

  /** Writing a non-numeric key into an array leaves every integer offset as it was, a list's elements included. */
  lemma IndexAfterAssign(v: Json, name: string, x: Json, k: nat)
    requires NonNumeric(name)
    requires v.JArr? || v.JObj?
    ensures Index(AssignField(v, name, x).value, k) == Index(v, k)
  {
    var key := Decimal(k);
    assert '0' <= key[0] <= '9';
    assert key != name;
    if v.JArr? {
      ListAsFieldsContent(v.items);
      if k >= |v.items| && key in DecimalKeys(|v.items|) {
        var i :| 0 <= i < |v.items| && key == Decimal(i);
        DecimalInjective(i, k);
      }
    }
  }
}
