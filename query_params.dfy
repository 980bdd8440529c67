/**
 * Request parameters as the ordered key/value list handed to PHP's
 * `http_build_query` (percent-encoding is not modelled), and the
 * space-joined scope list of section 3.3 of RFC 6749.
 */
module QueryParams {
  import opened PhpValues

  datatype Param = Param(key: string, value: string)

  function Keys(ps: seq<Param>): (ks: seq<string>)
    ensures |ks| == |ps|
    ensures forall i :: 0 <= i < |ps| ==> ks[i] == ps[i].key
  {
    if ps == [] then [] else [ps[0].key] + Keys(ps[1..])
  }

  /** The value a reader of the query takes for `key`: that of its first occurrence. */
  function Lookup(ps: seq<Param>, key: string): (o: Option<string>)
    ensures o.None? <==> key !in Keys(ps)
  {
    if ps == [] then None
    else if ps[0].key == key then Some(ps[0].value)
    else
      assert Keys(ps) == [ps[0].key] + Keys(ps[1..]);
      Lookup(ps[1..], key)
  }

  /** A key whose earlier entries all carry other keys is looked up to its own value. */
  lemma {:induction false} LookupFirstOccurrence(ps: seq<Param>, i: nat)
    requires i < |ps|
    requires forall j :: 0 <= j < i ==> ps[j].key != ps[i].key
    ensures Lookup(ps, ps[i].key) == Some(ps[i].value)
  {
    if i > 0 {
      LookupFirstOccurrence(ps[1..], i - 1);
    }
  }

  /** PHP `implode($glue, $pieces)`. */
  function Implode(glue: string, pieces: seq<string>): string {
    if |pieces| == 0 then ""
    else if |pieces| == 1 then pieces[0]
    else pieces[0] + glue + Implode(glue, pieces[1..])
  }

  /**
   * Splitting a space-delimited list back into its parts, as the receiver of
   * a `scope` parameter does (section 3.3 of RFC 6749).
   */
  function Explode(delimiter: char, s: string): (parts: seq<string>)
    ensures |parts| > 0
  {
    if s == [] then [""]
    else
      var rest := Explode(delimiter, s[1..]);
      if s[0] == delimiter then [""] + rest else [[s[0]] + rest[0]] + rest[1..]
  }

  lemma {:induction false} ExplodeWithoutDelimiter(delimiter: char, a: string)
    requires delimiter !in a
    ensures Explode(delimiter, a) == [a]
  {
    if a != [] {
      ExplodeWithoutDelimiter(delimiter, a[1..]);
      assert [a[0]] + a[1..] == a;
    }
  }

  lemma {:induction false} ExplodeAfterPiece(delimiter: char, a: string, t: string)
    requires delimiter !in a
    ensures Explode(delimiter, a + [delimiter] + t) == [a] + Explode(delimiter, t)
  {
    var s := a + [delimiter] + t;
    if a == [] {
      assert s[1..] == t;
    } else {
      assert s[1..] == a[1..] + [delimiter] + t;
      ExplodeAfterPiece(delimiter, a[1..], t);
      assert [a[0]] + a[1..] == a;
    }
  }

  /** Joining pieces that hold no delimiter and splitting the result gives the pieces back. */
  lemma {:induction false} ExplodeImplode(delimiter: char, pieces: seq<string>)
    requires |pieces| > 0
    requires forall i :: 0 <= i < |pieces| ==> delimiter !in pieces[i]
    ensures Explode(delimiter, Implode([delimiter], pieces)) == pieces
  {
    if |pieces| == 1 {
      ExplodeWithoutDelimiter(delimiter, pieces[0]);
    } else {
      ExplodeImplode(delimiter, pieces[1..]);
      ExplodeAfterPiece(delimiter, pieces[0], Implode([delimiter], pieces[1..]));
      assert [pieces[0]] + pieces[1..] == pieces;
    }
  }
}
