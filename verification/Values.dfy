/** Values shared by every component: optional results and the JSON values that nodes exchange. */
module Values {

  datatype Option<+T> = None | Some(value: T)

  /** A decoded JSON value. Encoding and decoding are taken to be faithful. */
  datatype Json =
    | JNull
    | JBool(b: bool)
    | JNum(n: int)
    | JStr(s: string)
    | JArr(items: seq<Json>)
    | JObj(fields: map<string, Json>)

  /** The map that gives each of the keys the value of `f`. */
  ghost function Tabulate<K(!new), V(!new)>(keys: set<K>, f: K --> V): (m: map<K, V>)
    requires forall k :: k in keys ==> f.requires(k)
    ensures m.Keys == keys && forall k :: k in keys ==> m[k] == f(k)
  {
    if keys == {} then map[]
    else
      var k :| k in keys;
      Tabulate(keys - {k}, f)[k := f(k)]
  }

  // ----- decimal numerals, as they appear in node ids

  const DIGITS := "0123456789"

  function Itoa(n: nat): (s: string)
    ensures |s| > 0
  {
    if n < 10 then [DIGITS[n]] else Itoa(n / 10) + [DIGITS[n % 10]]
  }

  lemma DigitsDiffer(a: nat, b: nat)
    requires a < 10 && b < 10 && DIGITS[a] == DIGITS[b]
    ensures a == b
  {
    assert forall i :: 0 <= i < 10 ==> DIGITS[i] as int == '0' as int + i;
  }

  lemma {:induction false} ItoaInjective(a: nat, b: nat)
    requires Itoa(a) == Itoa(b)
    ensures a == b
  {
    var s := Itoa(a);
    var last := s[|s| - 1];
    DigitsDiffer(a % 10, b % 10);
    if a >= 10 && b >= 10 {
      assert Itoa(a / 10) == s[..|s| - 1] == Itoa(b / 10);
      ItoaInjective(a / 10, b / 10);
    }
  }

  lemma {:induction false} ItoaDigits(n: nat, k: nat)
    requires k < |Itoa(n)|
    ensures Itoa(n)[k] in DIGITS
  {
    if n >= 10 && k < |Itoa(n)| - 1 {
      ItoaDigits(n / 10, k);
    }
  }
}
