/** Values as the PHP client handles them: decoded JSON, PHP truthiness,
    string conversion, and ordered arrays keyed by strings. */
module PhpValues {

  datatype Option<+T> = None | Some(value: T)

  /** A value produced by json_decode: JSON objects become objects whose
      properties keep the order in which they were sent. */
  datatype Json =
    | Null
    | Bool(b: bool)
    | Num(n: int)
    | Str(s: string)
    | Arr(items: seq<Json>)
    | Obj(props: seq<(string, Json)>)

  /** An ordered PHP array from string keys to values. A PHP array never
      holds a key twice; `Put` keeps that so, but the type does not enforce
      it for an array a caller builds, and `Lookup` then reads the first. */
  type Assoc<V> = seq<(string, V)>

  /** An ordered PHP array from string keys to strings (query, cookie, header arrays). */
  type StringMap = Assoc<string>

  /** The keys of an ordered array. */
  function Keys<V>(m: Assoc<V>): set<string>
  {
    set i | 0 <= i < |m| :: m[i].0
  }

  /** `$m[$k]`: the value stored under `k`, if any. */
  function Lookup<V>(m: Assoc<V>, k: string): (r: Option<V>)
    ensures r.Some? <==> k in Keys(m)
  {
    if |m| == 0 then None
    else if m[0].0 == k then Some(m[0].1)
    else
      assert Keys(m) == {m[0].0} + Keys(m[1..]) by {
        forall j | j in Keys(m) ensures j in {m[0].0} + Keys(m[1..]) {
          var i :| 0 <= i < |m| && m[i].0 == j;
          if i > 0 { assert m[1..][i - 1] == m[i]; }
        }
        forall j | j in Keys(m[1..]) ensures j in Keys(m) {
          var i :| 0 <= i < |m[1..]| && m[1..][i].0 == j;
          assert m[i + 1] == m[1..][i];
        }
      }
      Lookup(m[1..], k)
  }

  /** `$m[$k] = $v`: an existing key keeps its position and takes the new
      value; a new key is appended at the end. */
  function Put<V>(m: Assoc<V>, k: string, v: V): (r: Assoc<V>)
    ensures Keys(r) == Keys(m) + {k}
    ensures Lookup(r, k) == Some(v)
    ensures forall j :: j != k ==> Lookup(r, j) == Lookup(m, j)
    ensures k !in Keys(m) ==> r == m + [(k, v)]
  {
    if |m| == 0 then
      var r := [(k, v)];
      assert r[0].0 == k;
      assert Keys(r) == {k};
      r
    else if m[0].0 == k then
      var r := [(k, v)] + m[1..];
      assert Keys(r) == Keys(m) by {
        forall j | j in Keys(m) ensures j in Keys(r) {
          var i :| 0 <= i < |m| && m[i].0 == j;
          assert r[i].0 == j;
        }
        forall j | j in Keys(r) ensures j in Keys(m) {
          var i :| 0 <= i < |r| && r[i].0 == j;
          assert m[i].0 == j;
        }
      }
      assert r[1..] == m[1..];
      r
    else
      var rest := Put(m[1..], k, v);
      var r := [m[0]] + rest;
      assert r[1..] == rest;
      assert Keys(r) == Keys(m) + {k} by {
        forall j | j in Keys(m) + {k} ensures j in Keys(r) {
          if j == m[0].0 {
            assert r[0].0 == j;
          } else if j in Keys(m) {
            var i :| 0 <= i < |m| && m[i].0 == j;
            assert m[1..][i - 1].0 == j;
            assert j in Keys(m[1..]);
            assert j in Keys(rest);
            var i' :| 0 <= i' < |rest| && rest[i'].0 == j;
            assert r[i' + 1].0 == j;
          } else {
            assert j == k && k in Keys(rest);
            var i' :| 0 <= i' < |rest| && rest[i'].0 == j;
            assert r[i' + 1].0 == j;
          }
        }
        forall j | j in Keys(r) ensures j in Keys(m) + {k} {
          var i :| 0 <= i < |r| && r[i].0 == j;
          if i > 0 {
            assert rest[i - 1].0 == j;
            assert j in Keys(m[1..]) + {k};
            if j != k {
              var i' :| 0 <= i' < |m[1..]| && m[1..][i'].0 == j;
              assert m[i' + 1].0 == j;
            }
          }
        }
      }
      r
  }

  /** PHP's truthiness of a string: only "" and "0" are false. */
  predicate TruthyText(s: string)
  {
    s != "" && s != "0"
  }

  /** PHP's truthiness of a decoded value (`if ($x)`). */
  predicate Truthy(j: Json)
  {
    match j
    case Null => false
    case Bool(b) => b
    case Num(n) => n != 0
    case Str(s) => TruthyText(s)
    case Arr(items) => |items| > 0
    case Obj(_) => true
  }

  /** `property_exists($j, $name)` for a decoded value: only objects have properties. */
  predicate HasProperty(j: Json, name: string)
  {
    j.Obj? && name in Keys(j.props)
  }

  /** `$j->$name`: the property's value, or null when `j` is not an object
      or lacks the property. */
  function Get(j: Json, name: string): (r: Json)
    ensures !HasProperty(j, name) ==> r == Null
  {
    match j
    case Obj(props) =>
      (match Lookup(props, name)
       case Some(v) => v
       case None => Null)
    case _ => Null
  }

  /** The properties a `foreach` visits; values that are not objects yield none. */
  function Props(j: Json): Assoc<Json>
  {
    if j.Obj? then j.props else []
  }

  /** PHP's `strtolower` on one character (ASCII letters only). */
  function LowerChar(c: char): char
  {
    if 'A' <= c <= 'Z' then (c as int + 32) as char else c
  }

  /** PHP's `strtolower`: ASCII letters are lowered, everything else is kept. */
  function ToLower(s: string): (r: string)
    ensures |r| == |s|
    ensures forall i :: 0 <= i < |s| ==> r[i] == LowerChar(s[i])
  {
    if |s| == 0 then "" else [LowerChar(s[0])] + ToLower(s[1..])
  }

  function DigitChar(d: nat): char
    requires d < 10
  {
    "0123456789"[d]
  }

  /** Decimal digits of a natural number, most significant first. */
  function Digits(n: nat): (r: string)
    ensures |r| > 0
  {
    if n < 10 then [DigitChar(n)] else Digits(n / 10) + [DigitChar(n % 10)]
  }

  /** The decimal text PHP prints for an integer (sprintf's `%d`, string casts). */
  function Decimal(n: int): string
  {
    if n < 0 then "-" + Digits(-n) else Digits(n)
  }

  /** The string PHP makes of a decoded value when it is used as text
      (concatenation, sprintf's `%s`). An object cannot be converted and
      PHP raises there; the model uses "" for it. */
  function Text(j: Json): string
  {
    match j
    case Null => ""
    case Bool(b) => if b then "1" else ""
    case Num(n) => Decimal(n)
    case Str(s) => s
    case Arr(_) => "Array"
    case Obj(_) => ""
  }
}
