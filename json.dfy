/** Parsed JSON payloads as the ingestion code sees them after
    `response.json()`, and the Python operations it applies to them:
    subscripting by key and by position, `len`, iteration, `int()` and
    `float()`. */
module Json {
  import opened PyCore

  /** A parsed JSON value. An object keeps its members in document order;
      numbers with a fraction part are not modelled. */
  datatype Json =
    | JNull
    | JBool(b: bool)
    | JInt(i: int)
    | JStr(s: string)
    | JList(items: seq<Json>)
    | JObj(members: seq<(string, Json)>)

  /** A fetched HTTP response: its status code and its parsed body. */
  datatype Response = Response(status: int, body: Json)

  /** The value bound to `key`; `json.loads` keeps the last of duplicate keys. */
  function Binding(members: seq<(string, Json)>, key: string): (r: Option<Json>)
    ensures r.Some? <==> exists i :: 0 <= i < |members| && members[i].0 == key
  {
    if members == [] then None
    else if members[|members| - 1].0 == key then Some(members[|members| - 1].1)
    else Binding(members[..|members| - 1], key)
  }

  /** `j[key]` for a string key. */
  function Lookup(j: Json, key: string): (r: Result<Json>)
    ensures r.Raised? ==> r.error == KeyError || r.error == TypeError
  {
    match j
    case JObj(ms) => (match Binding(ms, key) case Some(v) => Ok(v) case None => Raised(KeyError))
    case _ => Raised(TypeError)
  }

  /** `j[idx]` for a non-negative integer index: an element of a list, or a
      one-character string; a dict raises KeyError (an int is not a key). */
  function Index(j: Json, idx: nat): (r: Result<Json>)
    ensures r.Ok? <==> (j.JList? && idx < |j.items|) || (j.JStr? && idx < |j.s|)
    ensures j.JList? && r.Ok? ==> r.value == j.items[idx]
    ensures r.Raised? ==> r.error == IndexError || r.error == KeyError || r.error == TypeError
  {
    match j
    case JList(items) => if idx < |items| then Ok(items[idx]) else Raised(IndexError)
    case JStr(s) => if idx < |s| then Ok(JStr([s[idx]])) else Raised(IndexError)
    case JObj(_) => Raised(KeyError)
    case _ => Raised(TypeError)
  }

  function Keys(members: seq<(string, Json)>): seq<string> {
    seq(|members|, i requires 0 <= i < |members| => members[i].0)
  }

  /** `len(j)`; an object counts its distinct keys. */
  function Len(j: Json): Result<nat> {
    match j
    case JList(items) => Ok(|items|)
    case JStr(s) => Ok(|s|)
    case JObj(ms) => Ok(|Dedup(Keys(ms))|)
    case _ => Raised(TypeError)
  }

  lemma LenZeroIffNoMembers(ms: seq<(string, Json)>)
    ensures Len(JObj(ms)) == Ok(0) <==> ms == []
  {
    if ms != [] {
      assert Keys(ms)[0] in Dedup(Keys(ms));
    }
  }

  function IsDigit(c: char): bool { '0' <= c <= '9' }

  predicate AllDigits(s: string) {
    forall i :: 0 <= i < |s| ==> IsDigit(s[i])
  }

  /** The number a run of decimal digits denotes. */
  function DigitsValue(s: string): (n: nat)
    requires AllDigits(s)
  {
    if s == [] then 0
    else DigitsValue(s[..|s| - 1]) * 10 + (s[|s| - 1] as int - '0' as int)
  }

  /** `int(s)` for a string: an optional sign and one or more decimal digits. */
  function ParseInt(s: string): Option<int> {
    if |s| > 0 && (s[0] == '-' || s[0] == '+') then
      var body := s[1..];
      if |body| > 0 && AllDigits(body) then
        var magnitude: int := DigitsValue(body);
        Some(if s[0] == '-' then -magnitude else magnitude)
      else None
    else if |s| > 0 && AllDigits(s) then Some(DigitsValue(s))
    else None
  }

  function Pow10(n: nat): (r: nat)
    ensures r >= 1
  {
    if n == 0 then 1 else 10 * Pow10(n - 1)
  }

  /** Position of the first '.', or |s| when there is none. */
  function DotAt(s: string): (k: nat)
    ensures k <= |s|
    ensures k < |s| ==> s[k] == '.'
    ensures forall i :: 0 <= i < k ==> s[i] != '.'
  {
    if s == [] then 0
    else if s[0] == '.' then 0
    else 1 + DotAt(s[1..])
  }

  /** A decimal without sign: digits, optionally '.' and more digits, at least one digit. */
  function ParseUnsignedDecimal(s: string): Option<real> {
    var k := DotAt(s);
    var whole, frac := s[..k], if k < |s| then s[k + 1..] else "";
    if AllDigits(whole) && AllDigits(frac) && |whole| + |frac| > 0 then
      Some(DigitsValue(whole) as real + DigitsValue(frac) as real / Pow10(|frac|) as real)
    else None
  }

  /** `float(s)` for a string in plain decimal notation. */
  function ParseDecimal(s: string): Option<real> {
    if |s| > 0 && (s[0] == '-' || s[0] == '+') then
      match ParseUnsignedDecimal(s[1..])
      case Some(x) => Some(if s[0] == '-' then -x else x)
      case None => None
    else ParseUnsignedDecimal(s)
  }

  /** `int(j)`. */
  function PyInt(j: Json): Result<int> {
    match j
    case JInt(i) => Ok(i)
    case JBool(b) => Ok(if b then 1 else 0)
    case JStr(s) => (match ParseInt(s) case Some(n) => Ok(n) case None => Raised(ValueError))
    case _ => Raised(TypeError)
  }

  /** `float(j)`. */
  function PyFloat(j: Json): Result<real> {
    match j
    case JInt(i) => Ok(i as real)
    case JBool(b) => Ok(if b then 1.0 else 0.0)
    case JStr(s) => (match ParseDecimal(s) case Some(x) => Ok(x) case None => Raised(ValueError))
    case _ => Raised(TypeError)
  }

  /** `str(n)` for a natural number. */
  function ShowNat(n: nat): (s: string)
    ensures |s| > 0 && AllDigits(s)
  {
    var d := [('0' as int + n % 10) as char];
    if n < 10 then d else ShowNat(n / 10) + d
  }

  /** `str(n)`. */
  function ShowInt(n: int): string {
    if n < 0 then "-" + ShowNat(-n) else ShowNat(n)
  }

  lemma {:induction false} DigitsOfShowNat(n: nat)
    ensures DigitsValue(ShowNat(n)) == n
  {
    var s := ShowNat(n);
    if n >= 10 {
      DigitsOfShowNat(n / 10);
      assert s[..|s| - 1] == ShowNat(n / 10);
    }
  }

  /** Reading back what `str` printed gives the number again. */
  lemma ParseShowInt(n: int)
    ensures ParseInt(ShowInt(n)) == Some(n)
  {
    if n < 0 {
      DigitsOfShowNat(-n);
      assert ShowInt(n)[1..] == ShowNat(-n);
    } else {
      DigitsOfShowNat(n);
    }
  }

  lemma {:induction false} DotAtDigits(s: string)
    requires AllDigits(s)
    ensures DotAt(s) == |s|
  {
    if s != [] {
      DotAtDigits(s[1..]);
    }
  }

  /** `float` accepts every string `int` accepts, with the same value. */
  lemma DecimalExtendsInt(s: string)
    requires ParseInt(s).Some?
    ensures ParseDecimal(s) == Some(ParseInt(s).value as real)
  {
    if |s| > 0 && (s[0] == '-' || s[0] == '+') {
      DotAtDigits(s[1..]);
      assert s[1..][..|s[1..]|] == s[1..];
    } else {
      DotAtDigits(s);
      assert s[..|s|] == s;
    }
  }

  /** `next(iter(j.items()))`: the first key of an object and its value. */
  function FirstItem(j: Json): Result<(string, Json)> {
    match j
    case JObj(ms) =>
      if ms == [] then Raised(StopIteration)
      else
        var k := ms[0].0;
        assert Binding(ms, k).Some? by { assert ms[0].0 == k; }
        Ok((k, Binding(ms, k).value))
    case _ => Raised(AttributeError)
  }
}
