/** Parsed JSON as the content generator's Python code sees it after
    `json.loads`, with the few Python operations it applies to the values:
    `dict.get`, subscripting, `len`, truth tests, iteration in `str.join`,
    and `str()` inside f-strings. */
module Json {
  import opened Text

  /** Numbers are integers; objects keep their members in text order,
      repeated keys included. */
  datatype Json =
    | JNull
    | JBool(b: bool)
    | JNum(n: int)
    | JStr(s: string)
    | JArr(items: seq<Json>)
    | JObj(members: seq<(string, Json)>)

  /** The Python exceptions these operations raise. */
  datatype PyError = KeyError | IndexError | TypeError | AttributeError | ValueError

  datatype PyResult<T> = Ok(value: T) | Raised(error: PyError)

  /** The value of `key`; `json.loads` keeps the last of repeated keys. */
  function Lookup(members: seq<(string, Json)>, key: string): (r: Option<Json>)
    ensures r.None? <==> forall i :: 0 <= i < |members| ==> members[i].0 != key
    ensures r.Some? ==> exists i :: (0 <= i < |members| && members[i] == (key, r.value) &&
                                     forall j :: i < j < |members| ==> members[j].0 != key)
    decreases |members|
  {
    if |members| == 0 then None
    else
      var last := members[|members| - 1];
      if last.0 == key then Some(last.1)
      else Lookup(members[..|members| - 1], key)
  }

  /** `d.get(key, default)` on an object. */
  function GetOr(members: seq<(string, Json)>, key: string, default: Json): (r: Json)
    ensures (forall i :: 0 <= i < |members| ==> members[i].0 != key) ==> r == default
    ensures Lookup(members, key).Some? ==> r == Lookup(members, key).value
  {
    match Lookup(members, key)
    case Some(v) => v
    case None => default
  }

  /** Python's truth test: None, False, 0, '', [] and {} are false. */
  predicate Truthy(j: Json)
  {
    match j
    case JNull => false
    case JBool(b) => b
    case JNum(n) => n != 0
    case JStr(s) => s != []
    case JArr(items) => items != []
    case JObj(members) => members != []
  }

  /** The keys of an object in the order Python's dict keeps them: each
      once, where it first appears. */
  function Keys(members: seq<(string, Json)>): (keys: seq<string>)
    ensures forall k :: k in keys <==> exists i :: 0 <= i < |members| && members[i].0 == k
    ensures forall i, j :: 0 <= i < j < |keys| ==> keys[i] != keys[j]
    decreases |members|
  {
    if |members| == 0 then []
    else
      var rest := Keys(members[..|members| - 1]);
      var k := members[|members| - 1].0;
      assert forall i :: 0 <= i < |members| - 1 ==> members[..|members| - 1][i] == members[i];
      if k in rest then rest else rest + [k]
  }

  /** `len(j)`. */
  function Len(j: Json): PyResult<nat>
  {
    match j
    case JStr(s) => Ok(|s|)
    case JArr(items) => Ok(|items|)
    case JObj(members) => Ok(|Keys(members)|)
    case _ => Raised(TypeError)
  }

  /** `j[0]`: object keys are strings, so an object has no key 0. */
  function First(j: Json): (r: PyResult<Json>)
    ensures j.JArr? && j.items != [] ==> r == Ok(j.items[0])
    ensures j.JStr? && j.s != [] ==> r == Ok(JStr([j.s[0]]))
    ensures (j.JArr? || j.JStr?) && r.Raised? ==> r.error == IndexError
    ensures j.JObj? ==> r == Raised(KeyError)
    ensures !(j.JArr? || j.JStr? || j.JObj?) ==> r == Raised(TypeError)
  {
    match j
    case JArr(items) => if items == [] then Raised(IndexError) else Ok(items[0])
    case JStr(s) => if s == [] then Raised(IndexError) else Ok(JStr([s[0]]))
    case JObj(_) => Raised(KeyError)
    case _ => Raised(TypeError)
  }

  /** `j[key]` with a string key. */
  function Member(j: Json, key: string): (r: PyResult<Json>)
    ensures r.Raised? ==> r.error in {KeyError, TypeError}
    ensures j.JObj? ==> (r.Ok? <==> exists i :: 0 <= i < |j.members| && j.members[i].0 == key)
    ensures r.Ok? ==> j.JObj? && Lookup(j.members, key) == Some(r.value)
    ensures !j.JObj? ==> r == Raised(TypeError)
    ensures j.JObj? && r.Raised? ==> r.error == KeyError
  {
    match j
    case JObj(members) =>
      (match Lookup(members, key)
       case Some(v) => Ok(v)
       case None => Raised(KeyError))
    case _ => Raised(TypeError)
  }

  /** The strings `str.join` iterates over: a list must hold only strings,
      a string gives its characters, an object its keys. */
  function JoinItems(j: Json): (r: PyResult<seq<string>>)
    ensures r.Raised? ==> r.error == TypeError
    ensures j.JArr? ==> (r.Ok? <==> forall i :: 0 <= i < |j.items| ==> j.items[i].JStr?)
  {
    match j
    case JArr(items) =>
      if forall i :: 0 <= i < |items| ==> items[i].JStr? then
        Ok(seq(|items|, i requires 0 <= i < |items| && items[i].JStr? => items[i].s))
      else Raised(TypeError)
    case JStr(s) => Ok(seq(|s|, i requires 0 <= i < |s| => [s[i]]))
    case JObj(members) => Ok(Keys(members))
    case _ => Raised(TypeError)
  }

  /** `sep.join(j)`. */
  function PyJoin(sep: string, j: Json): (r: PyResult<string>)
    ensures j.JArr? && (forall i :: 0 <= i < |j.items| ==> j.items[i].JStr?) ==> r.Ok?
    ensures j == JArr([]) ==> r == Ok([])
  {
    match JoinItems(j)
    case Ok(pieces) => Ok(Join(pieces, sep))
    case Raised(e) => Raised(e)
  }

  /** The decimal digits of a natural number. */
  function NatToDecimal(n: nat): (r: string)
    ensures r != [] && IsDigits(r)
    ensures |r| > 1 ==> r[0] != '0'
    decreases n
  {
    var d := ['0' + (n % 10) as char];
    if n < 10 then d else NatToDecimal(n / 10) + d
  }

  predicate IsDigits(s: string)
  {
    forall i :: 0 <= i < |s| ==> '0' <= s[i] <= '9'
  }

  /** The value of a string of decimal digits. */
  function DecimalValue(s: string): nat
    requires IsDigits(s)
    decreases |s|
  {
    if s == [] then 0 else 10 * DecimalValue(s[..|s| - 1]) + (s[|s| - 1] - '0') as nat
  }

  /** Reading the digits back gives the number. */
  lemma {:induction false} DecimalRoundTrip(n: nat)
    ensures DecimalValue(NatToDecimal(n)) == n
    decreases n
  {
    var r := NatToDecimal(n);
    if n >= 10 {
      DecimalRoundTrip(n / 10);
      assert r[..|r| - 1] == NatToDecimal(n / 10);
    }
  }

  /** `str(n)` for an integer. */
  function IntToDecimal(n: int): (r: string)
    ensures r != []
    ensures n >= 0 ==> IsDigits(r) && DecimalValue(r) == n
    ensures n < 0 ==> r[0] == '-' && IsDigits(r[1..]) && DecimalValue(r[1..]) == -n
  {
    DecimalRoundTrip(if n < 0 then -n else n);
    if n < 0 then "-" + NatToDecimal(-n) else NatToDecimal(n)
  }

  /** `str(j)` as an f-string writes it: a string as it is, None, True,
      False and integers as Python spells them. Lists and objects, which
      Python writes in its own repr syntax, are left out and give ''. */
  function PyStr(j: Json): (r: string)
    ensures j.JStr? ==> r == j.s
    ensures j == JNull ==> r == "None"
  {
    match j
    case JNull => "None"
    case JBool(b) => if b then "True" else "False"
    case JNum(n) => IntToDecimal(n)
    case JStr(s) => s
    case _ => []
  }
}
