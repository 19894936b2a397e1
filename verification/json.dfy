/** The values `json.load` produces, as the Python code sees them: `None`,
    `bool`, `int`, `float`, `str`, `list` and `dict` (kept in insertion order). */
module JsonValue {

  datatype Json =
    | JNull
    | JBool(b: bool)
    | JInt(i: int)
    | JFloat(r: real)
    | JStr(s: string)
    | JArray(items: seq<Json>)
    | JObject(members: seq<Member>)

  datatype Member = Member(key: string, value: Json)

  /** `d.get(key)` on a dict: the value of the last member with that key
      (json.load keeps the last of duplicated keys), `None` when absent. */
  function Lookup(members: seq<Member>, key: string): (v: Json)
    ensures (forall i :: 0 <= i < |members| ==> members[i].key != key) ==> v == JNull
  {
    if |members| == 0 then JNull
    else if members[|members| - 1].key == key then members[|members| - 1].value
    else Lookup(members[..|members| - 1], key)
  }

  ghost predicate DistinctKeys(members: seq<Member>) {
    forall i, j :: 0 <= i < j < |members| ==> members[i].key != members[j].key
  }

  function Keys(members: seq<Member>): (ks: seq<string>)
    ensures |ks| == |members|
    ensures forall i :: 0 <= i < |members| ==> ks[i] == members[i].key
  {
    if |members| == 0 then [] else Keys(members[..|members| - 1]) + [members[|members| - 1].key]
  }

  /** In a dict without duplicated keys, `get` returns the value stored under the key. */
  lemma {:induction false} LookupDistinct(members: seq<Member>, i: nat)
    requires i < |members|
    requires DistinctKeys(members)
    ensures Lookup(members, members[i].key) == members[i].value
  {
    if i < |members| - 1 {
      LookupDistinct(members[..|members| - 1], i);
    }
  }

  /** Members whose keys are not looked up do not change what `get` returns. */
  lemma {:induction false} LookupIgnoresOtherKeys(members: seq<Member>, extra: seq<Member>, key: string)
    requires forall i :: 0 <= i < |extra| ==> extra[i].key != key
    ensures Lookup(members + extra, key) == Lookup(members, key)
  {
    if |extra| > 0 {
      var all := members + extra;
      assert all[..|all| - 1] == members + extra[..|extra| - 1];
      LookupIgnoresOtherKeys(members, extra[..|extra| - 1], key);
    } else {
      assert members + extra == members;
    }
  }

  // ----- Python's str() of a value -----

  function DigitChar(d: nat): (c: char)
    requires d < 10
    ensures '0' <= c <= '9'
  {
    "0123456789"[d]
  }

  function NatToString(n: nat): (s: string)
    ensures |s| > 0
    ensures forall k :: 0 <= k < |s| ==> '0' <= s[k] <= '9'
  {
    if n < 10 then [DigitChar(n)] else NatToString(n / 10) + [DigitChar(n % 10)]
  }

  /** `str(i)` for a Python int: decimal digits, a leading '-' when negative. */
  function IntToString(i: int): (s: string)
    ensures |s| > 0
    ensures i >= 0 ==> s == NatToString(i)
    ensures i < 0 ==> s == "-" + NatToString(-i)
  {
    if i < 0 then "-" + NatToString(-i) else NatToString(i)
  }

  /** `str(m)` for a float that is not negative: its integer part, then ".0"
      for a whole number and a fixed marker otherwise (see README). */
  function MagnitudeString(m: real): (t: string)
    requires m >= 0.0
    ensures NatToString(m.Floor) <= t
  {
    NatToString(m.Floor) + (if m == m.Floor as real then ".0" else ".~")
  }

  /** `str(x)` for a float: a '-' for a negative number, then the string of
      its magnitude. */
  function FloatToString(r: real): (t: string)
    ensures r >= 0.0 ==> NatToString(r.Floor) <= t
    ensures r < 0.0 ==> |t| > 0 && t[0] == '-' && NatToString((-r).Floor) <= t[1..]
  {
    if r < 0.0 then "-" + MagnitudeString(-r) else MagnitudeString(r)
  }

  /** A whole number prints as Python prints it: `str(3.0) == "3.0"`,
      `str(-3.0) == "-3.0"`. */
  lemma FloatOfInt(n: int)
    ensures FloatToString(n as real) == IntToString(n) + ".0"
  {
    if n < 0 {
      assert -(n as real) == (-n) as real;
    }
  }

  /** `str(-x) == "-" + str(x)` for every positive float x. */
  lemma FloatToStringNegate(x: real)
    requires x > 0.0
    ensures FloatToString(-x) == "-" + FloatToString(x)
  {
    assert -(-x) == x;
  }

  /** Python's `str(v)`. */
  function PyStr(v: Json): (r: string)
    ensures v.JStr? ==> r == v.s
    ensures v.JInt? ==> r == IntToString(v.i)
    ensures v.JArray? ==> |r| >= 2 && r[0] == '[' && r[|r| - 1] == ']'
    ensures v.JObject? ==> |r| >= 2 && r[0] == '{' && r[|r| - 1] == '}'
    decreases v, 2
  {
    match v
    case JNull => "None"
    case JBool(b) => if b then "True" else "False"
    case JInt(i) => IntToString(i)
    case JFloat(r) => FloatToString(r)
    case JStr(s) => s
    case JArray(_) => "[" + ReprItems(v, 0) + "]"
    case JObject(_) => "{" + ReprMembers(v, 0) + "}"
  }

  /** `repr(v)`, used for the elements of a list or dict: strings are quoted. */
  function Repr(v: Json): (r: string)
    ensures v.JStr? ==> |r| == |v.s| + 2 && r[0] == '\'' && r[|r| - 1] == '\'' && r[1..|r| - 1] == v.s
    ensures !v.JStr? ==> r == PyStr(v)
    decreases v, 3
  {
    if v.JStr? then "'" + v.s + "'" else PyStr(v)
  }

  function ReprItems(v: Json, i: nat): string
    requires v.JArray? && i <= |v.items|
    decreases v, 1, |v.items| - i
  {
    if i == |v.items| then ""
    else (if i == 0 then "" else ", ") + Repr(v.items[i]) + ReprItems(v, i + 1)
  }

  function ReprMembers(v: Json, i: nat): string
    requires v.JObject? && i <= |v.members|
    decreases v, 1, |v.members| - i
  {
    if i == |v.members| then ""
    else
      assert v.members[i].value < v.members[i];
      (if i == 0 then "" else ", ") + "'" + v.members[i].key + "': "
        + Repr(v.members[i].value) + ReprMembers(v, i + 1)
  }
}
