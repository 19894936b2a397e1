/** String helpers used for file ordering and display names: natural-order
    keys (`atoi`, `natural_keys`), the stable sort of file names by those keys,
    `uglify` and `prettify_name`. Characters are classified as ASCII letters and
    digits; whitespace is Python's full `str.split()` set. */
module Text {
  import opened Wrappers
  import JsonValue

  predicate IsDigit(c: char) {
    '0' <= c <= '9'
  }

  /** `str.isdigit()`: non-empty and all digits. */
  predicate IsDigits(s: string) {
    |s| > 0 && forall k :: 0 <= k < |s| ==> IsDigit(s[k])
  }

  predicate NoDigits(s: string) {
    forall k :: 0 <= k < |s| ==> !IsDigit(s[k])
  }

  /** `int(s)` for a string of decimal digits. */
  function DigitsValue(s: string): nat
    requires forall k :: 0 <= k < |s| ==> IsDigit(s[k])
  {
    if |s| == 0 then 0
    else
      assert IsDigit(s[|s| - 1]);
      DigitsValue(s[..|s| - 1]) * 10 + (s[|s| - 1] as int - '0' as int)
  }

  /** One element of a natural key: a text chunk or a number. */
  datatype KeyPart = Text(s: string) | Num(n: int)

  /** `atoi(text)`: the integer value of a digit string, any other string as is. */
  function Atoi(text: string): (k: KeyPart)
    ensures k.Num? <==> IsDigits(text)
    ensures k.Text? ==> k.s == text
    ensures k.Num? ==> k.n >= 0 && k.n == DigitsValue(text)
  {
    if IsDigits(text) then Num(DigitsValue(text)) else Text(text)
  }

  /** Leading zeros do not change the value of a digit string. */
  lemma {:induction false} DigitsLeadingZero(s: string)
    requires forall k :: 0 <= k < |s| ==> IsDigit(s[k])
    ensures DigitsValue("0" + s) == DigitsValue(s)
  {
    var z := "0" + s;
    if |s| == 0 {
      assert z[..0] == "";
    } else {
      assert z[..|z| - 1] == "0" + s[..|s| - 1];
      DigitsLeadingZero(s[..|s| - 1]);
    }
  }

  /** `atoi` reads a digit string with leading zeros as the same number:
      `atoi("007") == atoi("7") == 7`. */
  lemma AtoiLeadingZero(s: string)
    requires IsDigits(s)
    ensures Atoi("0" + s) == Atoi(s)
  {
    assert forall k :: 0 < k < |"0" + s| ==> ("0" + s)[k] == s[k - 1];
    DigitsLeadingZero(s);
  }

  /** Reading back the decimal representation of a number gives the number. */
  lemma {:induction false} AtoiOfDecimal(n: nat)
    ensures Atoi(JsonValue.NatToString(n)) == Num(n)
  {
    DigitsOfDecimal(n);
  }

  lemma {:induction false} DigitsOfDecimal(n: nat)
    ensures DigitsValue(JsonValue.NatToString(n)) == n
  {
    var s := JsonValue.NatToString(n);
    if n < 10 {
      assert s == [JsonValue.DigitChar(n)];
      assert s[..0] == [];
      DigitCharValue(n);
    } else {
      assert s[..|s| - 1] == JsonValue.NatToString(n / 10);
      DigitsOfDecimal(n / 10);
      DigitCharValue(n % 10);
    }
  }

  lemma DigitCharValue(d: nat)
    requires d < 10
    ensures JsonValue.DigitChar(d) as int - '0' as int == d
  {
  }

  /** The length of the run of digits at the start of s. */
  function DigitRun(s: string): (n: nat)
    ensures n <= |s|
    ensures forall k :: 0 <= k < n ==> IsDigit(s[k])
    ensures n < |s| ==> !IsDigit(s[n])
  {
    if |s| > 0 && IsDigit(s[0]) then 1 + DigitRun(s[1..]) else 0
  }

  function Join(parts: seq<string>): string {
    if |parts| == 0 then "" else parts[0] + Join(parts[1..])
  }

  /** `re.split('(\d+)', text)`: the text between digit runs at even positions
      (possibly empty), the maximal digit runs themselves at odd positions. */
  function SplitDigits(text: string): (parts: seq<string>)
    ensures |parts| % 2 == 1
    decreases |text|
  {
    if |text| == 0 then [""]
    else if IsDigit(text[0]) then
      var n := DigitRun(text);
      ["", text[..n]] + SplitDigits(text[n..])
    else
      var rest := SplitDigits(text[1..]);
      [[text[0]] + rest[0]] + rest[1..]
  }

  /** Even parts hold no digit; odd parts are digit strings. */
  lemma {:induction false} SplitDigitsParts(text: string)
    ensures forall k :: 0 <= k < |SplitDigits(text)| && k % 2 == 0 ==> NoDigits(SplitDigits(text)[k])
    ensures forall k :: 0 <= k < |SplitDigits(text)| && k % 2 == 1 ==> IsDigits(SplitDigits(text)[k])
    decreases |text|
  {
    var parts := SplitDigits(text);
    if |text| == 0 {
    } else if IsDigit(text[0]) {
      var n := DigitRun(text);
      var rest := SplitDigits(text[n..]);
      SplitDigitsParts(text[n..]);
      assert forall k :: 2 <= k < |parts| ==> parts[k] == rest[k - 2];
    } else {
      var rest := SplitDigits(text[1..]);
      SplitDigitsParts(text[1..]);
      assert forall k :: 1 <= k < |parts| ==> parts[k] == rest[k];
      assert parts[0] == [text[0]] + rest[0];
    }
  }

  /** Between two digit runs there is always some text: the runs are maximal,
      so only the first and the last even part can be empty. */
  lemma {:induction false} SplitDigitsMaximal(text: string)
    ensures forall k :: 0 < k < |SplitDigits(text)| - 1 && k % 2 == 0 ==> |SplitDigits(text)[k]| > 0
    decreases |text|
  {
    var parts := SplitDigits(text);
    if |text| == 0 {
    } else if IsDigit(text[0]) {
      var n := DigitRun(text);
      var rest := SplitDigits(text[n..]);
      SplitDigitsMaximal(text[n..]);
      forall k | 0 < k < |parts| - 1 && k % 2 == 0
        ensures |parts[k]| > 0
      {
        assert parts[k] == rest[k - 2];
        if k == 2 {
          assert |text[n..]| > 0 && !IsDigit(text[n..][0]);
        }
      }
    } else {
      var rest := SplitDigits(text[1..]);
      SplitDigitsMaximal(text[1..]);
      assert forall k :: 1 <= k < |parts| ==> parts[k] == rest[k];
    }
  }

  /** The parts put back together give the text. */
  lemma {:induction false} SplitDigitsJoin(text: string)
    ensures Join(SplitDigits(text)) == text
    decreases |text|
  {
    if |text| == 0 {
    } else if IsDigit(text[0]) {
      SplitDigitsJoin(text[DigitRun(text)..]);
      JoinDigitStep(text);
    } else {
      SplitDigitsJoin(text[1..]);
      JoinTextStep(text);
    }
  }

  lemma JoinDigitStep(text: string)
    requires |text| > 0 && IsDigit(text[0])
    requires Join(SplitDigits(text[DigitRun(text)..])) == text[DigitRun(text)..]
    ensures Join(SplitDigits(text)) == text
  {
    var n := DigitRun(text);
    var rest := SplitDigits(text[n..]);
    assert SplitDigits(text) == ["", text[..n]] + rest;
    JoinFront(text, n, rest);
  }

  lemma JoinTextStep(text: string)
    requires |text| > 0 && !IsDigit(text[0])
    requires Join(SplitDigits(text[1..])) == text[1..]
    ensures Join(SplitDigits(text)) == text
  {
    JoinGlue(text[0], SplitDigits(text[1..]));
    assert text == [text[0]] + text[1..];
  }

  lemma JoinFront(t: string, n: nat, rest: seq<string>)
    requires n <= |t| && Join(rest) == t[n..]
    ensures Join(["", t[..n]] + rest) == t
  {
    assert (["", t[..n]] + rest)[1..] == [t[..n]] + rest;
    assert ([t[..n]] + rest)[1..] == rest;
    assert t[..n] + t[n..] == t;
  }

  lemma JoinGlue(c: char, rest: seq<string>)
    requires |rest| > 0
    ensures Join([[c] + rest[0]] + rest[1..]) == [c] + Join(rest)
  {
    assert ([[c] + rest[0]] + rest[1..])[1..] == rest[1..];
  }

  /** `natural_keys(text)`: `atoi` of every part of the split, in order. */
  function NaturalKeys(text: string): (keys: seq<KeyPart>)
    ensures |keys| == |SplitDigits(text)|
    ensures forall k :: 0 <= k < |keys| ==> keys[k] == Atoi(SplitDigits(text)[k])
    ensures |keys| % 2 == 1
    ensures forall k :: 0 <= k < |keys| ==> (keys[k].Text? <==> k % 2 == 0)
    ensures forall k :: 0 <= k < |keys| && k % 2 == 0 ==> NoDigits(keys[k].s)
  {
    var parts := SplitDigits(text);
    SplitDigitsParts(text);
    seq(|parts|, k requires 0 <= k < |parts| => Atoi(parts[k]))
  }

  // ----- Python's `<` on natural keys -----

  /** `<` on two str: code-point lexicographic order. */
  function StrLess(a: string, b: string): (r: bool)
    ensures a < b ==> r
    ensures b <= a ==> !r
  {
    if |a| == 0 then |b| > 0
    else if |b| == 0 then false
    else if a[0] != b[0] then a[0] < b[0]
    else StrLess(a[1..], b[1..])
  }

  /** `<` on two key parts: comparing a str with an int raises TypeError. */
  function PartLess(a: KeyPart, b: KeyPart): (r: Result<bool>)
    ensures r.Err? <==> a.Text? != b.Text?
    ensures r.Err? ==> r.error == TypeError
    ensures a.Num? && b.Num? ==> r == Ok(a.n < b.n)
  {
    match (a, b)
    case (Text(x), Text(y)) => Ok(StrLess(x, y))
    case (Num(x), Num(y)) => Ok(x < y)
    case _ => Err(TypeError)
  }

  /** `<` on two lists: the first differing elements decide; otherwise the shorter is smaller. */
  function KeysLess(a: seq<KeyPart>, b: seq<KeyPart>): (r: Result<bool>)
    ensures r.Err? ==> r.error == TypeError
    ensures a < b ==> r == Ok(true)
    ensures b <= a ==> r == Ok(false)
  {
    if |a| == 0 || |b| == 0 then Ok(|a| < |b|)
    else if a[0] != b[0] then PartLess(a[0], b[0])
    else KeysLess(a[1..], b[1..])
  }

  /** Text chunks sit where `(k + shift)` is even, numbers where it is odd. */
  ghost predicate Alternating(a: seq<KeyPart>, shift: nat) {
    forall k :: 0 <= k < |a| ==> (a[k].Text? <==> (k + shift) % 2 == 0)
  }

  lemma {:induction false} AlternatingComparable(a: seq<KeyPart>, b: seq<KeyPart>, shift: nat)
    requires Alternating(a, shift) && Alternating(b, shift)
    ensures KeysLess(a, b).Ok?
  {
    if |a| > 0 && |b| > 0 && a[0] == b[0] {
      assert forall k :: 0 <= k < |a| - 1 ==> a[1..][k] == a[k + 1];
      assert forall k :: 0 <= k < |b| - 1 ==> b[1..][k] == b[k + 1];
      AlternatingComparable(a[1..], b[1..], shift + 1);
    }
  }

  /** Comparing two natural keys never mixes a str with an int. */
  lemma NaturalKeysComparable(s: string, t: string)
    ensures KeysLess(NaturalKeys(s), NaturalKeys(t)).Ok?
  {
    AlternatingComparable(NaturalKeys(s), NaturalKeys(t), 0);
  }

  /** `natural_keys(s) < natural_keys(t)`. */
  predicate NaturalLess(s: string, t: string) {
    KeysLess(NaturalKeys(s), NaturalKeys(t)) == Ok(true)
  }

  lemma {:induction false} StrLessAsymmetric(a: string, b: string)
    ensures StrLess(a, b) ==> !StrLess(b, a)
  {
    if |a| > 0 && |b| > 0 && a[0] == b[0] {
      StrLessAsymmetric(a[1..], b[1..]);
    }
  }

  lemma {:induction false} KeysLessAsymmetric(a: seq<KeyPart>, b: seq<KeyPart>)
    ensures KeysLess(a, b) == Ok(true) ==> KeysLess(b, a) != Ok(true)
  {
    if |a| > 0 && |b| > 0 {
      if a[0] == b[0] {
        KeysLessAsymmetric(a[1..], b[1..]);
      } else if a[0].Text? && b[0].Text? {
        StrLessAsymmetric(a[0].s, b[0].s);
      }
    }
  }

  /** Numbers inside file names compare by value: "f2" sorts before "f10". */
  lemma NaturalOrderExample()
    ensures NaturalLess("f2", "f10") && !NaturalLess("f10", "f2")
  {
    assert DigitRun("") == 0;
    assert DigitRun("0") == 1 by { assert "0"[1..] == ""; }
    assert DigitRun("2") == 1 by { assert "2"[1..] == ""; }
    assert DigitRun("10") == 2 by { assert "10"[1..] == "0"; }
    assert SplitDigits("2") == ["", "2", ""] by {
      assert "2"[..1] == "2" && "2"[1..] == "";
    }
    assert SplitDigits("10") == ["", "10", ""] by {
      assert "10"[..2] == "10" && "10"[2..] == "";
    }
    assert SplitDigits("f2") == ["f", "2", ""] by {
      assert "f2"[0] == 'f' && !IsDigit('f') && "f2"[1..] == "2";
      assert ['f'] + "" == "f";
      assert ["", "2", ""][1..] == ["2", ""];
    }
    assert SplitDigits("f10") == ["f", "10", ""] by {
      assert "f10"[0] == 'f' && !IsDigit('f') && "f10"[1..] == "10";
      assert ['f'] + "" == "f";
      assert ["", "10", ""][1..] == ["10", ""];
    }
    assert DigitsValue("2") == 2 by { assert "2"[..0] == ""; }
    assert DigitsValue("10") == 10 by {
      assert "10"[..1] == "1";
      assert "1"[..0] == "";
    }
    assert NaturalKeys("f2") == [Text("f"), Num(2), Text("")];
    assert NaturalKeys("f10") == [Text("f"), Num(10), Text("")];
    assert NaturalKeys("f2")[1..] == [Num(2), Text("")];
    assert NaturalKeys("f10")[1..] == [Num(10), Text("")];
  }

  // ----- `sorted(files, key=natural_keys)` -----

  /** Insert x in front of the first entry whose key is greater, so that it
      follows every entry with an equal key (the sort is stable). */
  function InsertNatural(x: string, s: seq<string>): (r: seq<string>)
    ensures multiset(r) == multiset(s) + multiset{x}
  {
    if |s| == 0 then [x]
    else if NaturalLess(x, s[0]) then [x] + s
    else
      assert s == [s[0]] + s[1..];
      [s[0]] + InsertNatural(x, s[1..])
  }

  /** No entry's key is smaller than the key of the entry before it. */
  predicate NaturallySorted(s: seq<string>) {
    forall k :: 0 <= k < |s| - 1 ==> !NaturalLess(s[k + 1], s[k])
  }

  /** The names of s whose natural key is `key`, in the order of s. */
  function WithKey(s: seq<string>, key: seq<KeyPart>): seq<string> {
    if |s| == 0 then []
    else (if NaturalKeys(s[0]) == key then [s[0]] else []) + WithKey(s[1..], key)
  }

  /** `sorted(files, key=natural_keys)`: a permutation of the listing, in
      natural-key order, and stable: names with equal keys keep the order
      they had in the listing. */
  function NaturalSort(s: seq<string>): (r: seq<string>)
    ensures multiset(r) == multiset(s)
    ensures NaturallySorted(r)
    ensures forall key :: WithKey(r, key) == WithKey(s, key)
  {
    if |s| == 0 then []
    else
      var init, last := s[..|s| - 1], s[|s| - 1];
      assert s == init + [last];
      var sorted := NaturalSort(init);
      InsertNaturalSorted(last, sorted);
      forall key
        ensures WithKey(InsertNatural(last, sorted), key) == WithKey(s, key)
      {
        InsertNaturalStable(last, sorted, key);
        WithKeyConcat(init, [last], key);
      }
      InsertNatural(last, sorted)
  }

  lemma {:induction false} InsertNaturalSorted(x: string, s: seq<string>)
    requires NaturallySorted(s)
    ensures NaturallySorted(InsertNatural(x, s))
    ensures |s| > 0 ==> InsertNatural(x, s)[0] == x || InsertNatural(x, s)[0] == s[0]
  {
    if |s| > 0 {
      if NaturalLess(x, s[0]) {
        KeysLessAsymmetric(NaturalKeys(x), NaturalKeys(s[0]));
      } else {
        InsertNaturalSorted(x, s[1..]);
      }
    }
  }

  lemma {:induction false} WithKeyConcat(a: seq<string>, b: seq<string>, key: seq<KeyPart>)
    ensures WithKey(a + b, key) == WithKey(a, key) + WithKey(b, key)
  {
    if |a| == 0 {
      assert a + b == b;
    } else {
      WithKeyConcat(a[1..], b, key);
      ConcatStep(a[0], a[1..], b, key);
      assert a == [a[0]] + a[1..];
      assert a + b == [a[0]] + (a[1..] + b);
    }
  }

  lemma ConcatStep(y: string, t: seq<string>, b: seq<string>, key: seq<KeyPart>)
    requires WithKey(t + b, key) == WithKey(t, key) + WithKey(b, key)
    ensures WithKey([y] + (t + b), key) == WithKey([y] + t, key) + WithKey(b, key)
  {
    WithKeyCons(y, t + b, key);
    WithKeyCons(y, t, key);
  }

  lemma WithKeyCons(y: string, t: seq<string>, key: seq<KeyPart>)
    ensures WithKey([y] + t, key) == WithKey([y], key) + WithKey(t, key)
  {
    assert ([y] + t)[1..] == t && [y][1..] == [];
  }

  lemma SortedTail(s: seq<string>)
    requires NaturallySorted(s) && |s| > 0
    ensures NaturallySorted(s[1..])
  {
    assert forall k :: 0 <= k < |s| - 1 ==> s[1..][k] == s[k + 1];
  }

  /** Inserting x into a sorted list places it after every name with the same
      key, so among names with x's key it comes last. */
  lemma {:induction false} InsertNaturalStable(x: string, s: seq<string>, key: seq<KeyPart>)
    requires NaturallySorted(s)
    ensures WithKey(InsertNatural(x, s), key) == WithKey(s, key) + WithKey([x], key)
  {
    if |s| == 0 {
      assert WithKey(s, key) == [];
    } else if NaturalLess(x, s[0]) {
      assert InsertNatural(x, s) == [x] + s;
      InsertedFirst(x, s, key);
    } else {
      var t := s[1..];
      assert InsertNatural(x, s) == [s[0]] + InsertNatural(x, t);
      SortedTail(s);
      InsertNaturalStable(x, t, key);
      InsertedLater(s[0], t, InsertNatural(x, t), WithKey([x], key), key);
      assert s == [s[0]] + t;
    }
  }

  /** x goes in front of a sorted list whose first key is above its own. */
  lemma InsertedFirst(x: string, s: seq<string>, key: seq<KeyPart>)
    requires NaturallySorted(s) && |s| > 0 && NaturalLess(x, s[0])
    ensures WithKey([x] + s, key) == WithKey(s, key) + WithKey([x], key)
  {
    WithKeyCons(x, s, key);
    if NaturalKeys(x) == key {
      AllAbove(x, s);
      NoneWithKey(x, s);
      assert WithKey([x] + s, key) == WithKey([x], key) + [];
    } else {
      assert WithKey([x][1..], key) == [];
      assert WithKey([x] + s, key) == [] + WithKey(s, key);
    }
  }

  /** Putting the same name in front of two lists keeps their selections related. */
  lemma InsertedLater(y: string, t: seq<string>, u: seq<string>, w: seq<string>, key: seq<KeyPart>)
    requires WithKey(u, key) == WithKey(t, key) + w
    ensures WithKey([y] + u, key) == WithKey([y] + t, key) + w
  {
    WithKeyCons(y, u, key);
    WithKeyCons(y, t, key);
  }

  /** In a sorted list, a key below the first key is below all of them. */
  lemma {:induction false} AllAbove(x: string, s: seq<string>)
    requires NaturallySorted(s) && |s| > 0 && NaturalLess(x, s[0])
    ensures forall j :: 0 <= j < |s| ==> NaturalLess(x, s[j])
  {
    if |s| > 1 {
      assert !NaturalLess(s[1], s[0]);
      if NaturalLess(s[0], s[1]) {
        NaturalLessTransitive(x, s[0], s[1]);
      } else {
        NaturalLessTotal(s[0], s[1]);
      }
      assert forall k :: 0 <= k < |s| - 2 ==> s[1..][k] == s[k + 1];
      AllAbove(x, s[1..]);
      assert forall j :: 1 <= j < |s| ==> s[j] == s[1..][j - 1];
    }
  }

  /** No name whose key is above x's key has x's key. */
  lemma {:induction false} NoneWithKey(x: string, s: seq<string>)
    requires forall j :: 0 <= j < |s| ==> NaturalLess(x, s[j])
    ensures WithKey(s, NaturalKeys(x)) == []
  {
    if |s| > 0 {
      if NaturalKeys(s[0]) == NaturalKeys(x) {
        assert false;
      }
      assert forall j :: 0 <= j < |s| - 1 ==> s[1..][j] == s[j + 1];
      NoneWithKey(x, s[1..]);
    }
  }

  // ----- `<` on keys is a strict total order on natural keys -----

  lemma {:induction false} StrLessTransitive(a: string, b: string, c: string)
    requires StrLess(a, b) && StrLess(b, c)
    ensures StrLess(a, c)
  {
    if |a| > 0 && a[0] == b[0] && b[0] == c[0] {
      StrLessTransitive(a[1..], b[1..], c[1..]);
    }
  }

  lemma {:induction false} StrLessTotal(a: string, b: string)
    requires !StrLess(a, b) && !StrLess(b, a)
    ensures a == b
  {
    if |a| > 0 && |b| > 0 {
      StrLessTotal(a[1..], b[1..]);
      assert a == [a[0]] + a[1..] && b == [b[0]] + b[1..];
    }
  }

  lemma AlternatingTail(a: seq<KeyPart>, shift: nat)
    requires Alternating(a, shift) && |a| > 0
    ensures Alternating(a[1..], shift + 1)
  {
    assert forall k :: 0 <= k < |a| - 1 ==> a[1..][k] == a[k + 1];
  }

  lemma {:induction false} KeysLessTransitive(a: seq<KeyPart>, b: seq<KeyPart>, c: seq<KeyPart>, shift: nat)
    requires Alternating(a, shift) && Alternating(b, shift) && Alternating(c, shift)
    requires KeysLess(a, b) == Ok(true) && KeysLess(b, c) == Ok(true)
    ensures KeysLess(a, c) == Ok(true)
  {
    if |a| > 0 && |b| > 0 && |c| > 0 {
      if a[0] == b[0] && b[0] == c[0] {
        AlternatingTail(a, shift);
        AlternatingTail(b, shift);
        AlternatingTail(c, shift);
        KeysLessTransitive(a[1..], b[1..], c[1..], shift + 1);
      } else if a[0] != b[0] && b[0] != c[0] {
        if a[0].Text? {
          StrLessTransitive(a[0].s, b[0].s, c[0].s);
        }
      }
    }
  }

  lemma {:induction false} KeysLessTotal(a: seq<KeyPart>, b: seq<KeyPart>, shift: nat)
    requires Alternating(a, shift) && Alternating(b, shift)
    requires KeysLess(a, b) != Ok(true) && KeysLess(b, a) != Ok(true)
    ensures a == b
  {
    if |a| > 0 && |b| > 0 {
      if a[0] == b[0] {
        AlternatingTail(a, shift);
        AlternatingTail(b, shift);
        KeysLessTotal(a[1..], b[1..], shift + 1);
        assert a == [a[0]] + a[1..] && b == [b[0]] + b[1..];
      } else if a[0].Text? {
        StrLessTotal(a[0].s, b[0].s);
      }
    }
  }

  lemma NaturalLessTransitive(x: string, y: string, z: string)
    requires NaturalLess(x, y) && NaturalLess(y, z)
    ensures NaturalLess(x, z)
  {
    KeysLessTransitive(NaturalKeys(x), NaturalKeys(y), NaturalKeys(z), 0);
  }

  /** Two names neither of which sorts before the other have equal keys. */
  lemma NaturalLessTotal(x: string, y: string)
    requires !NaturalLess(x, y) && !NaturalLess(y, x)
    ensures NaturalKeys(x) == NaturalKeys(y)
  {
    KeysLessTotal(NaturalKeys(x), NaturalKeys(y), 0);
  }

  // ----- uglify and prettify_name -----

  /** `str.isspace()` for one character. */
  predicate IsSpace(c: char) {
    || c == ' ' || '\t' <= c <= '\r' || '\U{1C}' <= c <= '\U{1F}'
    || c == '\U{85}' || c == '\U{A0}' || c == '\U{1680}' || '\U{2000}' <= c <= '\U{200A}'
    || c == '\U{2028}' || c == '\U{2029}' || c == '\U{202F}' || c == '\U{205F}' || c == '\U{3000}'
  }

  /** `str.isspace` holds for the ASCII blanks and for Unicode spaces such as
      the no-break space, but not for the zero-width space. */
  lemma IsSpaceExamples()
    ensures IsSpace(' ') && IsSpace('\t') && IsSpace('\n') && IsSpace('\U{A0}') && IsSpace('\U{3000}')
    ensures !IsSpace('a') && !IsSpace('_') && !IsSpace('\U{200B}')
  {
  }

  predicate IsUpper(c: char) {
    'A' <= c <= 'Z'
  }

  predicate IsLower(c: char) {
    'a' <= c <= 'z'
  }

  predicate IsLetter(c: char) {
    IsUpper(c) || IsLower(c)
  }

  /** `str.lower()` on one character: an upper-case letter becomes the
      matching lower-case letter; any other character is kept. */
  function LowerChar(c: char): (d: char)
    ensures IsUpper(c) ==> IsLower(d) && d as int == c as int + 32
    ensures !IsUpper(c) ==> d == c
    ensures !IsUpper(d) && IsLetter(d) == IsLetter(c) && IsSpace(d) == IsSpace(c)
  {
    if IsUpper(c) then (c as int + 32) as char else c
  }

  /** `str.upper()` on one character: a lower-case letter becomes the
      matching upper-case letter; any other character is kept. */
  function UpperChar(c: char): (d: char)
    ensures IsLower(c) ==> IsUpper(d) && d as int == c as int - 32
    ensures !IsLower(c) ==> d == c
    ensures !IsLower(d) && IsLetter(d) == IsLetter(c)
  {
    if IsLower(c) then (c as int - 32) as char else c
  }

  /** `s.lower()` */
  function Lower(s: string): (r: string)
    ensures |r| == |s|
    ensures forall k :: 0 <= k < |s| ==> r[k] == LowerChar(s[k])
  {
    seq(|s|, k requires 0 <= k < |s| => LowerChar(s[k]))
  }

  /** `"".join(s.split())`: every whitespace character removed. */
  function RemoveSpaces(s: string): (r: string)
    ensures |r| <= |s|
  {
    if |s| == 0 then ""
    else (if IsSpace(s[0]) then "" else [s[0]]) + RemoveSpaces(s[1..])
  }

  /** `uglify(t)`: lower case, no whitespace. The result is the
      non-whitespace characters of t, in order, each lower-cased. */
  function Uglify(t: string): (r: string)
    ensures |r| <= |t|
    ensures r == Lower(RemoveSpaces(t))
    ensures forall k :: 0 <= k < |r| ==> !IsSpace(r[k]) && !IsUpper(r[k])
  {
    var lowered := Lower(t);
    RemoveSpacesKeeps(lowered);
    LowerRemoveSpaces(t);
    RemoveSpaces(lowered)
  }

  /** Lower-casing and removing whitespace commute, since lower-casing
      neither creates nor removes whitespace. */
  lemma {:induction false} LowerRemoveSpaces(s: string)
    ensures RemoveSpaces(Lower(s)) == Lower(RemoveSpaces(s))
  {
    if |s| > 0 {
      LowerRemoveSpaces(s[1..]);
      assert Lower(s)[1..] == Lower(s[1..]);
      var tail := RemoveSpaces(s[1..]);
      if !IsSpace(s[0]) {
        assert RemoveSpaces(s) == [s[0]] + tail;
        assert Lower([s[0]] + tail) == [LowerChar(s[0])] + Lower(tail);
      }
    }
  }

  lemma {:induction false} RemoveSpacesKeeps(s: string)
    ensures forall k :: 0 <= k < |RemoveSpaces(s)| ==> !IsSpace(RemoveSpaces(s)[k]) && RemoveSpaces(s)[k] in s
  {
    if |s| > 0 {
      RemoveSpacesKeeps(s[1..]);
      var r := RemoveSpaces(s);
      var tail := RemoveSpaces(s[1..]);
      forall k | 0 <= k < |r|
        ensures !IsSpace(r[k]) && r[k] in s
      {
        if !IsSpace(s[0]) && k == 0 {
        } else {
          var j := if IsSpace(s[0]) then k else k - 1;
          assert r[k] == tail[j];
          assert tail[j] in s[1..];
        }
      }
    }
  }

  lemma {:induction false} RemoveSpacesConcat(a: string, b: string)
    ensures RemoveSpaces(a + b) == RemoveSpaces(a) + RemoveSpaces(b)
  {
    if |a| > 0 {
      assert (a + b)[1..] == a[1..] + b;
      RemoveSpacesConcat(a[1..], b);
    } else {
      assert a + b == b;
    }
  }

  lemma {:induction false} RemoveSpacesNone(s: string)
    requires forall k :: 0 <= k < |s| ==> !IsSpace(s[k])
    ensures RemoveSpaces(s) == s
  {
    if |s| > 0 {
      RemoveSpacesNone(s[1..]);
    }
  }

  /** `uglify` is idempotent. */
  lemma UglifyIdempotent(t: string)
    ensures Uglify(Uglify(t)) == Uglify(t)
  {
    var u := Uglify(t);
    assert Lower(u) == u;
    RemoveSpacesNone(u);
  }

  /** Whitespace inserted anywhere does not change the result. */
  lemma UglifyIgnoresSpacing(a: string, w: string, b: string)
    requires forall k :: 0 <= k < |w| ==> IsSpace(w[k])
    ensures Uglify(a + w + b) == Uglify(a + b)
  {
    var la, lw, lb := Lower(a), Lower(w), Lower(b);
    LowerConcat(a + w, b);
    LowerConcat(a, w);
    LowerConcat(a, b);
    RemoveSpacesConcat(la + lw, lb);
    RemoveSpacesConcat(la, lw);
    RemoveSpacesConcat(la, lb);
    RemoveSpacesAll(lw);
    assert RemoveSpaces(la) + "" == RemoveSpaces(la);
  }

  lemma LowerConcat(a: string, b: string)
    ensures Lower(a + b) == Lower(a) + Lower(b)
  {
  }

  lemma {:induction false} RemoveSpacesAll(s: string)
    requires forall k :: 0 <= k < |s| ==> IsSpace(s[k])
    ensures RemoveSpaces(s) == ""
  {
    if |s| > 0 {
      RemoveSpacesAll(s[1..]);
    }
  }

  /** `" ".join(s.split("_"))`: every underscore becomes a space. */
  function UnderscoresToSpaces(s: string): (r: string)
    ensures |r| == |s|
    ensures forall k :: 0 <= k < |s| ==> r[k] == if s[k] == '_' then ' ' else s[k]
  {
    seq(|s|, k requires 0 <= k < |s| => if s[k] == '_' then ' ' else s[k])
  }

  /** `str.title()`: a letter is upper-cased after a non-letter (or at the
      start) and lower-cased after a letter; other characters are kept. */
  function TitleFrom(s: string, afterLetter: bool): (r: string)
    ensures |r| == |s|
  {
    if |s| == 0 then ""
    else [if afterLetter then LowerChar(s[0]) else UpperChar(s[0])] + TitleFrom(s[1..], IsLetter(s[0]))
  }

  lemma {:induction false} TitleAt(s: string, afterLetter: bool, k: nat)
    requires k < |s|
    ensures TitleFrom(s, afterLetter)[k] ==
      if (if k == 0 then afterLetter else IsLetter(s[k - 1])) then LowerChar(s[k]) else UpperChar(s[k])
  {
    if k > 0 {
      TitleAt(s[1..], IsLetter(s[0]), k - 1);
    }
  }

  /** `prettify_name(s)`: underscores become spaces, each word starts with a
      capital and continues in lower case. */
  function PrettifyName(s: string): (r: string)
    ensures |r| == |s|
    ensures forall k :: 0 <= k < |s| && s[k] == '_' ==> r[k] == ' '
    ensures forall k :: 0 <= k < |s| && !IsLetter(s[k]) && s[k] != '_' ==> r[k] == s[k]
    ensures forall k :: 0 <= k < |s| && IsLetter(s[k]) ==>
      r[k] == (if k > 0 && IsLetter(s[k - 1]) then LowerChar(s[k]) else UpperChar(s[k]))
  {
    var spaced := UnderscoresToSpaces(s);
    var r := TitleFrom(spaced, false);
    forall k | 0 <= k < |s|
      ensures r[k] == if (k > 0 && IsLetter(s[k - 1])) then LowerChar(spaced[k]) else UpperChar(spaced[k])
    {
      TitleAt(spaced, false, k);
      if k > 0 {
        assert IsLetter(spaced[k - 1]) == IsLetter(s[k - 1]);
      }
    }
    r
  }
}
