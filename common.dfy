/** Shared vocabulary: optional values, the outcome of a Python expression that may
    raise, ASCII case mapping, Python's `int(str)` on ASCII text, and insertion-ordered
    dictionaries written as association lists. */
module Common {

  datatype Option<+T> = None | Some(value: T)

  /** The Python exceptions that the modelled code raises, catches or lets through. */
  datatype Exc = AttributeError | KeyError | TypeError | ValueError | IndexError | StopIteration

  /** The outcome of evaluating a Python expression: a value, or a raised exception. */
  datatype Py<+T> = Ok(value: T) | Raise(exc: Exc)

  // ---------------------------------------------------------------------------
  // ASCII case mapping (Python's str.lower / str.capitalize restricted to ASCII)

  function LowerChar(c: char): char {
    if 'A' <= c <= 'Z' then (c as int + 32) as char else c
  }

  function UpperChar(c: char): char {
    if 'a' <= c <= 'z' then (c as int - 32) as char else c
  }

  function Lower(s: string): (r: string)
    ensures |r| == |s|
    ensures forall i :: 0 <= i < |s| ==> r[i] == LowerChar(s[i])
  {
    seq(|s|, i requires 0 <= i < |s| => LowerChar(s[i]))
  }

  /** str.capitalize on ASCII letters: first character upper case, the rest lower case;
      other characters are left as they are. */
  function Capitalize(s: string): (r: string)
    ensures |r| == |s|
    ensures |s| > 0 ==> r[0] == UpperChar(s[0]) && r[1..] == Lower(s[1..])
  {
    if |s| == 0 then "" else [UpperChar(s[0])] + Lower(s[1..])
  }

  /** Lower-casing a capitalized string gives the lower-cased original. */
  lemma LowerOfCapitalize(s: string)
    ensures Lower(Capitalize(s)) == Lower(s)
  {
    if |s| > 0 {
      var c := s[0];
      assert LowerChar(UpperChar(c)) == LowerChar(c);
      assert Lower(Capitalize(s))[0] == Lower(s)[0];
    }
  }

  // ---------------------------------------------------------------------------
  // Python int(str), base 10, ASCII

  /** The characters str.strip() and int() treat as white space, within ASCII. */
  predicate IsSpace(c: char) {
    c == ' ' || ('\t' <= c <= '\r') || (28 <= c as int <= 31)
  }

  predicate IsDigit(c: char) {
    '0' <= c <= '9'
  }

  function DigitValue(c: char): (d: nat)
    requires IsDigit(c)
    ensures d < 10
  {
    c as int - '0' as int
  }

  function DigitChar(d: nat): (c: char)
    requires d < 10
    ensures IsDigit(c) && DigitValue(c) == d
  {
    ('0' as int + d) as char
  }

  /** The number of white-space characters that start s. */
  function LeadingSpaces(s: string): (k: nat)
    ensures k <= |s|
  {
    if |s| > 0 && IsSpace(s[0]) then 1 + LeadingSpaces(s[1..]) else 0
  }

  /** The number of white-space characters that end s. */
  function TrailingSpaces(s: string): (k: nat)
    ensures k <= |s|
  {
    if |s| > 0 && IsSpace(s[|s| - 1]) then 1 + TrailingSpaces(s[..|s| - 1]) else 0
  }

  /** str.strip(). */
  function Strip(s: string): (r: string)
    ensures |r| <= |s|
  {
    var t := s[LeadingSpaces(s)..];
    t[..|t| - TrailingSpaces(t)]
  }

  /** Digits and single underscores between digits, as int() accepts them. */
  predicate DigitGroup(s: string) {
    && |s| > 0
    && IsDigit(s[0]) && IsDigit(s[|s| - 1])
    && (forall i :: 0 <= i < |s| ==> IsDigit(s[i]) || s[i] == '_')
    && (forall i :: 0 <= i < |s| - 1 ==> !(s[i] == '_' && s[i + 1] == '_'))
  }

  /** The value of a run of decimal digits (most significant first); non-digits count as 0. */
  function DigitsValue(s: string): nat {
    if |s| == 0 then 0
    else DigitsValue(s[..|s| - 1]) * 10 + (if IsDigit(s[|s| - 1]) then DigitValue(s[|s| - 1]) else 0)
  }

  /** The value of a digit group, underscores skipped. */
  function GroupValue(s: string): nat {
    if |s| == 0 then 0
    else if s[|s| - 1] == '_' then GroupValue(s[..|s| - 1])
    else GroupValue(s[..|s| - 1]) * 10 + (if IsDigit(s[|s| - 1]) then DigitValue(s[|s| - 1]) else 0)
  }

  /** An unsigned digit group's value, None when t is not one. */
  function ParseUnsigned(t: string): Option<nat> {
    if DigitGroup(t) then Some(GroupValue(t)) else None
  }

  /** int() on an already stripped string: an optional sign, then a digit group. */
  function ParseStripped(t: string): Option<int> {
    if |t| == 0 then None
    else
      var sign := if t[0] == '-' then -1 else 1;
      var body := if t[0] == '-' || t[0] == '+' then t[1..] else t;
      match ParseUnsigned(body)
      case Some(v) => Some(sign * v)
      case None => None
  }

  /** Python's int(s) for a str in base 10: None where int() raises ValueError. */
  function ParseInt(s: string): Option<int> {
    ParseStripped(Strip(s))
  }

  function NatToString(n: nat): (r: string)
    ensures |r| > 0
    ensures forall i :: 0 <= i < |r| ==> IsDigit(r[i])
  {
    if n < 10 then [DigitChar(n)] else NatToString(n / 10) + [DigitChar(n % 10)]
  }

  /** Python's str(n) for an int. */
  function IntToString(n: int): string {
    if n < 0 then "-" + NatToString(-n) else NatToString(n)
  }

  lemma {:induction false} GroupValueOfDigits(s: string)
    requires forall i :: 0 <= i < |s| ==> IsDigit(s[i])
    ensures GroupValue(s) == DigitsValue(s)
  {
    if |s| > 0 {
      GroupValueOfDigits(s[..|s| - 1]);
    }
  }

  lemma {:induction false} NatToStringValue(n: nat)
    ensures DigitsValue(NatToString(n)) == n
  {
    var r := NatToString(n);
    if n >= 10 {
      NatToStringValue(n / 10);
      assert r[..|r| - 1] == NatToString(n / 10);
    }
  }

  lemma StripUnchanged(s: string)
    requires |s| > 0 && !IsSpace(s[0]) && !IsSpace(s[|s| - 1])
    ensures Strip(s) == s
  {
    assert LeadingSpaces(s) == 0;
    assert TrailingSpaces(s) == 0;
  }

  /** A run of digits is a digit group worth its digits' value. */
  lemma DigitsAreGroup(d: string)
    requires |d| > 0 && forall i :: 0 <= i < |d| ==> IsDigit(d[i])
    ensures ParseUnsigned(d) == Some(DigitsValue(d))
  {
    GroupValueOfDigits(d);
    assert DigitGroup(d);
  }

  lemma ParseDigits(d: string)
    requires |d| > 0 && forall i :: 0 <= i < |d| ==> IsDigit(d[i])
    ensures ParseInt(d) == Some(DigitsValue(d) as int)
  {
    StripUnchanged(d);
    DigitsAreGroup(d);
    assert d[0] != '-' && d[0] != '+';
  }

  lemma ParseNegativeDigits(d: string)
    requires |d| > 0 && forall i :: 0 <= i < |d| ==> IsDigit(d[i])
    ensures ParseInt("-" + d) == Some(-(DigitsValue(d) as int))
  {
    var s := "-" + d;
    assert s[|s| - 1] == d[|d| - 1];
    StripUnchanged(s);
    assert s[0] == '-' && s[1..] == d;
    DigitsAreGroup(d);
    assert ParseStripped(s) == Some(-1 * DigitsValue(d));
  }

  lemma NegatedRoundTrip(m: nat)
    ensures ParseInt("-" + NatToString(m)) == Some(-(m as int))
  {
    NatToStringValue(m);
    ParseNegativeDigits(NatToString(m));
  }

  lemma NegativeRoundTrip(n: int)
    requires n < 0
    ensures ParseInt(IntToString(n)) == Some(n)
  {
    NegatedRoundTrip(-n);
  }

  lemma NonNegativeRoundTrip(n: int)
    requires n >= 0
    ensures ParseInt(IntToString(n)) == Some(n)
  {
    NatToStringValue(n);
    ParseDigits(NatToString(n));
  }

  /** int(str(n)) == n: the parser inverts the decimal rendering. */
  lemma IntToStringRoundTrip(n: int)
    ensures ParseInt(IntToString(n)) == Some(n)
  {
    if n < 0 {
      NegativeRoundTrip(n);
    } else {
      NonNegativeRoundTrip(n);
    }
  }

  /** int() rejects a string with no digit in it. */
  lemma ParseIntNeedsDigit(s: string)
    requires forall i :: 0 <= i < |s| ==> !IsDigit(s[i])
    ensures ParseInt(s) == None
  {
    var k := LeadingSpaces(s);
    var t := Strip(s);
    assert forall i :: 0 <= i < |t| ==> t[i] == s[k + i];
  }

  // ---------------------------------------------------------------------------
  // Insertion-ordered dictionaries

  type Dict<K, V> = seq<(K, V)>

  predicate DistinctKeys<K(==), V>(m: Dict<K, V>) {
    forall i, j :: 0 <= i < j < |m| ==> m[i].0 != m[j].0
  }

  /** No two entries carry the same value. */
  predicate InjectiveValues<K, V(==)>(m: Dict<K, V>) {
    forall i, j :: 0 <= i < j < |m| ==> m[i].1 != m[j].1
  }

  /** `list(d.values())`. */
  function Values<K, V>(m: Dict<K, V>): (r: seq<V>)
    ensures |r| == |m|
    ensures forall i :: 0 <= i < |m| ==> r[i] == m[i].1
  {
    if |m| == 0 then [] else [m[0].1] + Values(m[1..])
  }

  /** `d[k]` / `d.get(k)`: the value stored for k, None when k is absent. */
  function Get<K(==), V>(m: Dict<K, V>, k: K): (r: Option<V>)
    ensures r.Some? <==> exists i :: 0 <= i < |m| && m[i].0 == k
    ensures r.Some? ==> exists i :: 0 <= i < |m| && m[i] == (k, r.value)
  {
    if |m| == 0 then None
    else if m[0].0 == k then Some(m[0].1)
    else
      var r := Get(m[1..], k);
      assert forall i :: 1 <= i < |m| ==> m[1..][i - 1] == m[i];
      r
  }

  /** `d.get(k, default)`. */
  function GetOr<K(==), V>(m: Dict<K, V>, k: K, default: V): V {
    match Get(m, k)
    case Some(v) => v
    case None => default
  }

  /** `next(key for key, value in d.items() if value == v)`: None where next() raises. */
  function FirstKeyWithValue<K(==), V(==)>(m: Dict<K, V>, v: V): (r: Option<K>)
    ensures r.None? <==> v !in Values(m)
    ensures r.Some? ==> exists i :: 0 <= i < |m| && m[i] == (r.value, v) &&
                                    forall j :: 0 <= j < i ==> m[j].1 != v
  {
    if |m| == 0 then None
    else if m[0].1 == v then Some(m[0].0)
    else
      var r := FirstKeyWithValue(m[1..], v);
      assert Values(m) == [m[0].1] + Values(m[1..]);
      if r.Some? then
        var i :| 0 <= i < |m[1..]| && m[1..][i] == (r.value, v) && forall j :: 0 <= j < i ==> m[1..][j].1 != v;
        assert m[i + 1] == (r.value, v);
        assert forall j :: 0 <= j < i + 1 ==> m[j].1 != v by {
          forall j | 0 <= j < i + 1 ensures m[j].1 != v {
            if j > 0 { assert m[j] == m[1..][j - 1]; }
          }
        }
        r
      else r
  }

  /** Looking a key up and then searching for its value gives the key back, when the
      values are distinct. */
  lemma ReverseLookupRoundTrip<K, V>(m: Dict<K, V>, k: K)
    requires DistinctKeys(m) && InjectiveValues(m)
    requires Get(m, k).Some?
    ensures FirstKeyWithValue(m, Get(m, k).value) == Some(k)
  {
    var v := Get(m, k).value;
    var i :| 0 <= i < |m| && m[i] == (k, v);
    assert v in Values(m) by { assert Values(m)[i] == v; }
    var r := FirstKeyWithValue(m, v);
    var j :| 0 <= j < |m| && m[j] == (r.value, v) && forall l :: 0 <= l < j ==> m[l].1 != v;
    assert i == j;
  }

  /** With distinct keys, looking up the key of any entry gives that entry's value. */
  lemma {:induction false} GetAt<K, V>(m: Dict<K, V>, i: int)
    requires DistinctKeys(m) && 0 <= i < |m|
    ensures Get(m, m[i].0) == Some(m[i].1)
    decreases i
  {
    if i > 0 {
      assert m[0].0 != m[i].0;
      assert DistinctKeys(m[1..]) by {
        forall a, b | 0 <= a < b < |m[1..]| ensures m[1..][a].0 != m[1..][b].0 {
          assert m[1..][a] == m[a + 1] && m[1..][b] == m[b + 1];
        }
      }
      assert m[1..][i - 1] == m[i];
      GetAt(m[1..], i - 1);
    }
  }

  /** Every value has a key, and the key found for it reads back as that value. */
  lemma ForwardLookupRoundTrip<K, V>(m: Dict<K, V>, v: V)
    requires DistinctKeys(m) && v in Values(m)
    ensures FirstKeyWithValue(m, v).Some?
    ensures Get(m, FirstKeyWithValue(m, v).value) == Some(v)
  {
    var k := FirstKeyWithValue(m, v).value;
    var i :| 0 <= i < |m| && m[i] == (k, v) && forall j :: 0 <= j < i ==> m[j].1 != v;
    GetAt(m, i);
  }

  /** With repeated values the reverse direction is not a round trip: the first key wins. */
  lemma ReverseLookupPicksFirst()
    ensures FirstKeyWithValue([(1, "a"), (2, "a")], "a") == Some(1)
    ensures Get([(1, "a"), (2, "a")], 2) == Some("a")
  {
  }
}
