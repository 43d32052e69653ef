/** Option and Result types, and the string helpers the naming code is built from.
    Strings are sequences of bytes: every name this code cuts is ASCII. */
module Text {

  datatype Option<+T> = None | Some(value: T)

  const MAX_INT64 := 0x7FFF_FFFF_FFFF_FFFF

  function Lower(c: char): (r: char)
    ensures !('A' <= r <= 'Z')
  {
    if 'A' <= c <= 'Z' then c - 'A' + 'a' else c
  }

  function ToLower(s: string): (r: string)
    ensures |r| == |s|
    ensures forall i :: 0 <= i < |s| ==> r[i] == Lower(s[i])
  {
    if s == "" then "" else [Lower(s[0])] + ToLower(s[1..])
  }

  predicate HasSuffix(s: string, suffix: string) {
    |suffix| <= |s| && s[|s| - |suffix|..] == suffix
  }

  function TrimSuffix(s: string, suffix: string): (r: string)
    ensures HasSuffix(s, suffix) ==> r + suffix == s
    ensures !HasSuffix(s, suffix) ==> r == s
  {
    if HasSuffix(s, suffix) then s[..|s| - |suffix|] else s
  }

  function TrimLeft(s: string, c: char): (r: string)
    ensures |r| <= |s| && r == s[|s| - |r|..]
    ensures r != "" ==> r[0] != c
    ensures forall i :: 0 <= i < |s| - |r| ==> s[i] == c
  {
    if s != "" && s[0] == c then TrimLeft(s[1..], c) else s
  }

  function TrimRight(s: string, c: char): (r: string)
    ensures r <= s
    ensures r != "" ==> r[|r| - 1] != c
    ensures forall i :: |r| <= i < |s| ==> s[i] == c
  {
    if s != "" && s[|s| - 1] == c then TrimRight(s[..|s| - 1], c) else s
  }

  /** strings.Trim with a one-character cutset. */
  function Trim(s: string, c: char): (r: string)
    ensures |r| <= |s|
    ensures r != "" ==> r[0] != c && r[|r| - 1] != c
  {
    TrimRight(TrimLeft(s, c), c)
  }

  predicate Digit(c: char) { '0' <= c <= '9' }

  predicate AllDigits(s: string) { forall i :: 0 <= i < |s| ==> Digit(s[i]) }

  /** Decimal value of a string of digits. */
  function Value(s: string): (n: nat)
    requires AllDigits(s)
  {
    if s == "" then 0 else Value(s[..|s| - 1]) * 10 + (s[|s| - 1] - '0') as nat
  }

  /** Canonical decimal print of a natural number (strconv.Itoa). */
  function Decimal(n: nat): (s: string)
    ensures |s| > 0 && AllDigits(s)
    ensures Value(s) == n
  {
    if n < 10 then
      assert Value("") == 0;
      assert ['0' + n as char][..0] == "";
      ['0' + n as char]
    else
      var s := Decimal(n / 10) + ['0' + (n % 10) as char];
      assert s[..|s| - 1] == Decimal(n / 10);
      s
  }

  /** Index of the last occurrence of c, or -1 (strings.LastIndexByte). */
  function LastIndex(s: string, c: char): (i: int)
    ensures -1 <= i < |s|
    ensures i >= 0 ==> s[i] == c
    ensures forall j :: i < j < |s| ==> s[j] != c
  {
    if s == "" then -1
    else if s[|s| - 1] == c then |s| - 1
    else LastIndex(s[..|s| - 1], c)
  }

  /** The last hyphen of "prefix-rest" is the joining one when rest has none. */
  lemma LastIndexOfJoin(prefix: string, c: char, rest: string)
    requires c !in rest
    ensures LastIndex(prefix + [c] + rest, c) == |prefix|
  {
    var s := prefix + [c] + rest;
    assert s[|prefix|] == c;
  }
}
