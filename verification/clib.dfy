/** The two C library routines the resolver leans on, `strchr` and
    `strtol` with base 16, as ISO C11 section 7.22.1.4 defines the latter in
    the "C" locale. */
module CLib {
  import opened Wrappers

  /** A C string: the characters before the terminating NUL, so it cannot
      hold a NUL itself. Every `argv` element is one. */
  type CString = s: seq<char> | '\0' !in s

  /** `isspace` in the "C" locale: space, and tab through carriage return. */
  predicate IsSpace(c: char) {
    c == ' ' || '\t' <= c <= '\r'
  }

  /** A digit of base 16: `0`-`9`, `a`-`f` or `A`-`F`. */
  predicate IsHexDigit(c: char) {
    '0' <= c <= '9' || 'a' <= c <= 'f' || 'A' <= c <= 'F'
  }

  function DigitValue(c: char): (n: nat)
    requires IsHexDigit(c)
    ensures n < 16
    ensures '0' <= c <= '9' ==> n < 10
    ensures !('0' <= c <= '9') ==> 10 <= n
  {
    if '0' <= c <= '9' then c as int - '0' as int
    else if 'a' <= c <= 'f' then c as int - 'a' as int + 10
    else c as int - 'A' as int + 10
  }

  predicate AllHex(s: seq<char>) {
    forall i :: 0 <= i < |s| ==> IsHexDigit(s[i])
  }

  /** The number a sequence of hex digits denotes, most significant first. */
  function HexValue(ds: seq<char>): nat
    requires AllHex(ds)
  {
    if |ds| == 0 then 0
    else 16 * HexValue(ds[..|ds| - 1]) + DigitValue(ds[|ds| - 1])
  }

  /** `strchr`: the index of the first occurrence of `c`, if any. */
  function Strchr(s: seq<char>, c: char): (r: Option<nat>)
    ensures r.None? <==> c !in s
    ensures r.Some? ==> r.value < |s| && s[r.value] == c
    ensures r.Some? ==> forall k :: 0 <= k < r.value ==> s[k] != c
  {
    if |s| == 0 then None
    else if s[0] == c then Some(0)
    else match Strchr(s[1..], c)
      case None => None
      case Some(i) => Some(i + 1)
  }

  /** The first index at or after `from` that does not hold white-space. */
  function SkipSpace(s: seq<char>, from: nat): (i: nat)
    requires from <= |s|
    ensures from <= i <= |s|
    ensures forall k :: from <= k < i ==> IsSpace(s[k])
    ensures i < |s| ==> !IsSpace(s[i])
    decreases |s| - from
  {
    if from < |s| && IsSpace(s[from]) then SkipSpace(s, from + 1) else from
  }

  /** The end of the run of hex digits that starts at `from`. */
  function DigitsEnd(s: seq<char>, from: nat): (e: nat)
    requires from <= |s|
    ensures from <= e <= |s|
    ensures AllHex(s[from..e])
    ensures e < |s| ==> !IsHexDigit(s[e])
    decreases |s| - from
  {
    if from < |s| && IsHexDigit(s[from]) then
      var e := DigitsEnd(s, from + 1);
      assert s[from..e] == [s[from]] + s[from + 1..e];
      e
    else from
  }

  /** An `0x`/`0X` prefix is part of the subject sequence only when a hex
      digit follows it; otherwise the subject is just the `0`. */
  predicate HasHexPrefix(s: seq<char>, j: nat) {
    && j + 2 < |s|
    && s[j] == '0'
    && (s[j + 1] == 'x' || s[j + 1] == 'X')
    && IsHexDigit(s[j + 2])
  }

  /** What `strtol` hands back: the converted value and where `*endptr`
      points, as an index into the argument. */
  datatype Conversion = Conversion(value: int, end: nat)

  /** `strtol(s, &end, 16)`. White-space is skipped, then an optional sign,
      then an optional `0x` prefix, then the longest run of hex digits. With
      no digits there is no subject sequence: `end` is the start of `s` and
      the value is 0. */
  function Strtol16(s: seq<char>): (r: Conversion)
    ensures r.end <= |s|
    ensures r.end == 0 ==> r.value == 0
    ensures 0 < r.end ==> IsHexDigit(s[r.end - 1])
    ensures 0 < r.end < |s| ==> !IsHexDigit(s[r.end])
  {
    var i := SkipSpace(s, 0);
    var neg := i < |s| && s[i] == '-';
    var j := if i < |s| && (s[i] == '+' || s[i] == '-') then i + 1 else i;
    var k := if HasHexPrefix(s, j) then j + 2 else j;
    var e := DigitsEnd(s, k);
    if e == k then Conversion(0, 0)
    else
      assert IsHexDigit(s[k..e][e - 1 - k]);
      var n: int := HexValue(s[k..e]);
      Conversion(if neg then -n else n, e)
  }
}
