/** What `parse_int` accepts: exactly the tokens `strtol` consumes whole,
    that is, white-space, an optional sign, an optional `0x`/`0X` and at
    least one hex digit, or nothing at all; and of those only the values in
    [0, 0xffff]. Also: the four-digit lowercase rendering of an id parses
    back to the id. */
module ParseIntProofs {
  import opened Wrappers
  import opened CLib
  import opened PciDb
  import opened PciLookup

  /** The characters a token `parse_int` accepts can be made of. */
  predicate IsTokenChar(c: char) {
    IsHexDigit(c) || IsSpace(c) || c == '+' || c == '-' || c == 'x' || c == 'X'
  }

  /** The value `strtol` gives a signed digit string. */
  function Signed(sign: seq<char>, digits: seq<char>): int
    requires AllHex(digits)
  {
    if sign == "-" then -(HexValue(digits) as int) else HexValue(digits)
  }

  /** White-space skipping stops exactly at the first non-blank. */
  lemma {:induction false} SkipSpaceStopsAt(s: seq<char>, from: nat, m: nat)
    requires from <= m <= |s|
    requires forall k :: from <= k < m ==> IsSpace(s[k])
    requires m < |s| ==> !IsSpace(s[m])
    ensures SkipSpace(s, from) == m
    decreases m - from
  {
    if from < m {
      SkipSpaceStopsAt(s, from + 1, m);
    }
  }

  /** A run of hex digits reaching the end of the string is consumed whole. */
  lemma {:induction false} DigitsEndAtEnd(s: seq<char>, k: nat)
    requires k <= |s|
    requires AllHex(s[k..])
    ensures DigitsEnd(s, k) == |s|
    decreases |s| - k
  {
    if k < |s| {
      assert s[k] == s[k..][0];
      assert s[k + 1..] == s[k..][1..];
      DigitsEndAtEnd(s, k + 1);
    }
  }

  /** Every well-formed token is consumed whole by `strtol`, and `parse_int`
      then accepts it exactly when its signed value is in range. */
  lemma ParseIntWellFormed(ws: CString, sign: CString, prefix: CString, digits: CString)
    requires forall i :: 0 <= i < |ws| ==> IsSpace(ws[i])
    requires sign == "" || sign == "+" || sign == "-"
    requires prefix == "" || prefix == "0x" || prefix == "0X"
    requires 0 < |digits| && AllHex(digits)
    ensures var n := Signed(sign, digits);
      ParseInt(ws + sign + prefix + digits) == if 0 <= n <= 0xffff then Ok(n) else Err(OutOfRange(n))
  {
    var s := ws + sign + prefix + digits;
    var i, j, k := |ws|, |ws| + |sign|, |ws| + |sign| + |prefix|;
    assert s[i] == (if sign != "" then sign[0] else if prefix != "" then prefix[0] else digits[0]);
    SkipSpaceStopsAt(s, 0, i);
    assert i < |s| && (s[i] == '+' || s[i] == '-') <==> sign != "";
    assert (i < |s| && s[i] == '-') <==> sign == "-";
    if prefix == "" {
      assert !HasHexPrefix(s, j) by {
        if j + 2 < |s| { assert s[j + 1] == digits[1]; }
      }
    } else {
      assert s[j + 2] == digits[0];
      assert HasHexPrefix(s, j);
    }
    assert s[k..] == digits;
    DigitsEndAtEnd(s, k);
    assert s[k..|s|] == digits;
    assert HasHexPrefix(s, j) <==> prefix != "";
    assert Strtol16(s).end == |s|;
    assert Strtol16(s).value == Signed(sign, digits);
  }

  /** The parts of the subject sequence `strtol` found, as indices: blanks
      before `i`, a sign in `[i, j)`, a prefix in `[j, k)` and digits up to
      the end pointer. */
  lemma StrtolSubject(s: seq<char>) returns (i: nat, j: nat, k: nat)
    requires 0 < Strtol16(s).end
    ensures i <= j <= k < Strtol16(s).end <= |s|
    ensures forall p :: 0 <= p < i ==> IsSpace(s[p])
    ensures j == i || (j == i + 1 && (s[i] == '+' || s[i] == '-'))
    ensures k == j || (k == j + 2 && s[j] == '0' && (s[j + 1] == 'x' || s[j + 1] == 'X'))
    ensures AllHex(s[k..Strtol16(s).end])
    ensures Strtol16(s).value ==
      if j == i + 1 && s[i] == '-' then -(HexValue(s[k..Strtol16(s).end]) as int)
      else HexValue(s[k..Strtol16(s).end])
  {
    i := SkipSpace(s, 0);
    j := if i < |s| && (s[i] == '+' || s[i] == '-') then i + 1 else i;
    k := if HasHexPrefix(s, j) then j + 2 else j;
  }

  lemma SplitFour(s: seq<char>, i: nat, j: nat, k: nat)
    requires i <= j <= k <= |s|
    ensures s == s[..i] + s[i..j] + s[j..k] + s[k..]
  {
    assert s[..j] == s[..i] + s[i..j];
    assert s[..k] == s[..j] + s[j..k];
  }

  /** A string `strtol` consumes whole, and not vacuously, is blanks, an
      optional sign, an optional prefix and at least one digit. */
  lemma StrtolWholeShape(s: seq<char>) returns (ws: seq<char>, sign: seq<char>, prefix: seq<char>, digits: seq<char>)
    requires 0 < Strtol16(s).end == |s|
    ensures s == ws + sign + prefix + digits
    ensures forall i :: 0 <= i < |ws| ==> IsSpace(ws[i])
    ensures sign == "" || sign == "+" || sign == "-"
    ensures prefix == "" || prefix == "0x" || prefix == "0X"
    ensures 0 < |digits| && AllHex(digits)
    ensures Strtol16(s).value == Signed(sign, digits)
  {
    var i, j, k := StrtolSubject(s);
    assert s[k..|s|] == s[k..];
    ws, sign, prefix, digits := s[..i], s[i..j], s[j..k], s[k..];
    SplitFour(s, i, j, k);
    assert j == i + 1 ==> sign == [s[i]];
    assert k == j + 2 ==> prefix == [s[j], s[j + 1]];
  }

  /** The converse: a token `strtol` consumes whole is either empty (and
      reads as 0) or well formed, and its value is the signed value of its
      digits. */
  lemma ParseIntConsumedShape(tok: CString) returns (ws: CString, sign: CString, prefix: CString, digits: CString)
    requires !(ParseInt(tok).Err? && ParseInt(tok).error.NotANumber?)
    ensures tok == [] ==> ParseInt(tok) == Ok(0)
    ensures tok != [] ==>
      && tok == ws + sign + prefix + digits
      && (forall i :: 0 <= i < |ws| ==> IsSpace(ws[i]))
      && (sign == "" || sign == "+" || sign == "-")
      && (prefix == "" || prefix == "0x" || prefix == "0X")
      && 0 < |digits| && AllHex(digits)
      && Strtol16(tok).value == Signed(sign, digits)
  {
    ws, sign, prefix, digits := [], [], [], [];
    if tok != [] {
      var w, g, p, d := StrtolWholeShape(tok);
      assert '\0' !in w && '\0' !in g && '\0' !in p && '\0' !in d by {
        assert tok == w + g + p + d;
      }
      ws, sign, prefix, digits := w, g, p, d;
    }
  }

  /** Every character of a token `strtol` consumes whole is white-space, a
      sign, `x`/`X` or a hex digit. */
  lemma ConsumedTokenChars(tok: CString)
    requires !(ParseInt(tok).Err? && ParseInt(tok).error.NotANumber?)
    ensures forall i :: 0 <= i < |tok| ==> IsTokenChar(tok[i])
  {
    var ws, sign, prefix, digits := ParseIntConsumedShape(tok);
    var a, b, c := |ws|, |ws| + |sign|, |ws| + |sign| + |prefix|;
    forall i | 0 <= i < |tok|
      ensures IsTokenChar(tok[i])
    {
      if i < a {
        assert tok[i] == ws[i];
      } else if i < b {
        assert tok[i] == sign[i - a];
      } else if i < c {
        assert tok[i] == prefix[i - b];
      } else {
        assert tok[i] == digits[i - c];
      }
    }
  }

  /** A token holding any character outside white-space, sign, `x`/`X` and
      hex digits is never a number: e.g. `12g4`. */
  lemma ParseIntRejectsForeignChar(tok: CString, i: nat)
    requires i < |tok| && !IsTokenChar(tok[i])
    ensures ParseInt(tok) == Err(NotANumber(tok))
  {
    if !(ParseInt(tok).Err? && ParseInt(tok).error.NotANumber?) {
      ConsumedTokenChars(tok);
      assert false;
    }
  }

  /** The empty token reads as 0: `strtol` finds no subject sequence, leaves
      the end pointer on the terminating NUL, so `parse_int` accepts it. */
  lemma ParseIntEmpty()
    ensures ParseInt("") == Ok(0)
  {
  }

  /** A token of white-space alone is not a number, unlike the empty one:
      with no subject sequence the end pointer stays on the first blank. */
  lemma ParseIntBlank(tok: CString)
    requires 0 < |tok| && forall i :: 0 <= i < |tok| ==> IsSpace(tok[i])
    ensures ParseInt(tok) == Err(NotANumber(tok))
  {
    SkipSpaceStopsAt(tok, 0, |tok|);
  }

  /** The lowercase hex digit of a value below 16, as `%x` prints it. */
  function HexDigit(n: nat): (c: char)
    requires n < 16
    ensures IsHexDigit(c) && DigitValue(c) == n
    ensures c != ',' && c != '.' && c != 'x' && c != 'X'
  {
    if n < 10 then ('0' as int + n) as char else ('a' as int + n - 10) as char
  }

  /** An id as `%04x` prints it: four lowercase hex digits. */
  function Hex4(v: Id): (s: CString)
    ensures |s| == 4 && AllHex(s)
    ensures ',' !in s && '.' !in s
  {
    [HexDigit(v / 0x1000), HexDigit(v / 0x100 % 0x10), HexDigit(v / 0x10 % 0x10), HexDigit(v % 0x10)]
  }

  lemma HexValueHex4(v: Id)
    ensures HexValue(Hex4(v)) == v
  {
    var s := Hex4(v);
    var x1, x2, x3 := v / 0x1000, v / 0x100, v / 0x10;
    assert x2 == x1 * 0x10 + x2 % 0x10;
    assert x3 == x2 * 0x10 + x3 % 0x10;
    assert v == x3 * 0x10 + v % 0x10;
    assert s[..1] == [s[0]] && s[..1][..0] == [];
    assert HexValue(s[..1]) == x1;
    assert s[..2][..1] == s[..1];
    assert HexValue(s[..2]) == x2;
    assert s[..3][..2] == s[..2];
    assert HexValue(s[..3]) == x3;
    assert s[..4][..3] == s[..3] && s[..4] == s;
  }

  /** For every id, `parse_int` of its `%04x` rendering gives the id back. */
  lemma ParseIntHex4(v: Id)
    ensures ParseInt(Hex4(v)) == Ok(v)
  {
    HexValueHex4(v);
    ParseIntWellFormed("", "", "", Hex4(v));
    assert "" + "" + "" + Hex4(v) == Hex4(v);
  }

  /** `12g4` is rejected for the trailing `g4`. */
  lemma ParseIntTrailingGarbage()
    ensures ParseInt("12g4") == Err(NotANumber("12g4"))
  {
    ParseIntRejectsForeignChar("12g4", 2);
  }

  /** `10000` is a number, but one past 0xffff. */
  lemma ParseIntTooLarge()
    ensures ParseInt("10000") == Err(OutOfRange(0x10000))
  {
    var digits := "10000";
    assert HexValue(digits) == 0x10000 by {
      assert digits[..1][..0] == [];
      assert HexValue(digits[..1]) == 1;
      assert digits[..2][..1] == digits[..1];
      assert HexValue(digits[..2]) == 0x10;
      assert digits[..3][..2] == digits[..2];
      assert HexValue(digits[..3]) == 0x100;
      assert digits[..4][..3] == digits[..3];
      assert HexValue(digits[..4]) == 0x1000;
      assert digits[..5][..4] == digits[..4];
      assert digits[..5] == digits;
    }
    ParseIntWellFormed("", "", "", digits);
    assert "" + "" + "" + digits == digits;
  }
}
