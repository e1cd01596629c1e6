/** String helpers that mirror the JavaScript built-ins the application relies on:
    the `\s` character class and `String.prototype.trim`, ASCII `toLowerCase`,
    `includes`, `startsWith`, first-occurrence `replace` with a string pattern,
    and the decimal rendering of an integer in a template literal. */
module Text {

  /** The characters JavaScript treats as white space in `\s` and in `trim`
      (WhiteSpace and LineTerminator of ECMA-262). */
  predicate IsSpace(c: char) {
    || c == '\t' || c == '\n' || c == '\U{000B}' || c == '\U{000C}' || c == '\r'
    || c == ' ' || c == '\U{00A0}' || c == '\U{1680}'
    || ('\U{2000}' <= c <= '\U{200A}')
    || c == '\U{2028}' || c == '\U{2029}' || c == '\U{202F}' || c == '\U{205F}'
    || c == '\U{3000}' || c == '\U{FEFF}'
  }

  predicate AllSpace(s: string) {
    forall i :: 0 <= i < |s| ==> IsSpace(s[i])
  }

  function TrimStart(s: string): (r: string)
    ensures |r| <= |s| && r == s[|s| - |r|..]
    ensures r != [] ==> !IsSpace(r[0])
    ensures AllSpace(s[..|s| - |r|])
  {
    if |s| > 0 && IsSpace(s[0]) then TrimStart(s[1..]) else s
  }

  function TrimEnd(s: string): (r: string)
    ensures |r| <= |s| && r == s[..|r|]
    ensures r != [] ==> !IsSpace(r[|r| - 1])
    ensures AllSpace(s[|r|..])
  {
    if |s| > 0 && IsSpace(s[|s| - 1]) then
      var r := TrimEnd(s[..|s| - 1]);
      assert s[|r|..] == s[..|s| - 1][|r|..] + [s[|s| - 1]];
      r
    else s
  }

  /** `s.trim()`: the longest slice of `s` that neither starts nor ends with white space. */
  function Trim(s: string): (r: string)
  {
    TrimEnd(TrimStart(s))
  }

  /** Trimming leaves nothing exactly when every character is white space. */
  lemma TrimEmptyIff(s: string)
    ensures Trim(s) == [] <==> AllSpace(s)
  {
    var t := TrimStart(s);
    var k := |s| - |t|;
    if t != [] {
      assert t[0] == s[k];
    }
    forall i | 0 <= i < |s| && Trim(s) == [] ensures IsSpace(s[i]) {
      assert s[i] == s[..k][i];
    }
  }

  /** Trimming removes white space only at the two ends: the result is a slice of the input. */
  lemma TrimIsSlice(s: string)
    ensures exists i, j :: 0 <= i <= j <= |s| && Trim(s) == s[i..j]
  {
    var t := TrimStart(s);
    var r := TrimEnd(t);
    var i := |s| - |t|;
    assert r == t[..|r|] == s[i..i + |r|];
  }

  /** A string that neither starts nor ends with white space is its own trim. */
  lemma TrimUnpadded(s: string)
    requires s != [] && !IsSpace(s[0]) && !IsSpace(s[|s| - 1])
    ensures Trim(s) == s
  {
  }

  /** Trimming twice is trimming once. */
  lemma TrimIdempotent(s: string)
    ensures Trim(Trim(s)) == Trim(s)
  {
  }

  /** The number of UTF-16 code units `c` occupies: characters above U+FFFF
      are stored as a surrogate pair. */
  function Utf16Units(c: char): (n: nat)
    ensures n == 1 || n == 2
    ensures n == 2 <==> c as int > 0xFFFF
  {
    if c as int > 0xFFFF then 2 else 1
  }

  /** JavaScript's `length` of a string: its UTF-16 code units. */
  function Utf16Length(s: string): (n: nat)
    ensures |s| <= n <= 2 * |s|
    ensures n == 0 <==> s == []
  {
    if s == [] then 0 else Utf16Units(s[0]) + Utf16Length(s[1..])
  }

  /** Code units add up over concatenation. */
  lemma {:induction false} Utf16LengthAppend(a: string, b: string)
    ensures Utf16Length(a + b) == Utf16Length(a) + Utf16Length(b)
  {
    if a != [] {
      assert (a + b)[1..] == a[1..] + b;
      Utf16LengthAppend(a[1..], b);
    } else {
      assert a + b == b;
    }
  }

  /** A string of Basic Multilingual Plane characters has one code unit each. */
  lemma {:induction false} Utf16LengthBmp(s: string)
    requires forall i :: 0 <= i < |s| ==> s[i] as int <= 0xFFFF
    ensures Utf16Length(s) == |s|
  {
    if s != [] {
      Utf16LengthBmp(s[1..]);
    }
  }

  /** One character outside the Basic Multilingual Plane, such as an emoji, has length 2. */
  lemma AstralLength(s: string)
    requires s == "\U{1F600}"
    ensures |s| == 1 && Utf16Length(s) == 2
  {
  }

  /** ASCII `toLowerCase`: upper-case Latin letters map to lower case, everything else is kept. */
  function LowerChar(c: char): (d: char)
  {
    if 'A' <= c <= 'Z' then (c as int + 32) as char else c
  }

  function ToLower(s: string): (r: string)
    ensures |r| == |s|
    ensures forall i :: 0 <= i < |s| ==> r[i] == LowerChar(s[i])
  {
    seq(|s|, i requires 0 <= i < |s| => LowerChar(s[i]))
  }

  lemma LowerCharIdempotent(c: char)
    ensures LowerChar(LowerChar(c)) == LowerChar(c)
  {
  }

  /** Lowercasing is idempotent, so a lowercased query compared with a lowercased name is
      the same whether or not the query was lowercased already. */
  lemma ToLowerIdempotent(s: string)
    ensures ToLower(ToLower(s)) == ToLower(s)
  {
    forall i | 0 <= i < |s| ensures ToLower(ToLower(s))[i] == ToLower(s)[i] {
      LowerCharIdempotent(s[i]);
    }
  }

  /** `s.startsWith(p)`. */
  predicate StartsWith(s: string, p: string) {
    |p| <= |s| && s[..|p|] == p
  }

  /** `p` occurs in `s` starting at position `i`. */
  predicate OccursAt(s: string, p: string, i: int) {
    0 <= i && i + |p| <= |s| && s[i..i + |p|] == p
  }

  /** An occurrence past the first character is an occurrence in the tail. */
  lemma OccursShift(s: string, p: string, i: nat)
    requires |s| > 0
    ensures OccursAt(s, p, i + 1) <==> OccursAt(s[1..], p, i)
  {
    if i + 1 + |p| <= |s| {
      assert s[i + 1..i + 1 + |p|] == s[1..][i..i + |p|];
    }
  }

  /** `s.includes(n)`: `n` occurs somewhere in `s` as a contiguous slice. */
  predicate Includes(s: string, n: string)
    decreases |s|
  {
    StartsWith(s, n) || (|s| > 0 && Includes(s[1..], n))
  }

  /** The position-based reading of `Includes`. */
  lemma {:induction false} IncludesIff(s: string, n: string)
    ensures Includes(s, n) <==> exists i :: OccursAt(s, n, i)
    decreases |s|
  {
    if StartsWith(s, n) {
      assert OccursAt(s, n, 0);
    } else if |s| > 0 {
      IncludesIff(s[1..], n);
      if Includes(s[1..], n) {
        var i :| OccursAt(s[1..], n, i);
        OccursShift(s, n, i);
      } else {
        forall i | OccursAt(s, n, i) ensures false {
          if i > 0 {
            OccursShift(s, n, i - 1);
          }
        }
      }
    } else {
      forall i | OccursAt(s, n, i) ensures false {
      }
    }
  }

  /** Every string includes the empty string. */
  lemma IncludesEmpty(s: string)
    ensures Includes(s, "")
  {
    assert s[..0] == "";
  }

  /** The index of the first occurrence of `p` in `s`, or -1, as `s.indexOf(p)`. */
  function IndexOf(s: string, p: string): (r: int)
    ensures r == -1 || OccursAt(s, p, r)
    ensures forall i :: 0 <= i < r ==> !OccursAt(s, p, i)
    ensures r == -1 ==> forall i :: !OccursAt(s, p, i)
    decreases |s|
  {
    if StartsWith(s, p) then 0
    else if |s| == 0 then -1
    else
      var k := IndexOf(s[1..], p);
      assert !OccursAt(s, p, 0);
      if k == -1 then
        assert forall i :: !OccursAt(s, p, i) by {
          forall i | OccursAt(s, p, i) ensures false {
            OccursShift(s, p, i - 1);
          }
        }
        -1
      else
        assert forall i :: 0 <= i < k + 1 ==> !OccursAt(s, p, i) by {
          forall i | 0 < i < k + 1 ensures !OccursAt(s, p, i) {
            OccursShift(s, p, i - 1);
          }
        }
        OccursShift(s, p, k);
        k + 1
  }

  /** `s.replace(p, q)` with a string pattern: only the first occurrence is replaced. */
  function ReplaceFirst(s: string, p: string, q: string): (r: string)
  {
    var k := IndexOf(s, p);
    if k < 0 then s else s[..k] + q + s[k + |p|..]
  }

  /** Replacing in a string that does not contain the pattern changes nothing. */
  lemma ReplaceFirstAbsent(s: string, p: string, q: string)
    requires forall i :: !OccursAt(s, p, i)
    ensures ReplaceFirst(s, p, q) == s
  {
  }

  /** Replacing puts `q` exactly where the first occurrence of `p` was. */
  lemma ReplaceFirstAt(s: string, p: string, q: string, k: nat)
    requires OccursAt(s, p, k)
    requires forall i :: 0 <= i < k ==> !OccursAt(s, p, i)
    ensures ReplaceFirst(s, p, q) == s[..k] + q + s[k + |p|..]
  {
  }

  function DigitChar(d: nat): (c: char)
    requires d < 10
    ensures '0' <= c <= '9'
  {
    ['0', '1', '2', '3', '4', '5', '6', '7', '8', '9'][d]
  }

  /** The decimal digits of a natural number, most significant first, no leading zero. */
  function Decimal(n: nat): (r: string)
    ensures |r| >= 1
    ensures forall i :: 0 <= i < |r| ==> '0' <= r[i] <= '9'
  {
    if n < 10 then [DigitChar(n)] else Decimal(n / 10) + [DigitChar(n % 10)]
  }

  /** An integer as a template literal renders it: a minus sign for negatives, then the digits. */
  function IntToString(i: int): (r: string)
  {
    if i < 0 then "-" + Decimal(-i) else Decimal(i)
  }

  function DigitValue(c: char): (d: nat)
    requires '0' <= c <= '9'
    ensures d < 10
  {
    c as int - '0' as int
  }

  /** The value of a non-empty string of decimal digits. */
  function DigitsValue(s: string): (v: nat)
    requires forall i :: 0 <= i < |s| ==> '0' <= s[i] <= '9'
  {
    if |s| == 0 then 0 else DigitsValue(s[..|s| - 1]) * 10 + DigitValue(s[|s| - 1])
  }

  /** Reading back the rendering gives the number: `Decimal` loses no information. */
  lemma {:induction false} DecimalRoundTrip(n: nat)
    ensures DigitsValue(Decimal(n)) == n
  {
    if n >= 10 {
      var q, m := n / 10, n % 10;
      DecimalRoundTrip(q);
      var d := Decimal(q) + [DigitChar(m)];
      assert d[..|d| - 1] == Decimal(q);
      assert DigitValue(DigitChar(m)) == m;
      assert n == q * 10 + m;
    }
  }

  /** Distinct numbers render differently. */
  lemma DecimalInjective(m: nat, n: nat)
    requires Decimal(m) == Decimal(n)
    ensures m == n
  {
    DecimalRoundTrip(m);
    DecimalRoundTrip(n);
  }
}
