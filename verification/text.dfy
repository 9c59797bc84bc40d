/**
  String helpers shared by the formatters, renderers and parsers: decimal
  rendering of integers (JavaScript's `String(n)` / Python's `str(n)` for
  integers), concatenation and joining (`Array.prototype.join`), prefix and
  substring search, ECMAScript white space and `trim`, ASCII case folding and
  single-character global replacement (`s.replace(/c/g, rep)`).
*/
module Text {
  import opened Wrappers

  // ---------------------------------------------------------------- decimals

  function DigitChar(d: nat): (c: char)
    requires d < 10
    ensures '0' <= c <= '9' && c as int - '0' as int == d
  {
    "0123456789"[d]
  }

  predicate IsDigit(c: char) { '0' <= c <= '9' }

  predicate AllDigits(s: string) { forall i :: 0 <= i < |s| ==> IsDigit(s[i]) }

  /** Decimal digits of a natural number, most significant first, no leading zeros. */
  function NatToString(n: nat): (s: string)
    ensures |s| >= 1 && AllDigits(s)
    ensures |s| == 1 <==> n < 10
    ensures |s| > 1 ==> s[0] != '0'
    decreases n
  {
    if n < 10 then [DigitChar(n)] else NatToString(n / 10) + [DigitChar(n % 10)]
  }

  /** `String(n)` for an integer: a minus sign before the digits of |n|. */
  function IntToString(n: int): (s: string)
    ensures |s| >= 1
    ensures n >= 0 ==> s == NatToString(n)
    ensures n < 0 ==> s == "-" + NatToString(-n)
  {
    if n < 0 then "-" + NatToString(-n) else NatToString(n)
  }

  /** The number a string of decimal digits denotes. */
  function DecimalValue(s: string): nat
    requires AllDigits(s)
  {
    if s == [] then 0
    else DecimalValue(s[..|s| - 1]) * 10 + (s[|s| - 1] as int - '0' as int)
  }

  /** Reading back the digits of `n` gives `n`. */
  lemma {:induction false} DecimalRoundTrip(n: nat)
    ensures DecimalValue(NatToString(n)) == n
    decreases n
  {
    if n >= 10 {
      DecimalRoundTrip(n / 10);
      var s := NatToString(n);
      assert s[..|s| - 1] == NatToString(n / 10);
    }
  }

  /** `padStart(2, '0')`: one leading zero for a one-character string. */
  function PadStart2(s: string): (r: string)
    ensures |s| >= 2 ==> r == s
    ensures |s| < 2 ==> |r| == 2 && r[2 - |s|..] == s && forall i :: 0 <= i < 2 - |s| ==> r[i] == '0'
  {
    if |s| == 0 then "00" else if |s| == 1 then "0" + s else s
  }

  // ------------------------------------------------------- concatenation

  /** `parts.join('')`. */
  function Concat(parts: seq<string>): string
  {
    if parts == [] then "" else parts[0] + Concat(parts[1..])
  }

  lemma {:induction false} ConcatAppend(a: seq<string>, b: seq<string>)
    ensures Concat(a + b) == Concat(a) + Concat(b)
  {
    if a != [] {
      assert (a + b)[1..] == a[1..] + b;
      ConcatAppend(a[1..], b);
    } else {
      assert a + b == b;
    }
  }

  /** `parts.join(sep)`. */
  function Join(parts: seq<string>, sep: string): string
  {
    if parts == [] then ""
    else if |parts| == 1 then parts[0]
    else parts[0] + sep + Join(parts[1..], sep)
  }

  /** `s.split(c)` for a one-character separator. */
  function Split(s: string, c: char): (r: seq<string>)
    ensures |r| >= 1
    decreases |s|
  {
    if s == [] then [""]
    else
      var rest := Split(s[1..], c);
      if s[0] == c then [""] + rest else [[s[0]] + rest[0]] + rest[1..]
  }

  predicate Free(s: string, c: char) { forall i :: 0 <= i < |s| ==> s[i] != c }

  /** A piece without the separator splits to itself. */
  lemma {:induction false} SplitFree(a: string, c: char)
    requires Free(a, c)
    ensures Split(a, c) == [a]
  {
    if a != [] {
      SplitFree(a[1..], c);
      assert [a[0]] + a[1..] == a;
    }
  }

  /** `s.split(c)` has a single piece exactly when `s` does not contain `c`. */
  lemma {:induction false} SplitSingle(s: string, c: char)
    ensures |Split(s, c)| == 1 <==> Free(s, c)
    decreases |s|
  {
    if s != [] {
      SplitSingle(s[1..], c);
      if s[0] != c {
        assert Free(s, c) <==> Free(s[1..], c) by {
          assert forall i :: 1 <= i < |s| ==> s[i] == s[1..][i - 1];
        }
      }
    }
  }

  /** Splitting `a + c + b` yields `a` followed by the pieces of `b`. */
  lemma {:induction false} SplitCons(a: string, c: char, b: string)
    requires Free(a, c)
    ensures Split(a + [c] + b, c) == [a] + Split(b, c)
  {
    if a == [] {
      assert a + [c] + b == [c] + b;
      assert ([c] + b)[1..] == b;
    } else {
      assert (a + [c] + b)[1..] == a[1..] + [c] + b;
      SplitCons(a[1..], c, b);
      assert [a[0]] + a[1..] == a;
    }
  }

  // ------------------------------------------------------- searching

  predicate StartsWith(s: string, prefix: string)
  {
    |prefix| <= |s| && s[..|prefix|] == prefix
  }

  /** `s.includes(t)`. */
  predicate Contains(s: string, t: string)
    decreases |s|
  {
    StartsWith(s, t) || (|s| > 0 && Contains(s[1..], t))
  }

  /** `s.indexOf(t)`: the first position where `t` occurs, if any. */
  function IndexOf(s: string, t: string): (r: Option<nat>)
    ensures r.Some? ==> r.value + |t| <= |s| && s[r.value..r.value + |t|] == t
    ensures r.Some? ==> forall j :: 0 <= j < r.value ==> !StartsWith(s[j..], t)
    ensures r.None? ==> forall j :: 0 <= j <= |s| ==> !StartsWith(s[j..], t)
    decreases |s|
  {
    if StartsWith(s, t) then Some(0)
    else if |s| == 0 then None
    else
      var rest := IndexOf(s[1..], t);
      TailSuffixes(s);
      if rest.None? then None
      else
        TailSlice(s, rest.value + 1, |t|);
        Some(rest.value + 1)
  }

  lemma TailSuffixes(s: string)
    requires |s| > 0
    ensures forall j :: 1 <= j <= |s| ==> s[j..] == s[1..][j - 1..]
  {
  }

  lemma TailSlice(s: string, i: nat, n: nat)
    requires 1 <= i && i + n <= |s|
    ensures s[i..i + n] == s[1..][i - 1..i - 1 + n]
  {
  }

  // ------------------------------------------------------- UTF-16 lengths

  /** The UTF-16 code units of a code point: two for one outside the Basic Multilingual Plane. */
  function Units(c: char): (n: nat)
    ensures 1 <= n <= 2
  {
    if c as int >= 0x10000 then 2 else 1
  }

  /** `s.length`: JavaScript counts UTF-16 code units, not code points. */
  function Utf16Length(s: string): (n: nat)
    ensures |s| <= n <= 2 * |s|
  {
    if s == [] then 0 else Units(s[0]) + Utf16Length(s[1..])
  }

  /**
    `s.slice(0, n)` as far as whole code points go: the longest prefix whose
    UTF-16 length is at most `n`.
  */
  function Utf16Prefix(s: string, n: nat): (r: string)
    ensures |r| <= |s| && r == s[..|r|] && Utf16Length(r) <= n
    ensures Utf16Length(s) <= n ==> r == s
  {
    if s == [] || Units(s[0]) > n then []
    else
      var rest := Utf16Prefix(s[1..], n - Units(s[0]));
      assert ([s[0]] + rest)[1..] == rest;
      [s[0]] + rest
  }

  /** The cut is the longest one: one more code point would exceed `n` units. */
  lemma {:induction false} Utf16PrefixMaximal(s: string, n: nat)
    ensures |Utf16Prefix(s, n)| < |s| ==> Utf16Length(s[..|Utf16Prefix(s, n)| + 1]) > n
  {
    var r := Utf16Prefix(s, n);
    if |r| == |s| {
    } else if Units(s[0]) > n {
      assert s[..1][1..] == [];
    } else {
      var rest := Utf16Prefix(s[1..], n - Units(s[0]));
      Utf16PrefixMaximal(s[1..], n - Units(s[0]));
      assert s[..|r| + 1][1..] == s[1..][..|rest| + 1];
    }
  }

  predicate Bmp(s: string)
  {
    forall i :: 0 <= i < |s| ==> (s[i] as int) < 0x10000
  }

  /** Inside the Basic Multilingual Plane a code point is one code unit. */
  lemma {:induction false} Utf16LengthBmp(s: string)
    requires Bmp(s)
    ensures Utf16Length(s) == |s|
  {
    if s != [] {
      assert Bmp(s[1..]) by {
        forall i | 0 <= i < |s| - 1 ensures (s[1..][i] as int) < 0x10000 {
          assert s[1..][i] == s[i + 1];
        }
      }
      Utf16LengthBmp(s[1..]);
    }
  }

  /** On text inside the Basic Multilingual Plane the cut is `n` characters. */
  lemma {:induction false} Utf16PrefixBmp(s: string, n: nat)
    ensures Bmp(s) ==> Utf16Prefix(s, n) == if |s| <= n then s else s[..n]
  {
    if Bmp(s) && s != [] && n > 0 {
      var t := s[1..];
      assert Bmp(t) by {
        forall i | 0 <= i < |t| ensures (t[i] as int) < 0x10000 {
          assert t[i] == s[i + 1];
        }
      }
      Utf16PrefixBmp(t, n - 1);
      assert Units(s[0]) == 1;
      assert Utf16Prefix(s, n) == [s[0]] + Utf16Prefix(t, n - 1);
      if |s| > n {
        assert [s[0]] + t[..n - 1] == s[..n];
      } else {
        assert [s[0]] + t == s;
      }
    }
  }

  // ------------------------------------------------------- white space

  /**
    The ECMAScript WhiteSpace and LineTerminator code points: what `\s`
    matches and what `trim` and `parseInt` skip.
  */
  predicate IsJsSpace(c: char)
  {
    c == '\t' || c == '\n' || c == '\U{000B}' || c == '\U{000C}' || c == '\r' || c == ' '
    || c == '\U{00A0}' || c == '\U{1680}' || ('\U{2000}' <= c <= '\U{200A}')
    || c == '\U{2028}' || c == '\U{2029}' || c == '\U{202F}' || c == '\U{205F}'
    || c == '\U{3000}' || c == '\U{FEFF}'
  }

  function TrimStart(s: string): (r: string)
    ensures |r| <= |s|
    decreases |s|
  {
    if s != [] && IsJsSpace(s[0]) then TrimStart(s[1..]) else s
  }

  function TrimEnd(s: string): (r: string)
    ensures |r| <= |s|
    decreases |s|
  {
    if s != [] && IsJsSpace(s[|s| - 1]) then TrimEnd(s[..|s| - 1]) else s
  }

  /** `s.trim()`. */
  function Trim(s: string): string
  {
    TrimEnd(TrimStart(s))
  }

  /** A string with no white space is its own trim. */
  lemma {:induction false} TrimNoSpace(s: string)
    requires forall i :: 0 <= i < |s| ==> !IsJsSpace(s[i])
    ensures Trim(s) == s
  {
    assert TrimStart(s) == s;
    assert TrimEnd(s) == s;
  }

  // ------------------------------------------------------- case and replace

  /** ASCII lower-casing, as `toLowerCase` does for the characters of a hex colour. */
  function AsciiLower(c: char): char
  {
    if 'A' <= c <= 'Z' then (c as int + 32) as char else c
  }

  function Lower(s: string): (r: string)
    ensures |r| == |s| && forall i :: 0 <= i < |s| ==> r[i] == AsciiLower(s[i])
  {
    seq(|s|, i requires 0 <= i < |s| => AsciiLower(s[i]))
  }

  /** `s.replace(/c/g, rep)` for a single character `c` and a replacement without `$`. */
  function ReplaceAll(s: string, c: char, rep: string): string
  {
    if s == [] then ""
    else (if s[0] == c then rep else [s[0]]) + ReplaceAll(s[1..], c, rep)
  }

  lemma {:induction false} ReplaceAllAppend(a: string, b: string, c: char, rep: string)
    ensures ReplaceAll(a + b, c, rep) == ReplaceAll(a, c, rep) + ReplaceAll(b, c, rep)
  {
    if a != [] {
      assert (a + b)[1..] == a[1..] + b;
      ReplaceAllAppend(a[1..], b, c, rep);
    } else {
      assert a + b == b;
    }
  }

  /** Replacing a character that does not occur changes nothing. */
  lemma {:induction false} ReplaceAllAbsent(s: string, c: char, rep: string)
    requires forall i :: 0 <= i < |s| ==> s[i] != c
    ensures ReplaceAll(s, c, rep) == s
  {
    if s != [] {
      ReplaceAllAbsent(s[1..], c, rep);
    }
  }
}
