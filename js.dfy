/**
 * The JavaScript primitives the system's code leans on, stated exactly
 * enough for its branches: numbers that can be NaN or infinite, truthiness,
 * thrown values, ASCII case mapping, `trim`, `includes`, global
 * `replace` and the decimal printing of integers.
 */
module Js {

  /** A JavaScript number. Finite values are exact reals in this model. */
  datatype Num = Finite(r: real) | NaN | PosInf | NegInf

  /** `!!n`: zero and NaN are the falsy numbers. */
  predicate Truthy(n: Num)
  {
    match n
    case Finite(r) => r != 0.0
    case NaN => false
    case _ => true
  }

  /** `n > 0` (false for NaN). */
  predicate Positive(n: Num)
  {
    (n.Finite? && n.r > 0.0) || n.PosInf?
  }

  /** `n < 0` (false for NaN). */
  predicate Negative(n: Num)
  {
    (n.Finite? && n.r < 0.0) || n.NegInf?
  }

  /** A quotient of bounds: `lo * n <= a <= hi * n` with `n` positive puts `a / n` between `lo` and `hi`. */
  lemma QuotientBounds(a: real, n: real, lo: real, hi: real)
    requires n > 0.0 && lo * n <= a <= hi * n
    ensures lo <= a / n <= hi
  {
    var q := a / n;
    assert q * n == a;
  }

  /** A thrown value: an `Error` object, or anything else (shown through `String(v)`). */
  datatype Fault = ErrorObject(message: string) | NonError(shown: string)

  /** `error instanceof Error ? error.message : String(error)`. */
  function FaultText(f: Fault): string
  {
    match f
    case ErrorObject(m) => m
    case NonError(s) => s
  }

  /** `error instanceof Error ? error : new Error(String(error))`. */
  function AsError(f: Fault): (e: Fault)
    ensures e.ErrorObject? && e.message == FaultText(f)
  {
    ErrorObject(FaultText(f))
  }

  // ---------------------------------------------------------------- case

  function UpperChar(c: char): char
  {
    if 'a' <= c <= 'z' then (c as int - 32) as char else c
  }

  function LowerChar(c: char): char
  {
    if 'A' <= c <= 'Z' then (c as int + 32) as char else c
  }

  /** `s.toUpperCase()` on the ASCII letters. */
  function ToUpper(s: string): (r: string)
    ensures |r| == |s|
    ensures forall i :: 0 <= i < |s| ==> r[i] == UpperChar(s[i])
  {
    seq(|s|, i requires 0 <= i < |s| => UpperChar(s[i]))
  }

  /** `s.toLowerCase()` on the ASCII letters. */
  function ToLower(s: string): (r: string)
    ensures |r| == |s|
    ensures forall i :: 0 <= i < |s| ==> r[i] == LowerChar(s[i])
  {
    seq(|s|, i requires 0 <= i < |s| => LowerChar(s[i]))
  }

  lemma ToUpperIdempotent(s: string)
    ensures ToUpper(ToUpper(s)) == ToUpper(s)
  {
    assert forall i :: 0 <= i < |s| ==> UpperChar(UpperChar(s[i])) == UpperChar(s[i]);
  }

  lemma ToLowerIdempotent(s: string)
    ensures ToLower(ToLower(s)) == ToLower(s)
  {
    assert forall i :: 0 <= i < |s| ==> LowerChar(LowerChar(s[i])) == LowerChar(s[i]);
  }

  // -------------------------------------------------------------- length

  /** A character outside the Basic Multilingual Plane, which UTF-16 writes as two code units. */
  predicate IsAstral(c: char)
  {
    c as int >= 0x1_0000
  }

  /** `s.length`: the UTF-16 code units of `s`, two for each astral character. */
  function Utf16Length(s: string): (n: nat)
    ensures |s| <= n <= 2 * |s|
  {
    if s == [] then 0 else (if IsAstral(s[0]) then 2 else 1) + Utf16Length(s[1..])
  }

  /** `.length` counts characters exactly when none of them is astral. */
  lemma {:induction false} Utf16LengthExact(s: string)
    ensures Utf16Length(s) == |s| <==> forall i :: 0 <= i < |s| ==> !IsAstral(s[i])
  {
    if s != [] {
      Utf16LengthExact(s[1..]);
      assert forall i :: 1 <= i < |s| ==> s[i] == s[1..][i - 1];
    }
  }

  /** Every astral character takes two code units. */
  lemma {:induction false} Utf16LengthAstral(s: string)
    requires forall i :: 0 <= i < |s| ==> IsAstral(s[i])
    ensures Utf16Length(s) == 2 * |s|
  {
    if s != [] {
      assert forall i :: 1 <= i < |s| ==> s[i] == s[1..][i - 1];
      Utf16LengthAstral(s[1..]);
    }
  }

  // ---------------------------------------------------------- whitespace

  /**
   * The characters `String.prototype.trim` and the regular-expression class
   * `\s` treat as white space: WhiteSpace (TAB, VT, FF, ZWNBSP and the Zs
   * space separators) and LineTerminator (LF, CR, LS, PS).
   */
  predicate IsSpace(c: char)
  {
    c == '\t' || c == '\n' || c == '\U{B}' || c == '\U{C}' || c == '\r' || c == ' '
    || c == '\U{A0}' || c == '\U{1680}' || ('\U{2000}' <= c <= '\U{200A}')
    || c == '\U{2028}' || c == '\U{2029}' || c == '\U{202F}' || c == '\U{205F}'
    || c == '\U{3000}' || c == '\U{FEFF}'
  }

  function TrimStart(s: string): (r: string)
    ensures |r| <= |s| && r == s[|s| - |r|..]
    ensures r == [] || !IsSpace(r[0])
    ensures forall i :: 0 <= i < |s| - |r| ==> IsSpace(s[i])
  {
    if |s| > 0 && IsSpace(s[0]) then TrimStart(s[1..]) else s
  }

  function TrimEnd(s: string): (r: string)
    ensures |r| <= |s| && r == s[..|r|]
    ensures r == [] || !IsSpace(r[|r| - 1])
    ensures forall i :: |r| <= i < |s| ==> IsSpace(s[i])
  {
    if |s| > 0 && IsSpace(s[|s| - 1]) then TrimEnd(s[..|s| - 1]) else s
  }

  /** No astral character is white space, so `trim` leaves them alone at either end. */
  lemma AstralEdgesKept(s: string)
    requires s != [] && IsAstral(s[0]) && IsAstral(s[|s| - 1])
    ensures Trim(s) == s
  {
    AstralNotSpace(s[0]);
    AstralNotSpace(s[|s| - 1]);
    assert TrimStart(s) == s;
    assert TrimEnd(s) == s;
  }

  /** Two astral characters are four code units long, and `trim` keeps both. */
  lemma AstralPairLength(a: char, b: char)
    requires IsAstral(a) && IsAstral(b)
    ensures Utf16Length(Trim([a, b])) == 4
  {
    var t := [a, b];
    AstralNotSpace(a);
    AstralNotSpace(b);
    assert TrimStart(t) == t;
    assert Trim(t) == TrimEnd(t) == t;
    assert Utf16Length([b]) == 2;
  }

  lemma AstralNotSpace(c: char)
    requires IsAstral(c)
    ensures !IsSpace(c)
  {
    assert c as int >= 0x1_0000 > '\U{205F}' as int;
  }

  /** `s.trim()`: `s` without its leading and trailing white space. */
  function Trim(s: string): (r: string)
  {
    TrimEnd(TrimStart(s))
  }

  /** How many leading characters `trim` cuts away. */
  function TrimOffset(s: string): nat
  {
    |s| - |TrimStart(s)|
  }

  /**
   * What `trim` returns: a contiguous piece of `s` that neither starts nor
   * ends with white space, everything cut away being white space; and it is
   * empty exactly when `s` is all white space.
   */
  lemma TrimSpec(s: string)
    ensures TrimOffset(s) + |Trim(s)| <= |s|
    ensures Trim(s) == s[TrimOffset(s)..TrimOffset(s) + |Trim(s)|]
    ensures forall i :: 0 <= i < TrimOffset(s) ==> IsSpace(s[i])
    ensures forall i :: TrimOffset(s) + |Trim(s)| <= i < |s| ==> IsSpace(s[i])
    ensures Trim(s) == [] || (!IsSpace(Trim(s)[0]) && !IsSpace(Trim(s)[|Trim(s)| - 1]))
    ensures Trim(s) == [] <==> forall i :: 0 <= i < |s| ==> IsSpace(s[i])
  {
    TrimPiece(s);
    TrimBlank(s);
  }

  /** `trim` keeps a contiguous piece of `s` and cuts away only white space. */
  lemma TrimPiece(s: string)
    ensures TrimOffset(s) + |Trim(s)| <= |s|
    ensures Trim(s) == s[TrimOffset(s)..TrimOffset(s) + |Trim(s)|]
    ensures forall i :: TrimOffset(s) + |Trim(s)| <= i < |s| ==> IsSpace(s[i])
    ensures Trim(s) == [] || (!IsSpace(Trim(s)[0]) && !IsSpace(Trim(s)[|Trim(s)| - 1]))
  {
    TrimSlice(s);
    TrimTail(s);
    var t := TrimStart(s);
    if TrimEnd(t) != [] {
      assert TrimEnd(t)[0] == t[0];
    }
  }

  /** What `trim` keeps is the piece of `s` starting at the offset. */
  lemma TrimSlice(s: string)
    ensures TrimOffset(s) + |Trim(s)| <= |s|
    ensures Trim(s) == s[TrimOffset(s)..TrimOffset(s) + |Trim(s)|]
  {
    var t := TrimStart(s);
    var a := |s| - |t|;
    var r := TrimEnd(t);
    calc {
      r;
      t[..|r|];
      s[a..][..|r|];
      s[a..a + |r|];
    }
  }

  /** Everything after the kept piece is white space. */
  lemma TrimTail(s: string)
    ensures forall i :: TrimOffset(s) + |Trim(s)| <= i < |s| ==> IsSpace(s[i])
  {
    var t := TrimStart(s);
    var a := |s| - |t|;
    var r := TrimEnd(t);
    forall i | a + |r| <= i < |s| ensures IsSpace(s[i]) {
      assert s[i] == t[i - a];
    }
  }

  /** `trim` gives the empty string exactly when `s` is all white space. */
  lemma TrimBlank(s: string)
    ensures Trim(s) == [] <==> forall i :: 0 <= i < |s| ==> IsSpace(s[i])
  {
    var t := TrimStart(s);
    var a := |s| - |t|;
    if t != [] {
      assert s[a] == t[0];
    }
  }

  // ----------------------------------------------------------- substrings

  predicate StartsWith(s: string, p: string)
  {
    |p| <= |s| && s[..|p|] == p
  }

  /** `p` occurs in `s` starting at position `i`. */
  predicate OccursAt(s: string, p: string, i: nat)
  {
    i + |p| <= |s| && s[i..i + |p|] == p
  }

  /** `s.includes(p)`. */
  predicate Includes(s: string, p: string)
    decreases |s|
  {
    StartsWith(s, p) || (|s| > 0 && Includes(s[1..], p))
  }

  /** `includes` means: `p` occurs at some position of `s`. */
  lemma {:induction false} IncludesAt(s: string, p: string)
    ensures Includes(s, p) <==> exists i: nat :: OccursAt(s, p, i)
    decreases |s|
  {
    if |s| > 0 {
      IncludesAt(s[1..], p);
      if Includes(s[1..], p) && !StartsWith(s, p) {
        var i: nat :| OccursAt(s[1..], p, i);
        assert s[i + 1..i + 1 + |p|] == s[1..][i..i + |p|];
        assert OccursAt(s, p, i + 1);
      }
      if StartsWith(s, p) {
        assert OccursAt(s, p, 0);
      }
      if exists i: nat :: OccursAt(s, p, i) {
        var i: nat :| OccursAt(s, p, i);
        if i > 0 {
          assert s[1..][i - 1..i - 1 + |p|] == s[i..i + |p|];
          assert OccursAt(s[1..], p, i - 1);
        }
      }
    } else {
      if StartsWith(s, p) {
        assert OccursAt(s, p, 0);
      }
      if exists i: nat :: OccursAt(s, p, i) {
        var i: nat :| OccursAt(s, p, i);
        assert StartsWith(s, p);
      }
    }
  }

  /** A piece of `s` found at a given position is included in `s`. */
  lemma {:induction false} IncludesPiece(s: string, i: nat, p: string)
    requires OccursAt(s, p, i)
    ensures Includes(s, p)
  {
    IncludesAt(s, p);
  }

  /** Text put before a string keeps whatever it includes. */
  lemma IncludesPrefixed(a: string, s: string, p: string)
    requires Includes(s, p)
    ensures Includes(a + s, p)
  {
    IncludesAt(s, p);
    var i: nat :| OccursAt(s, p, i);
    assert (a + s)[|a| + i..|a| + i + |p|] == s[i..i + |p|];
    IncludesPiece(a + s, |a| + i, p);
  }

  /** Text put after a string keeps whatever it includes. */
  lemma IncludesSuffixed(s: string, b: string, p: string)
    requires Includes(s, p)
    ensures Includes(s + b, p)
  {
    IncludesAt(s, p);
    var i: nat :| OccursAt(s, p, i);
    assert (s + b)[i..i + |p|] == s[i..i + |p|];
    IncludesPiece(s + b, i, p);
  }

  /** Every string includes the empty string. */
  lemma IncludesEmpty(s: string)
    ensures Includes(s, "")
  {
  }

  /**
   * `s.replace(/p/g, r)` for a literal pattern: occurrences are replaced
   * left to right, without overlap.
   */
  function ReplaceAll(s: string, p: string, r: string): string
    requires |p| > 0
    decreases |s|
  {
    if |s| < |p| then s
    else if StartsWith(s, p) then r + ReplaceAll(s[|p|..], p, r)
    else [s[0]] + ReplaceAll(s[1..], p, r)
  }

  /** Replacing a pattern that does not occur leaves the text as it was. */
  lemma {:induction false} ReplaceAbsent(s: string, p: string, r: string)
    requires |p| > 0 && !Includes(s, p)
    ensures ReplaceAll(s, p, r) == s
    decreases |s|
  {
    if |s| >= |p| {
      ReplaceAbsent(s[1..], p, r);
    }
  }

  // --------------------------------------------------------------- numbers

  function DigitChar(d: nat): char
    requires d < 10
  {
    ('0' as int + d) as char
  }

  /** The decimal text of a natural number, as `String(n)` prints it. */
  function NatToString(n: nat): (s: string)
    ensures |s| > 0
    ensures forall i :: 0 <= i < |s| ==> '0' <= s[i] <= '9'
    ensures |s| > 1 ==> s[0] != '0'
  {
    if n < 10 then [DigitChar(n)] else NatToString(n / 10) + [DigitChar(n % 10)]
  }

  /** The decimal text of an integer, with a leading '-' when negative. */
  function IntToString(i: int): string
  {
    if i < 0 then "-" + NatToString(-i) else NatToString(i)
  }

  /** `parts.join(sep)`. */
  function Join(parts: seq<string>, sep: string): string
  {
    if parts == [] then "" else if |parts| == 1 then parts[0] else parts[0] + sep + Join(parts[1..], sep)
  }
}
