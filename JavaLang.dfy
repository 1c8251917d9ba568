/**
  The behaviour of the java.lang string and integer operations the services call:
  String.split on a one-character separator, String.trim, String.equalsIgnoreCase,
  String.endsWith, String.replace(target, ""), Integer.parseInt and the decimal
  rendering of an integer.
 */
module JavaLang {
  import opened Wrappers

  const MinInt32: int := -0x8000_0000
  const MaxInt32: int := 0x7FFF_FFFF

  /** Java `int` and `long`. */
  type Int32 = x: int | -0x8000_0000 <= x <= 0x7FFF_FFFF
  type Int64 = x: int | -0x8000_0000_0000_0000 <= x <= 0x7FFF_FFFF_FFFF_FFFF

  // ---------------------------------------------------------------------------
  // String.split with a separator regex that matches one literal character
  // ---------------------------------------------------------------------------

  /** Every piece of `s` between occurrences of `sep`, empty pieces included. */
  function Pieces(s: string, sep: char): (ps: seq<string>)
    ensures |ps| >= 1
    ensures forall i, j :: 0 <= i < |ps| && 0 <= j < |ps[i]| ==> ps[i][j] != sep
    decreases |s|
  {
    if s == [] then [[]]
    else if s[0] == sep then [[]] + Pieces(s[1..], sep)
    else
      var rest := Pieces(s[1..], sep);
      [[s[0]] + rest[0]] + rest[1..]
  }

  /** The inverse of Pieces: the pieces glued back together with `sep`. */
  function Join(ps: seq<string>, sep: char): string
    requires |ps| >= 1
  {
    if |ps| == 1 then ps[0] else ps[0] + [sep] + Join(ps[1..], sep)
  }

  /** Splitting into pieces loses nothing: joining the pieces gives back the string. */
  lemma {:induction false} JoinPieces(s: string, sep: char)
    ensures Join(Pieces(s, sep), sep) == s
    decreases |s|
  {
    if s == [] {
    } else if s[0] == sep {
      JoinPieces(s[1..], sep);
      assert Pieces(s, sep)[1..] == Pieces(s[1..], sep);
    } else {
      var rest := Pieces(s[1..], sep);
      JoinPieces(s[1..], sep);
      if |rest| > 1 {
        assert Pieces(s, sep)[1..] == rest[1..];
      }
      assert s == [s[0]] + s[1..];
    }
  }

  /** The list with its trailing empty strings removed (split with limit 0). */
  function DropTrailingEmpty(ps: seq<string>): (r: seq<string>)
    ensures |r| <= |ps| && r == ps[..|r|]
    ensures r == [] || r[|r| - 1] != []
    ensures forall i :: |r| <= i < |ps| ==> ps[i] == []
  {
    if ps != [] && ps[|ps| - 1] == [] then DropTrailingEmpty(ps[..|ps| - 1]) else ps
  }

  /**
    `s.split(sep)`: when `sep` does not occur the result is `[s]` (so `""` splits to
    `[""]`); otherwise the pieces with trailing empty ones dropped.
   */
  function Split(s: string, sep: char): seq<string>
  {
    if sep !in s then [s] else DropTrailingEmpty(Pieces(s, sep))
  }

  /** The characters of `s` before the first `sep`. */
  function TakeUntil(s: string, sep: char): (r: string)
    ensures |r| <= |s| && r == s[..|r|] && sep !in r
    ensures |r| < |s| ==> s[|r|] == sep
  {
    if s == [] || s[0] == sep then [] else [s[0]] + TakeUntil(s[1..], sep)
  }

  lemma {:induction false} PiecesHead(s: string, sep: char)
    ensures Pieces(s, sep)[0] == TakeUntil(s, sep)
    decreases |s|
  {
    if s != [] && s[0] != sep {
      PiecesHead(s[1..], sep);
    }
  }

  /** Every piece is the empty string. */
  predicate AllEmpty(ps: seq<string>)
  {
    forall i :: 0 <= i < |ps| ==> ps[i] == []
  }

  /** Every character is `sep`. */
  predicate AllSep(s: string, sep: char)
  {
    forall i :: 0 <= i < |s| ==> s[i] == sep
  }

  lemma {:induction false} PiecesAllEmpty(s: string, sep: char)
    ensures AllEmpty(Pieces(s, sep)) <==> AllSep(s, sep)
    decreases |s|
  {
    if s == [] {
    } else if s[0] == sep {
      PiecesAllEmpty(s[1..], sep);
      var ps := Pieces(s, sep);
      var rest := Pieces(s[1..], sep);
      assert ps == [[]] + rest;
      if AllEmpty(rest) {
        forall i | 0 <= i < |ps| ensures ps[i] == [] {
          if i > 0 { assert ps[i] == rest[i - 1]; }
        }
      }
      if AllEmpty(ps) {
        forall i | 0 <= i < |rest| ensures rest[i] == [] {
          assert rest[i] == ps[i + 1];
        }
      }
      assert s == [sep] + s[1..];
      assert AllSep(s, sep) <==> AllSep(s[1..], sep);
    } else {
      assert Pieces(s, sep)[0] != [];
    }
  }

  /** `split` returns an empty array exactly when the string is made only of separators. */
  lemma SplitEmptyIff(s: string, sep: char)
    ensures Split(s, sep) == [] <==> s != [] && AllSep(s, sep)
  {
    PiecesAllEmpty(s, sep);
    if s != [] && AllSep(s, sep) {
      assert s[0] == sep;
    }
  }

  /** When `split` returns anything, its first element is the text before the first separator. */
  lemma SplitHead(s: string, sep: char)
    requires Split(s, sep) != []
    ensures Split(s, sep)[0] == TakeUntil(s, sep)
  {
    PiecesHead(s, sep);
  }

  lemma {:induction false} PiecesNoSep(x: string, sep: char)
    requires sep !in x
    ensures Pieces(x, sep) == [x]
    decreases |x|
  {
    if x != [] {
      PiecesNoSep(x[1..], sep);
      assert x == [x[0]] + x[1..];
    }
  }

  lemma {:induction false} PiecesAfterFirst(x: string, y: string, sep: char)
    requires sep !in x
    ensures Pieces(x + [sep] + y, sep) == [x] + Pieces(y, sep)
    decreases |x|
  {
    if x == [] {
      assert x + [sep] + y == [sep] + y;
      assert ([sep] + y)[1..] == y;
    } else {
      assert (x + [sep] + y)[1..] == x[1..] + [sep] + y;
      PiecesAfterFirst(x[1..], y, sep);
      assert [x[0]] + x[1..] == x;
    }
  }

  /** Joining separator-free pieces with `sep` and splitting again gives the pieces back. */
  lemma {:induction false} PiecesOfJoin(ps: seq<string>, sep: char)
    requires |ps| >= 1
    requires forall i :: 0 <= i < |ps| ==> sep !in ps[i]
    ensures Pieces(Join(ps, sep), sep) == ps
    decreases |ps|
  {
    if |ps| == 1 {
      PiecesNoSep(ps[0], sep);
    } else {
      PiecesOfJoin(ps[1..], sep);
      PiecesAfterFirst(ps[0], Join(ps[1..], sep), sep);
      assert [ps[0]] + ps[1..] == ps;
    }
  }

  /**
    A dotted path built from non-empty, separator-free segments splits back into exactly
    those segments.
   */
  lemma SplitOfJoin(ps: seq<string>, sep: char)
    requires |ps| >= 1
    requires forall i :: 0 <= i < |ps| ==> ps[i] != [] && sep !in ps[i]
    ensures Split(Join(ps, sep), sep) == ps
  {
    PiecesOfJoin(ps, sep);
    if |ps| == 1 {
      assert Join(ps, sep) == ps[0];
    } else {
      assert Join(ps, sep)[|ps[0]|] == sep;
    }
  }

  // ---------------------------------------------------------------------------
  // String.trim
  // ---------------------------------------------------------------------------

  function TrimLeading(s: string): (r: string)
    ensures |r| <= |s| && r == s[|s| - |r|..]
    ensures forall i :: 0 <= i < |s| - |r| ==> s[i] <= ' '
    ensures r == [] || r[0] > ' '
  {
    if s != [] && s[0] <= ' ' then TrimLeading(s[1..]) else s
  }

  function TrimTrailing(s: string): (r: string)
    ensures |r| <= |s| && r == s[..|r|]
    ensures forall i :: |r| <= i < |s| ==> s[i] <= ' '
    ensures r == [] || r[|r| - 1] > ' '
  {
    if s != [] && s[|s| - 1] <= ' ' then TrimTrailing(s[..|s| - 1]) else s
  }

  /** `s[i..j]` drops only characters at or below U+0020 from either end of `s`. */
  predicate StripsOnlyBlanks(s: string, i: int, j: int) {
    0 <= i <= j <= |s|
    && (forall k :: 0 <= k < i ==> s[k] <= ' ')
    && (forall k :: j <= k < |s| ==> s[k] <= ' ')
  }

  /** A blank-free prefix `r` of a blank-free suffix `t` of `s` is a slice dropping only blanks. */
  lemma TrimSlice(s: string, t: string, r: string)
    requires |t| <= |s| && t == s[|s| - |t|..] && forall k :: 0 <= k < |s| - |t| ==> s[k] <= ' '
    requires |r| <= |t| && r == t[..|r|] && forall k :: |r| <= k < |t| ==> t[k] <= ' '
    ensures StripsOnlyBlanks(s, |s| - |t|, |s| - |t| + |r|) && r == s[|s| - |t|..|s| - |t| + |r|]
  {
    var i := |s| - |t|;
    forall k | 0 <= k < |r| ensures r[k] == s[i + k] {
      assert r[k] == t[k];
      assert t[k] == s[i + k];
    }
    forall k | i + |r| <= k < |s| ensures s[k] <= ' ' {
      assert s[k] == t[k - i];
    }
  }

  /** `s.trim()`: `s` without its leading and trailing characters at or below U+0020. */
  function Trim(s: string): (r: string)
    ensures exists i, j :: StripsOnlyBlanks(s, i, j) && r == s[i..j]
    ensures r == [] || (r[0] > ' ' && r[|r| - 1] > ' ')
  {
    var t := TrimLeading(s);
    var r := TrimTrailing(t);
    TrimSlice(s, t, r);
    r
  }

  // ---------------------------------------------------------------------------
  // equalsIgnoreCase, endsWith, replace
  // ---------------------------------------------------------------------------

  function ToUpperAscii(c: char): char {
    if 'a' <= c <= 'z' then (c as int - 32) as char else c
  }

  /** `a.equalsIgnoreCase(b)`, with the case mapping of the ASCII letters. */
  predicate EqualsIgnoreCase(a: string, b: string) {
    |a| == |b| && forall i :: 0 <= i < |a| ==> ToUpperAscii(a[i]) == ToUpperAscii(b[i])
  }

  predicate EndsWith(s: string, suffix: string) {
    |suffix| <= |s| && s[|s| - |suffix|..] == suffix
  }

  /** `target` occurs somewhere in `s`. */
  predicate Occurs(s: string, target: string)
    decreases |s|
  {
    |target| <= |s| && (s[..|target|] == target || (s != [] && Occurs(s[1..], target)))
  }

  /** `s.replace(target, "")`: every non-overlapping occurrence, scanned left to right, removed. */
  function RemoveAll(s: string, target: string): (r: string)
    requires target != []
    ensures |r| <= |s|
    decreases |s|
  {
    if |s| < |target| then s
    else if s[..|target|] == target then RemoveAll(s[|target|..], target)
    else [s[0]] + RemoveAll(s[1..], target)
  }

  // ---------------------------------------------------------------------------
  // Integer.parseInt and decimal rendering
  // ---------------------------------------------------------------------------

  /**
    Removing every occurrence of a marker whose first character does not recur in it
    strips exactly one copy from `s + marker`, provided `s` itself holds no copy.
   */
  lemma {:induction false} RemoveAllOfAppended(s: string, marker: string)
    requires marker != [] && marker[0] !in marker[1..]
    requires !Occurs(s, marker)
    ensures RemoveAll(s + marker, marker) == s
    decreases |s|
  {
    if s == [] {
      assert (s + marker)[..|marker|] == marker && (s + marker)[|marker|..] == [];
    } else {
      if |s| >= |marker| {
        assert (s + marker)[..|marker|] == s[..|marker|] != marker;
      } else {
        assert marker[|s|] == marker[1..][|s| - 1] != marker[0];
        assert (s + marker)[|s|] == marker[0];
      }
      assert (s + marker)[1..] == s[1..] + marker;
      RemoveAllOfAppended(s[1..], marker);
      assert [s[0]] + s[1..] == s;
    }
  }

  predicate IsDigit(c: char) { '0' <= c <= '9' }

  predicate AllDigits(s: string) { forall i :: 0 <= i < |s| ==> IsDigit(s[i]) }

  function DigitsValue(ds: string): nat
    requires AllDigits(ds)
  {
    if ds == [] then 0 else DigitsValue(ds[..|ds| - 1]) * 10 + (ds[|ds| - 1] as int - '0' as int)
  }

  /**
    `Integer.parseInt(s)`: an optional `-` or `+` followed by at least one decimal digit,
    whose value fits in an `int`; anything else is a NumberFormatException (None).
   */
  function ParseInt(s: string): Option<Int32>
  {
    if s == [] then None
    else
      var digits := if s[0] == '-' || s[0] == '+' then s[1..] else s;
      if digits == [] || !AllDigits(digits) then None
      else
        var magnitude: int := DigitsValue(digits);
        var v: int := if s[0] == '-' then -magnitude else magnitude;
        if MinInt32 <= v <= MaxInt32 then Some(v) else None
  }

  function DigitChar(d: int): char
    requires 0 <= d < 10
  {
    ('0' as int + d) as char
  }

  function NatToText(n: nat): (t: string)
    ensures |t| >= 1 && AllDigits(t)
  {
    if n < 10 then [DigitChar(n)] else NatToText(n / 10) + [DigitChar(n % 10)]
  }

  /** The decimal text of an integer, as Integer.toString and Long.toString write it. */
  function IntToText(n: int): string {
    if n < 0 then "-" + NatToText(-n) else NatToText(n)
  }

  lemma {:induction false} NatToTextValue(n: nat)
    ensures DigitsValue(NatToText(n)) == n
  {
    if n >= 10 {
      NatToTextValue(n / 10);
      var t := NatToText(n);
      assert t[..|t| - 1] == NatToText(n / 10);
    }
  }

  /** Parsing the decimal text of any `int` gives the `int` back. */
  lemma ParseIntRoundTrip(n: Int32)
    ensures ParseInt(IntToText(n)) == Some(n)
  {
    if n < 0 {
      var m: nat := -(n as int);
      NatToTextValue(m);
      assert IntToText(n)[1..] == NatToText(m);
    } else {
      NatToTextValue(n);
      assert IsDigit(NatToText(n)[0]);
    }
  }
}
