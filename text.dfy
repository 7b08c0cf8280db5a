/** String helpers with the semantics of the JavaScript built-ins the system relies on:
    `trim`, `toLowerCase`, `split`, `join` and `parseInt`, plus the integer pattern
    the request validator accepts. Strings are sequences of code points. */
module Text {

  datatype Option<T> = None | Some(value: T)

  function GetOr<T>(o: Option<T>, default: T): T
  {
    if o.Some? then o.value else default
  }

  // ---------------------------------------------------------------- whitespace and trim

  /** The ECMAScript WhiteSpace and LineTerminator code points: what `trim` removes
      and what `parseInt` skips at the front. */
  predicate IsSpace(c: char)
  {
    || c == ' ' || c == '\t' || c == '\n' || c == '\r' || c == '\U{000B}' || c == '\U{000C}'
    || c == '\U{00A0}' || c == '\U{1680}' || ('\U{2000}' <= c <= '\U{200A}')
    || c == '\U{2028}' || c == '\U{2029}' || c == '\U{202F}' || c == '\U{205F}'
    || c == '\U{3000}' || c == '\U{FEFF}'
  }

  predicate AllSpace(s: string)
  {
    forall i :: 0 <= i < |s| ==> IsSpace(s[i])
  }

  /** Neither end of the string is whitespace. */
  predicate IsTrimmed(s: string)
  {
    s == [] || (!IsSpace(s[0]) && !IsSpace(s[|s| - 1]))
  }

  /** How many whitespace characters `s` starts with. */
  function LeadingSpaces(s: string): (n: nat)
    ensures n <= |s|
    ensures forall i :: 0 <= i < n ==> IsSpace(s[i])
    ensures n < |s| ==> !IsSpace(s[n])
  {
    if s != [] && IsSpace(s[0]) then
      var m := LeadingSpaces(s[1..]);
      assert forall i :: 1 <= i < m + 1 ==> s[i] == s[1..][i - 1];
      m + 1
    else 0
  }

  /** How many whitespace characters `s` ends with. */
  function TrailingSpaces(s: string): (n: nat)
    ensures n <= |s|
    ensures forall i :: |s| - n <= i < |s| ==> IsSpace(s[i])
    ensures n < |s| ==> !IsSpace(s[|s| - 1 - n])
  {
    if s != [] && IsSpace(s[|s| - 1]) then
      var m := TrailingSpaces(s[..|s| - 1]);
      assert forall i :: |s| - 1 - m <= i < |s| - 1 ==> s[i] == s[..|s| - 1][i];
      m + 1
    else 0
  }

  function TrimStart(s: string): string
  {
    s[LeadingSpaces(s)..]
  }

  function TrimEnd(s: string): string
  {
    s[..|s| - TrailingSpaces(s)]
  }

  /** `String.prototype.trim`: the input with the whitespace at both ends cut off. The
      result has no whitespace at either end, and it is empty exactly when the input was
      all whitespace. */
  function Trim(s: string): (r: string)
    ensures |r| <= |s|
    ensures exists i, j :: 0 <= i <= j <= |s| && r == s[i..j] && AllSpace(s[..i]) && AllSpace(s[j..])
    ensures IsTrimmed(r)
    ensures r == [] <==> AllSpace(s)
  {
    var n := LeadingSpaces(s);
    var r := TrimEnd(TrimStart(s));
    LeadingAreSpace(s);
    TrimIsSlice(s);
    TrimTailIsSpace(s);
    assert r == s[n..n + |r|] && AllSpace(s[..n]) && AllSpace(s[n + |r|..]);
    assert !AllSpace(s) ==> n < |s| && TrimStart(s)[0] == s[n];
    r
  }

  lemma TrimIsSlice(s: string)
    ensures var n, r := LeadingSpaces(s), TrimEnd(TrimStart(s));
      n + |r| <= |s| && r == s[n..n + |r|]
  {
  }

  lemma TrimTailIsSpace(s: string)
    ensures var n, r := LeadingSpaces(s), TrimEnd(TrimStart(s));
      n + |r| <= |s| && AllSpace(s[n + |r|..])
  {
    var n := LeadingSpaces(s);
    var t := TrimStart(s);
    var r := TrimEnd(t);
    TrailingAreSpace(t);
    assert s[n + |r|..] == t[|r|..];
  }

  lemma LeadingAreSpace(s: string)
    ensures AllSpace(s[..LeadingSpaces(s)])
  {
    var n := LeadingSpaces(s);
    forall i | 0 <= i < n ensures IsSpace(s[..n][i]) {
      assert s[..n][i] == s[i];
    }
  }

  lemma TrailingAreSpace(t: string)
    ensures AllSpace(t[|t| - TrailingSpaces(t)..])
  {
    var m := |t| - TrailingSpaces(t);
    forall i | 0 <= i < |t| - m ensures IsSpace(t[m..][i]) {
      assert t[m..][i] == t[m + i];
    }
  }

  lemma TrimmedIsFixed(s: string)
    requires IsTrimmed(s)
    ensures Trim(s) == s
  {
    assert LeadingSpaces(s) == 0;
    assert TrimStart(s) == s;
    assert TrailingSpaces(s) == 0;
    assert TrimEnd(s) == s;
  }


  /** A space in front makes no difference to the trimmed string. */
  lemma TrimAfterSpace(t: string)
    ensures Trim([' '] + t) == Trim(t)
  {
    assert ([' '] + t)[1..] == t;
    assert TrimStart([' '] + t) == TrimStart(t);
  }

  /** Whitespace around a trimmed, non-empty string is exactly what `trim` removes. */
  lemma TrimDropsPadding(a: string, t: string, b: string)
    requires AllSpace(a) && AllSpace(b) && IsTrimmed(t) && t != []
    ensures Trim(a + t + b) == t
  {
    var s := a + t + b;
    assert s[..|a|] == a && s[|a|..|a| + |t|] == t && s[|a| + |t|..] == b;
    TrimOfInfix(s, |a|, |a| + |t|);
  }

  /** When only whitespace surrounds a trimmed, non-empty slice, `trim` gives that slice. */
  lemma TrimOfInfix(s: string, m: nat, n: nat)
    requires m < n <= |s| && IsTrimmed(s[m..n]) && AllSpace(s[..m]) && AllSpace(s[n..])
    ensures Trim(s) == s[m..n]
  {
    InfixNotBlank(s, m, n);
    var r := Trim(s);
    var i, j :| 0 <= i <= j <= |s| && r == s[i..j] && AllSpace(s[..i]) && AllSpace(s[j..]);
    InfixUnique(s, m, n, i, j);
  }

  lemma InfixNotBlank(s: string, m: nat, n: nat)
    requires m < n <= |s| && IsTrimmed(s[m..n])
    ensures !AllSpace(s)
  {
    assert s[m..n][0] == s[m];
  }

  /** Two slices that are trimmed, non-empty and surrounded only by whitespace are the same
      slice. */
  lemma InfixUnique(s: string, m: nat, n: nat, i: nat, j: nat)
    requires m < n <= |s| && IsTrimmed(s[m..n]) && AllSpace(s[..m]) && AllSpace(s[n..])
    requires i < j <= |s| && IsTrimmed(s[i..j]) && AllSpace(s[..i]) && AllSpace(s[j..])
    ensures i == m && j == n
  {
    assert s[m..n][0] == s[m] && s[m..n][n - m - 1] == s[n - 1];
    assert s[i..j][0] == s[i] && s[i..j][j - i - 1] == s[j - 1];
    SpacesBefore(s, i, m);
    SpacesAfter(s, j, n - 1);
    SpacesBefore(s, m, i);
    SpacesAfter(s, n, j - 1);
  }

  /** A whitespace prefix ends at or before any character that is not whitespace. */
  lemma SpacesBefore(s: string, m: nat, k: nat)
    requires m <= |s| && AllSpace(s[..m]) && k < |s| && !IsSpace(s[k])
    ensures m <= k
  {
  }

  /** A whitespace suffix starts after any character that is not whitespace. */
  lemma SpacesAfter(s: string, m: nat, k: nat)
    requires m <= |s| && AllSpace(s[m..]) && k < |s| && !IsSpace(s[k])
    ensures k < m
  {
  }

  // ---------------------------------------------------------------- lower case

  /** Upper-case letters of Basic Latin and Latin-1 (the letters of Portuguese). */
  predicate IsUpper(c: char)
  {
    ('A' <= c <= 'Z') || ('\U{00C0}' <= c <= '\U{00DE}' && c != '\U{00D7}')
  }

  function LowerChar(c: char): char
  {
    if IsUpper(c) then (c as int + 32) as char else c
  }

  /** `String.prototype.toLowerCase`, restricted to the letters of `IsUpper`. */
  function Lower(s: string): (r: string)
    ensures |r| == |s|
  {
    seq(|s|, i requires 0 <= i < |s| => LowerChar(s[i]))
  }

  /** Lower-casing never turns a character into whitespace or back, and it is idempotent,
      so a trimmed string stays trimmed. */
  lemma LowerKeepsTrimmed(s: string)
    requires IsTrimmed(s)
    ensures IsTrimmed(Lower(s)) && Lower(Lower(s)) == Lower(s)
  {
    if s != [] {
      assert !IsSpace(Lower(s)[0]) && !IsSpace(Lower(s)[|s| - 1]);
    }
  }

  // ---------------------------------------------------------------- split and join

  function Count(s: string, c: char): nat
  {
    if s == [] then 0 else (if s[0] == c then 1 else 0) + Count(s[1..], c)
  }

  /** `s.split(sep)` for a one-character separator: the pieces between separators, read
      one character at a time (a separator opens a new, empty piece). */
  function Split(s: string, sep: char): (parts: seq<string>)
    ensures |parts| == Count(s, sep) + 1
  {
    if s == [] then [""]
    else
      var rest := Split(s[1..], sep);
      if s[0] == sep then [""] + rest else [[s[0]] + rest[0]] + rest[1..]
  }

  /** No piece contains the separator. */
  lemma {:induction false} SplitPiecesHaveNoSeparator(s: string, sep: char)
    ensures forall k :: 0 <= k < |Split(s, sep)| ==> sep !in Split(s, sep)[k]
  {
    if s != [] {
      SplitPiecesHaveNoSeparator(s[1..], sep);
    }
  }

  /** The first piece is the text before the first separator, or all of `s` when there
      is none. */
  lemma {:induction false} SplitFirstPiece(s: string, sep: char)
    ensures var first := Split(s, sep)[0];
      && |first| <= |s| && first == s[..|first|] && sep !in first
      && (|first| < |s| ==> s[|first|] == sep)
  {
    if s != [] && s[0] != sep {
      SplitFirstPiece(s[1..], sep);
      var rest := Split(s[1..], sep)[0];
      assert Split(s, sep)[0] == [s[0]] + rest;
      assert s == [s[0]] + s[1..];
    }
  }

  /** The pieces, put back together with the separator, give the string back. */
  lemma {:induction false} JoinSplit(s: string, sep: char)
    ensures Join(Split(s, sep), [sep]) == s
  {
    if s != [] {
      var rest := Split(s[1..], sep);
      JoinSplit(s[1..], sep);
      if s[0] == sep {
        assert Join([""] + rest, [sep]) == "" + [sep] + Join(rest, [sep]);
      } else {
        JoinCons(s[0], rest, [sep]);
      }
    }
  }

  /** Prepending a character to the first piece prepends it to the joined string. */
  lemma JoinCons(c: char, parts: seq<string>, sep: string)
    requires parts != []
    ensures Join([[c] + parts[0]] + parts[1..], sep) == [c] + Join(parts, sep)
  {
    var ps := [[c] + parts[0]] + parts[1..];
    if |parts| > 1 {
      assert ps[1..] == parts[1..];
    }
  }

  /** `parts.join(sep)`. */
  function Join(parts: seq<string>, sep: string): string
  {
    if |parts| == 0 then ""
    else if |parts| == 1 then parts[0]
    else parts[0] + sep + Join(parts[1..], sep)
  }

  /** Splitting at a separator splits the two sides independently. */
  lemma {:induction false} SplitConcat(a: string, b: string, sep: char)
    ensures Split(a + [sep] + b, sep) == Split(a, sep) + Split(b, sep)
  {
    if a == [] {
      assert a + [sep] + b == [sep] + b;
      SplitCons(sep, b, sep);
    } else {
      SplitConcat(a[1..], b, sep);
      SplitConcatStep(a[0], a[1..], b, sep);
      assert a == [a[0]] + a[1..];
      assert a + [sep] + b == [a[0]] + (a[1..] + [sep] + b);
    }
  }

  lemma SplitConcatStep(c: char, a: string, b: string, sep: char)
    requires Split(a + [sep] + b, sep) == Split(a, sep) + Split(b, sep)
    ensures Split([c] + (a + [sep] + b), sep) == Split([c] + a, sep) + Split(b, sep)
  {
    var ra, rb := Split(a, sep), Split(b, sep);
    SplitCons(c, a + [sep] + b, sep);
    SplitCons(c, a, sep);
    if c == sep {
      assert [""] + (ra + rb) == ([""] + ra) + rb;
    } else {
      FirstPieceGrows([c], ra, rb);
    }
  }

  lemma FirstPieceGrows(h: string, ra: seq<string>, rb: seq<string>)
    requires ra != []
    ensures [h + (ra + rb)[0]] + (ra + rb)[1..] == ([h + ra[0]] + ra[1..]) + rb
  {
    assert (ra + rb)[0] == ra[0] && (ra + rb)[1..] == ra[1..] + rb;
  }




  /** One step of `Split`: a leading character either closes an empty first piece or
      opens the first piece. */
  lemma SplitCons(c: char, t: string, sep: char)
    ensures Split([c] + t, sep) ==
              if c == sep then [""] + Split(t, sep)
              else [[c] + Split(t, sep)[0]] + Split(t, sep)[1..]
  {
    assert ([c] + t)[1..] == t;
  }


  // ---------------------------------------------------------------- integers

  predicate IsDigit(c: char)
  {
    '0' <= c <= '9'
  }

  predicate IsHexDigit(c: char)
  {
    IsDigit(c) || ('a' <= c <= 'f') || ('A' <= c <= 'F')
  }

  predicate AllDigits(s: string, hex: bool)
  {
    forall i :: 0 <= i < |s| ==> if hex then IsHexDigit(s[i]) else IsDigit(s[i])
  }

  function DigitValue(c: char): (v: nat)
    requires IsHexDigit(c)
    ensures v < 16 && (IsDigit(c) ==> v < 10)
  {
    if IsDigit(c) then c as int - '0' as int
    else if 'a' <= c <= 'f' then c as int - 'a' as int + 10
    else c as int - 'A' as int + 10
  }

  function DigitChar(d: nat): (c: char)
    requires d < 10
    ensures IsDigit(c) && DigitValue(c) == d
  {
    ('0' as int + d) as char
  }

  /** Value of a string of digits in the given base, most significant digit first. */
  function NumberValue(ds: string, base: nat, hex: bool): nat
    requires AllDigits(ds, hex)
  {
    if ds == [] then 0
    else NumberValue(ds[..|ds| - 1], base, hex) * base + DigitValue(ds[|ds| - 1])
  }

  /** The longest prefix of `s` made of digits. */
  function DigitRun(s: string, hex: bool): (r: string)
    ensures |r| <= |s| && r == s[..|r|] && AllDigits(r, hex)
    ensures |r| < |s| ==> !(if hex then IsHexDigit(s[|r|]) else IsDigit(s[|r|]))
  {
    if s != [] && (if hex then IsHexDigit(s[0]) else IsDigit(s[0])) then
      var rest := DigitRun(s[1..], hex);
      assert [s[0]] + rest == s[..|rest| + 1];
      [s[0]] + rest
    else []
  }

  /** `parseInt(s)` without a radix: leading whitespace, an optional sign, then a `0x`
      hexadecimal or a decimal run of digits; None stands for NaN. */
  function ParseInt(s: string): Option<int>
  {
    var t := TrimStart(s);
    var negative := |t| > 0 && t[0] == '-';
    var u := if |t| > 0 && (t[0] == '-' || t[0] == '+') then t[1..] else t;
    var hex := |u| >= 2 && u[0] == '0' && (u[1] == 'x' || u[1] == 'X');
    var ds := if hex then DigitRun(u[2..], true) else DigitRun(u, false);
    if ds == [] then None
    else
      var v: int := NumberValue(ds, if hex then 16 else 10, hex);
      Some(if negative then -v else v)
  }

  function UnsignedPart(s: string): string
  {
    if |s| > 0 && (s[0] == '+' || s[0] == '-') then s[1..] else s
  }

  /** The integer pattern of the request validator: an optional sign and one or more
      decimal digits (leading zeroes allowed). */
  predicate IsIntString(s: string)
  {
    |UnsignedPart(s)| > 0 && AllDigits(UnsignedPart(s), false)
  }

  function IntStringValue(s: string): int
    requires IsIntString(s)
  {
    var v: int := NumberValue(UnsignedPart(s), 10, false);
    if s[0] == '-' then -v else v
  }

  /** `parseInt` reads every string the validator accepts as the integer it denotes. */
  lemma ParseIntOfIntString(s: string)
    requires IsIntString(s)
    ensures ParseInt(s) == Some(IntStringValue(s))
  {
    assert !IsSpace(s[0]);
    assert TrimStart(s) == s;
    var u := UnsignedPart(s);
    assert DigitRun(u, false) == u;
  }

  /** Decimal notation of a natural number, as a template literal prints it. */
  function DecimalString(n: nat): (s: string)
    ensures |s| > 0 && AllDigits(s, false)
  {
    if n < 10 then [DigitChar(n)] else DecimalString(n / 10) + [DigitChar(n % 10)]
  }

  lemma {:induction false} DecimalStringValue(n: nat)
    ensures NumberValue(DecimalString(n), 10, false) == n
  {
    var s := DecimalString(n);
    if n < 10 {
      assert s[..0] == [];
    } else {
      assert s[..|s| - 1] == DecimalString(n / 10);
      DecimalStringValue(n / 10);
    }
  }

  /** Printing a count and parsing it back gives the count. */
  lemma DecimalStringRoundTrip(n: nat)
    ensures IsIntString(DecimalString(n)) && ParseInt(DecimalString(n)) == Some(n)
  {
    var s := DecimalString(n);
    assert UnsignedPart(s) == s by { assert IsDigit(s[0]); }
    DecimalStringValue(n);
    ParseIntOfIntString(s);
  }
}
