/**
 * The JavaScript string semantics the rest of the model relies on: the
 * white-space set shared by `trim`, `parseInt` and the regular-expression
 * class `\s`; truthiness of an optional string and the `||` operator on it;
 * `parseInt(s, 10)` with its leniency; `split` on a one-character separator;
 * `includes` and `startsWith`; and `replace(/\D/g, '')`.
 */
module JsText {
  import opened Wrappers

  /** A WhiteSpace or LineTerminator code point of ECMAScript (section 12.2 and 12.3 of ECMA-262). */
  predicate IsSpace(c: char) {
    c == '\t' || c == '\n' || c == '\U{000B}' || c == '\U{000C}' || c == '\r' || c == ' ' ||
    c == '\U{00A0}' || c == '\U{1680}' || ('\U{2000}' <= c <= '\U{200A}') || c == '\U{2028}' ||
    c == '\U{2029}' || c == '\U{202F}' || c == '\U{205F}' || c == '\U{3000}' || c == '\U{FEFF}'
  }

  /** The regular-expression class `\d`: ASCII decimal digits only. */
  predicate IsDigit(c: char) {
    '0' <= c <= '9'
  }

  predicate IsBlank(s: string) {
    forall i :: 0 <= i < |s| ==> IsSpace(s[i])
  }

  predicate AllDigits(s: string) {
    forall i :: 0 <= i < |s| ==> IsDigit(s[i])
  }

  /** JavaScript truthiness of a string that may be `undefined`/`null`: present and non-empty. */
  predicate Truthy(o: Option<string>) {
    o.Some? && o.value != ""
  }

  /** `a || b` on optional strings: `a` when it is truthy, otherwise `b` (even when `b` is falsy too). */
  function Or(a: Option<string>, b: Option<string>): (r: Option<string>)
    ensures Truthy(a) ==> r == a
    ensures !Truthy(a) ==> r == b
  {
    if Truthy(a) then a else b
  }

  // ---------------------------------------------------------------------------
  // trim

  /** The number of white-space characters at the start of `s`. */
  function LeadingSpace(s: string): (n: nat)
    ensures n <= |s|
    ensures n == |s| || !IsSpace(s[n])
  {
    if s != [] && IsSpace(s[0]) then 1 + LeadingSpace(s[1..]) else 0
  }

  /** The number of white-space characters at the end of `s`. */
  function TrailingSpace(s: string): (n: nat)
    ensures n <= |s|
    ensures n == |s| || !IsSpace(s[|s| - 1 - n])
  {
    if s != [] && IsSpace(s[|s| - 1]) then 1 + TrailingSpace(s[..|s| - 1]) else 0
  }

  lemma {:induction false} LeadingSpaceBlank(s: string)
    ensures forall i :: 0 <= i < LeadingSpace(s) ==> IsSpace(s[i])
  {
    if s != [] && IsSpace(s[0]) {
      LeadingSpaceBlank(s[1..]);
      assert forall i :: 1 <= i < LeadingSpace(s) ==> s[i] == s[1..][i - 1];
    }
  }

  lemma {:induction false} TrailingSpaceBlank(s: string)
    ensures forall i :: |s| - TrailingSpace(s) <= i < |s| ==> IsSpace(s[i])
  {
    if s != [] && IsSpace(s[|s| - 1]) {
      var init := s[..|s| - 1];
      TrailingSpaceBlank(init);
      assert forall i :: 0 <= i < |init| ==> s[i] == init[i];
    }
  }

  /** `String.prototype.trimStart`. */
  function TrimStart(s: string): (r: string)
    ensures |r| <= |s| && r == s[|s| - |r|..]
    ensures r == [] || !IsSpace(r[0])
  {
    s[LeadingSpace(s)..]
  }

  /** `String.prototype.trimEnd`. */
  function TrimEnd(s: string): (r: string)
    ensures |r| <= |s| && r == s[..|r|]
    ensures r == [] || !IsSpace(r[|r| - 1])
  {
    s[..|s| - TrailingSpace(s)]
  }

  /** What `TrimStart` removes is white space. */
  lemma TrimStartCutsBlank(s: string)
    ensures IsBlank(s[..|s| - |TrimStart(s)|])
  {
    LeadingSpaceBlank(s);
    var n := LeadingSpace(s);
    assert forall i :: 0 <= i < n ==> s[..n][i] == s[i];
  }

  /** What `TrimEnd` removes is white space. */
  lemma TrimEndCutsBlank(s: string)
    ensures IsBlank(s[|TrimEnd(s)|..])
  {
    TrailingSpaceBlank(s);
    var n := |s| - TrailingSpace(s);
    assert forall i :: 0 <= i < |s| - n ==> s[n..][i] == s[n + i];
  }

  /** `String.prototype.trim`. */
  function Trim(s: string): (r: string)
  {
    TrimEnd(TrimStart(s))
  }

  /** Trim removes white space at both ends only: what is left is the piece of
      the input that starts right after the leading white space. */
  lemma {:induction false} TrimIsSlice(s: string)
    ensures var a := |s| - |TrimStart(s)|;
            a + |Trim(s)| <= |s| && Trim(s) == s[a..a + |Trim(s)|]
  {
    var t := TrimStart(s);
    var r := TrimEnd(t);
    var a := |s| - |t|;
    SliceOfSuffix(s, a, |r|);
  }

  lemma SliceOfSuffix(s: string, a: nat, n: nat)
    requires a + n <= |s|
    ensures s[a..][..n] == s[a..a + n]
  {
  }

  /** Everything trim cuts off, before and after what it keeps, is white space. */
  lemma {:induction false} TrimCutsBlank(s: string)
    ensures var a := |s| - |TrimStart(s)|;
            a + |Trim(s)| <= |s| && IsBlank(s[..a]) && IsBlank(s[a + |Trim(s)|..])
  {
    var t := TrimStart(s);
    var r := TrimEnd(t);
    var a := |s| - |t|;
    TrimStartCutsBlank(s);
    TrimEndCutsBlank(t);
    SuffixOfSuffix(s, a, |r|);
    BlankOfEqual(t[|r|..], s[a + |r|..]);
  }

  lemma BlankOfEqual(x: string, y: string)
    requires x == y && IsBlank(x)
    ensures IsBlank(y)
  {
  }

  lemma SuffixOfSuffix(s: string, a: nat, n: nat)
    requires a + n <= |s|
    ensures s[a..][n..] == s[a + n..]
  {
  }

  /** What trim leaves starts and ends with a character that is not white space. */
  lemma {:induction false} TrimEndsWithNonSpace(s: string)
    ensures Trim(s) == [] || (!IsSpace(Trim(s)[0]) && !IsSpace(Trim(s)[|Trim(s)| - 1]))
  {
    var t := TrimStart(s);
    var r := TrimEnd(t);
    if r != [] {
      assert r[0] == t[..|r|][0] == t[0];
    }
  }

  /** A trimmed string is empty exactly when the input is all white space. */
  lemma {:induction false} TrimEmptyIffBlank(s: string)
    ensures Trim(s) == "" <==> IsBlank(s)
  {
    var t := TrimStart(s);
    LeadingSpaceBlank(s);
    TrailingSpaceBlank(t);
    if Trim(s) == "" {
      assert |t| == 0;
    } else {
      var r := Trim(s);
      assert r[0] == t[0] == s[LeadingSpace(s)];
    }
  }

  /** Trimming twice is trimming once. */
  lemma {:induction false} TrimIdempotent(s: string)
    ensures Trim(Trim(s)) == Trim(s)
  {
    var r := Trim(s);
    var t := TrimStart(s);
    if r != [] {
      assert r[0] == t[0];
      assert LeadingSpace(r) == 0;
      assert TrimStart(r) == r;
      assert TrailingSpace(r) == 0;
    }
  }

  // ---------------------------------------------------------------------------
  // parseInt

  function DigitValue(c: char): int {
    (c as int) - ('0' as int)
  }

  function DigitChar(v: nat): (c: char)
    requires v <= 9
    ensures IsDigit(c) && DigitValue(c) == v
  {
    (('0' as int) + v) as char
  }

  /** The number a string of decimal digits denotes. */
  function DecimalValue(d: string): int {
    if d == [] then 0 else DecimalValue(d[..|d| - 1]) * 10 + DigitValue(d[|d| - 1])
  }

  /** The longest prefix of decimal digits. */
  function DigitPrefix(s: string): (d: string)
    ensures |d| <= |s|
  {
    if s != [] && IsDigit(s[0]) then [s[0]] + DigitPrefix(s[1..]) else []
  }

  /** `DigitPrefix` is a prefix, made of digits, and the character after it (if
      any) is not a digit. */
  lemma {:induction false} DigitPrefixSpec(s: string)
    ensures var d := DigitPrefix(s);
            d == s[..|d|] && AllDigits(d) && (|d| == |s| || !IsDigit(s[|d|]))
  {
    if s != [] && IsDigit(s[0]) {
      var tail := DigitPrefix(s[1..]);
      DigitPrefixSpec(s[1..]);
      var d := DigitPrefix(s);
      assert d == [s[0]] + tail;
      assert forall i :: 1 <= i < |d| ==> d[i] == tail[i - 1];
      if |d| < |s| {
        assert s[|d|] == s[1..][|tail|];
      }
    }
  }

  /** The text `parseInt` reads after leading white space and one optional sign. */
  function Unsigned(t: string): string
  {
    if t != [] && (t[0] == '-' || t[0] == '+') then t[1..] else t
  }

  /** `parseInt(s, 10)`: skip leading white space, read one optional sign, then
      take the longest run of decimal digits; `None` is NaN (no digit there).
      Trailing text after the digits is ignored. */
  function ParseInt(s: string): (r: Option<int>)
  {
    var t := TrimStart(s);
    var d := DigitPrefix(Unsigned(t));
    if d == [] then None
    else
      var v := DecimalValue(d);
      if t[0] == '-' then Some(-v) else Some(v)
  }

  /** The decimal text of a natural number, without leading zeros. */
  function NatToString(n: nat): (s: string)
    ensures s != [] && AllDigits(s)
    ensures s[0] != '0' || n == 0
  {
    if n < 10 then [DigitChar(n)] else NatToString(n / 10) + [DigitChar(n % 10)]
  }

  lemma {:induction false} DecimalRoundTrip(n: nat)
    ensures DecimalValue(NatToString(n)) == n
  {
    if n >= 10 {
      var s := NatToString(n);
      assert s[..|s| - 1] == NatToString(n / 10);
      DecimalRoundTrip(n / 10);
    }
  }

  lemma {:induction false} DigitPrefixOfDigits(d: string, rest: string)
    requires AllDigits(d)
    requires rest == [] || !IsDigit(rest[0])
    ensures DigitPrefix(d + rest) == d
  {
    if d != [] {
      assert (d + rest)[1..] == d[1..] + rest;
      DigitPrefixOfDigits(d[1..], rest);
    }
  }

  /** Round trip: `parseInt` reads back the decimal text of any integer, and
      what follows that text is ignored when it does not start with a digit
      (so `parseInt("12abc")` is 12). */
  lemma {:induction false} ParseIntRoundTrip(n: int, rest: string)
    requires rest == [] || !IsDigit(rest[0])
    ensures ParseInt(IntToString(n) + rest) == Some(n)
  {
    var m: nat := if n < 0 then -n else n;
    var sign := if n < 0 then "-" else "";
    var digits := NatToString(m);
    assert IntToString(n) == sign + digits;
    DecimalRoundTrip(m);
    ParseIntOfSignedDigits(sign, digits, rest);
  }

  /** `parseInt` of an optional minus sign, a run of digits and a non-digit tail. */
  lemma {:induction false} ParseIntOfSignedDigits(sign: string, digits: string, rest: string)
    requires sign == "-" || sign == ""
    requires digits != [] && AllDigits(digits)
    requires rest == [] || !IsDigit(rest[0])
    ensures var v := DecimalValue(digits);
            ParseInt(sign + digits + rest) == if sign == "-" then Some(-v) else Some(v)
  {
    if sign == "-" {
      ParseIntOfMinusDigits(digits, rest);
    } else {
      assert sign + digits + rest == digits + rest;
      ParseIntOfDigitsThen(digits, rest);
    }
  }

  lemma {:induction false} ParseIntOfDigitsThen(digits: string, rest: string)
    requires digits != [] && AllDigits(digits)
    requires rest == [] || !IsDigit(rest[0])
    ensures ParseInt(digits + rest) == Some(DecimalValue(digits))
  {
    var s := digits + rest;
    DigitPrefixOfDigits(digits, rest);
    assert s[0] == digits[0] && IsDigit(s[0]);
    TrimStartNoSpace(s);
    assert Unsigned(s) == s;
    ParseIntOfTrimmed(s, digits);
  }

  lemma {:induction false} ParseIntOfMinusDigits(digits: string, rest: string)
    requires digits != [] && AllDigits(digits)
    requires rest == [] || !IsDigit(rest[0])
    ensures ParseInt("-" + digits + rest) == Some(-DecimalValue(digits))
  {
    var s := "-" + digits + rest;
    DigitPrefixOfDigits(digits, rest);
    TrimStartNoSpace(s);
    assert Unsigned(s) == digits + rest;
    ParseIntNegative(s, digits);
  }

  lemma {:induction false} ParseIntOfTrimmed(s: string, digits: string)
    requires digits != [] && AllDigits(digits)
    requires TrimStart(s) == s
    requires DigitPrefix(Unsigned(s)) == digits
    ensures s != []
    ensures var v := DecimalValue(digits);
            ParseInt(s) == if s[0] == '-' then Some(-v) else Some(v)
  {
    if s[0] == '-' {
      ParseIntNegative(s, digits);
    } else {
      assert ParseInt(s) == Some(DecimalValue(digits));
    }
  }

  lemma {:induction false} ParseIntNegative(s: string, digits: string)
    requires digits != [] && AllDigits(digits)
    requires TrimStart(s) == s && s != [] && s[0] == '-'
    requires DigitPrefix(Unsigned(s)) == digits
    ensures ParseInt(s) == Some(-DecimalValue(digits))
  {
  }

  lemma TrimStartNoSpace(s: string)
    requires s != [] && !IsSpace(s[0])
    ensures TrimStart(s) == s
  {
    assert LeadingSpace(s) == 0;
  }

  /** `parseInt` reads back the decimal text of a natural number. */
  lemma {:induction false} ParseIntOfNat(n: nat)
    ensures ParseInt(NatToString(n)) == Some(n)
  {
    DecimalRoundTrip(n);
    ParseIntOfDigits(NatToString(n));
  }

  lemma {:induction false} ParseIntOfDigits(digits: string)
    requires digits != [] && AllDigits(digits)
    ensures ParseInt(digits) == Some(DecimalValue(digits))
  {
    ParseIntOfDigitsThen(digits, []);
    assert digits + [] == digits;
  }

  /** The decimal text of an integer, with a leading `-` when it is negative. */
  function IntToString(n: int): (s: string)
    ensures s != []
  {
    if n < 0 then "-" + NatToString(-n) else NatToString(n)
  }

  // ---------------------------------------------------------------------------
  // split, includes, startsWith, replace(/\D/g, '')

  function Count(s: string, c: char): nat
  {
    if s == [] then 0 else (if s[0] == c then 1 else 0) + Count(s[1..], c)
  }

  /** `s.split(sep)` for a one-character separator: the pieces between separators, empty ones included. */
  function Split(s: string, sep: char): (parts: seq<string>)
    ensures |parts| == Count(s, sep) + 1
    ensures forall i :: 0 <= i < |parts| ==> sep !in parts[i]
  {
    if s == [] then [""]
    else
      var rest := Split(s[1..], sep);
      if s[0] == sep then [""] + rest else [[s[0]] + rest[0]] + rest[1..]
  }

  /** `parts.join(sep)`. */
  function Join(parts: seq<string>, sep: char): string
    requires |parts| >= 1
  {
    if |parts| == 1 then parts[0] else parts[0] + [sep] + Join(parts[1..], sep)
  }

  /** Joining the pieces of a split gives back the original string. */
  lemma {:induction false} SplitJoin(s: string, sep: char)
    ensures Join(Split(s, sep), sep) == s
  {
    if s != [] {
      SplitJoin(s[1..], sep);
      var rest := Split(s[1..], sep);
      if s[0] == sep {
        assert Split(s, sep)[1..] == rest;
      } else {
        var parts := Split(s, sep);
        if |rest| == 1 {
          assert parts == [[s[0]] + rest[0]];
        } else {
          assert parts[1..] == rest[1..];
          assert Join(rest, sep) == rest[0] + [sep] + Join(rest[1..], sep);
          assert Join(parts, sep) == [s[0]] + rest[0] + [sep] + Join(rest[1..], sep);
        }
      }
    }
  }

  lemma {:induction false} SplitNoSeparator(a: string, sep: char)
    requires sep !in a
    ensures Split(a, sep) == [a]
  {
    if a != [] {
      SplitNoSeparator(a[1..], sep);
      assert [a[0]] + a[1..] == a;
    }
  }

  lemma {:induction false} SplitAtFirstSeparator(a: string, b: string, sep: char)
    requires sep !in a
    ensures Split(a + [sep] + b, sep) == [a] + Split(b, sep)
  {
    var s := a + [sep] + b;
    if a == [] {
      assert s[1..] == b;
    } else {
      assert s[1..] == a[1..] + [sep] + b;
      SplitAtFirstSeparator(a[1..], b, sep);
      assert [a[0]] + a[1..] == a;
    }
  }

  /** Splitting the join of separator-free pieces gives the pieces back. */
  lemma {:induction false} SplitOfJoin(parts: seq<string>, sep: char)
    requires |parts| >= 1
    requires forall i :: 0 <= i < |parts| ==> sep !in parts[i]
    ensures Split(Join(parts, sep), sep) == parts
  {
    if |parts| == 1 {
      SplitNoSeparator(parts[0], sep);
    } else {
      SplitOfJoin(parts[1..], sep);
      SplitAtFirstSeparator(parts[0], Join(parts[1..], sep), sep);
      assert [parts[0]] + parts[1..] == parts;
    }
  }

  /** `s.split(sep).pop()`: the last piece of a split. */
  function LastPart(s: string, sep: char): string {
    var parts := Split(s, sep);
    parts[|parts| - 1]
  }

  /** A split has a single piece exactly when there is no separator. */
  lemma SplitOnePart(t: string, sep: char)
    ensures |Split(t, sep)| == 1 <==> sep !in t
  {
    if sep !in t {
      SplitNoSeparator(t, sep);
    } else if |Split(t, sep)| == 1 {
      SplitJoin(t, sep);
    }
  }

  /** The last piece of `c :: t` is the whole string when neither `c` nor `t`
      holds a separator, and the last piece of `t` otherwise. */
  lemma LastPartCons(s: string, sep: char)
    requires s != []
    ensures LastPart(s, sep) == if s[0] != sep && sep !in s[1..] then s else LastPart(s[1..], sep)
  {
    SplitOnePart(s[1..], sep);
    if s[0] != sep && sep !in s[1..] {
      SplitNoSeparator(s[1..], sep);
      assert [s[0]] + s[1..] == s;
    }
  }

  /** The last piece is the suffix of `s` after its last separator (all of `s`
      when there is none). */
  lemma {:induction false} LastPartSpec(s: string, sep: char)
    ensures var p := LastPart(s, sep);
            |p| <= |s| && p == s[|s| - |p|..] && sep !in p
            && (|p| < |s| ==> s[|s| - |p| - 1] == sep)
  {
    if s == [] {
      assert Split(s, sep) == [""];
    } else {
      var t := s[1..];
      LastPartCons(s, sep);
      LastPartSpec(t, sep);
      var p := LastPart(t, sep);
      if !(s[0] != sep && sep !in t) {
        assert LastPart(s, sep) == p;
        assert s[|s| - |p|..] == t[|t| - |p|..];
        if |p| == |t| {
          assert p == t;
          assert sep !in t && s[0] == sep;
        } else {
          assert s[|s| - |p| - 1] == t[|t| - |p| - 1];
        }
      }
    }
  }

  /** `s.startsWith(p)`. */
  predicate StartsWith(s: string, p: string) {
    |p| <= |s| && s[..|p|] == p
  }

  /** `s.includes(sub)`. */
  predicate Contains(s: string, sub: string)
  {
    StartsWith(s, sub) || (s != [] && Contains(s[1..], sub))
  }

  predicate OccursAt(s: string, sub: string, i: int) {
    0 <= i <= |s| - |sub| && s[i..i + |sub|] == sub
  }

  /** `includes` holds exactly when `sub` occurs at some position of `s`. */
  lemma {:induction false} ContainsIff(s: string, sub: string)
    ensures Contains(s, sub) <==> exists i :: OccursAt(s, sub, i)
  {
    if s != [] {
      ContainsIff(s[1..], sub);
      if Contains(s[1..], sub) {
        var i :| OccursAt(s[1..], sub, i);
        assert s[i + 1..i + 1 + |sub|] == s[1..][i..i + |sub|];
        assert OccursAt(s, sub, i + 1);
      }
      if StartsWith(s, sub) {
        assert OccursAt(s, sub, 0);
      }
      if exists i :: OccursAt(s, sub, i) {
        var i :| OccursAt(s, sub, i);
        if i > 0 {
          assert s[1..][i - 1..i - 1 + |sub|] == s[i..i + |sub|];
          assert OccursAt(s[1..], sub, i - 1);
        }
      }
    } else {
      if exists i :: OccursAt(s, sub, i) {
        var i :| OccursAt(s, sub, i);
        assert i == 0 && sub == [];
        assert StartsWith(s, sub);
      }
      if Contains(s, sub) {
        assert sub == [];
        assert OccursAt(s, sub, 0);
      }
    }
  }

  /** `s.replace(/\D/g, '')`: the decimal digits of `s`, in order. */
  function Digits(s: string): (d: string)
    ensures AllDigits(d) && |d| <= |s|
    ensures AllDigits(s) ==> d == s
    ensures |s| == 1 ==> d == (if IsDigit(s[0]) then s else [])
  {
    if s == [] then [] else (if IsDigit(s[0]) then [s[0]] else []) + Digits(s[1..])
  }

  /** Digits are taken piecewise and kept in order. */
  lemma {:induction false} DigitsAppend(a: string, b: string)
    ensures Digits(a + b) == Digits(a) + Digits(b)
  {
    if a == [] {
      assert a + b == b;
    } else {
      assert (a + b)[1..] == a[1..] + b;
      DigitsAppend(a[1..], b);
      assert Digits(a + b) == (if IsDigit(a[0]) then [a[0]] else []) + Digits(a[1..] + b);
    }
  }

  /** `s.replace(/\s+/g, '')`: `s` without its white space. */
  function StripSpaces(s: string): (r: string)
    ensures forall i :: 0 <= i < |r| ==> !IsSpace(r[i])
    ensures |r| <= |s|
    ensures |s| == 1 ==> r == (if IsSpace(s[0]) then [] else s)
  {
    if s == [] then [] else (if IsSpace(s[0]) then [] else [s[0]]) + StripSpaces(s[1..])
  }

  /** White space is removed piecewise and the other characters keep their order. */
  lemma {:induction false} StripSpacesAppend(a: string, b: string)
    ensures StripSpaces(a + b) == StripSpaces(a) + StripSpaces(b)
  {
    if a == [] {
      assert a + b == b;
    } else {
      assert (a + b)[1..] == a[1..] + b;
      StripSpacesAppend(a[1..], b);
      assert StripSpaces(a + b) == (if IsSpace(a[0]) then [] else [a[0]]) + StripSpaces(a[1..] + b);
    }
  }
}
