/** String facts the controller relies on: decimal numerals (`strconv.Itoa`, `strconv.Atoi`),
    Go's byte-wise string order, and `strings.Replace` of one character. */
module Text {

  datatype Option<+T> = None | Some(value: T)

  // ----- decimal numerals -----

  const INT64_MIN: int := -0x8000_0000_0000_0000
  const INT64_MAX: int := 0x7FFF_FFFF_FFFF_FFFF

  predicate IsDigit(c: char) { '0' <= c <= '9' }

  function DigitChar(d: nat): (c: char)
    requires d < 10
    ensures IsDigit(c) && c as int == 48 + d
  {
    (48 + d) as char
  }

  /** Decimal digits of a natural number, most significant first. */
  function Digits(n: nat): (s: string)
    ensures |s| > 0 && forall i :: 0 <= i < |s| ==> IsDigit(s[i])
  {
    if n < 10 then [DigitChar(n)] else Digits(n / 10) + [DigitChar(n % 10)]
  }

  /** `strconv.Itoa`. */
  function Itoa(n: int): (s: string)
    ensures |s| > 0
    ensures forall i :: 0 <= i < |s| ==> IsDigit(s[i]) || s[i] == '-'
  {
    if n < 0 then "-" + Digits(-n) else Digits(n)
  }

  function DigitsValue(s: string): int
    requires forall i :: 0 <= i < |s| ==> IsDigit(s[i])
  {
    if |s| == 0 then 0 else 10 * DigitsValue(s[..|s| - 1]) + (s[|s| - 1] as int - 48)
  }

  /** An optionally signed, non-empty run of decimal digits. */
  function Numeral(s: string): Option<int> {
    var body := if |s| > 0 && (s[0] == '-' || s[0] == '+') then s[1..] else s;
    if |body| == 0 || exists i :: 0 <= i < |body| && !IsDigit(body[i]) then None
    else if s[0] == '-' then Some(-DigitsValue(body)) else Some(DigitsValue(body))
  }

  /** `strconv.Atoi` on a 64-bit platform: a syntax error or a value out of range gives None. */
  function Atoi(s: string): Option<int> {
    match Numeral(s)
    case None => None
    case Some(v) => if INT64_MIN <= v <= INT64_MAX then Some(v) else None
  }

  lemma {:induction false} DigitsValueDigits(n: nat)
    ensures DigitsValue(Digits(n)) == n
  {
    var s := Digits(n);
    if n < 10 {
      assert s[..|s| - 1] == [];
    } else {
      DigitsValueDigits(n / 10);
      assert s[..|s| - 1] == Digits(n / 10);
    }
  }

  lemma NumeralItoa(n: int)
    ensures Numeral(Itoa(n)) == Some(n)
  {
    if n < 0 {
      DigitsValueDigits(-n);
      assert Itoa(n)[1..] == Digits(-n);
    } else {
      DigitsValueDigits(n);
      assert IsDigit(Itoa(n)[0]);
    }
  }

  /** Printing a machine integer and reading it back gives the same integer. */
  lemma AtoiItoa(n: int)
    requires INT64_MIN <= n <= INT64_MAX
    ensures Atoi(Itoa(n)) == Some(n)
  {
    NumeralItoa(n);
  }

  /** A plus sign is read over. */
  lemma AtoiPlus(n: int)
    requires 0 <= n <= INT64_MAX
    ensures Atoi("+" + Itoa(n)) == Some(n)
  {
    DigitsValueDigits(n);
    assert ("+" + Itoa(n))[1..] == Digits(n);
  }

  lemma ItoaInjective(m: int, n: int)
    requires Itoa(m) == Itoa(n)
    ensures m == n
  {
    NumeralItoa(m);
    NumeralItoa(n);
  }

  // ----- string order -----

  /** Go's `<` on strings. */
  predicate Less(a: string, b: string) {
    |b| > 0 && (|a| == 0 || a[0] < b[0] || (a[0] == b[0] && Less(a[1..], b[1..])))
  }

  lemma {:induction false} LessTrichotomy(a: string, b: string)
    ensures Less(a, b) || a == b || Less(b, a)
    ensures !(Less(a, b) && Less(b, a))
    ensures !Less(a, a)
  {
    if |a| > 0 && |b| > 0 {
      LessTrichotomy(a[1..], b[1..]);
      assert a == [a[0]] + a[1..] && b == [b[0]] + b[1..];
    } else if |a| > 0 {
      LessTrichotomy(a[1..], a[1..]);
    }
  }

  /** The first difference decides: the strings agree before `i`, and there the first one ends or has the smaller
      character. */
  predicate DiffersAt(a: string, b: string, i: nat) {
    && i <= |a| && i < |b| && a[..i] == b[..i]
    && (i == |a| || a[i] < b[i])
  }

  lemma {:induction false} DifferenceDecides(a: string, b: string, i: nat)
    requires DiffersAt(a, b, i)
    ensures Less(a, b)
    decreases i
  {
    if i > 0 {
      assert a[0] == a[..i][0] == b[..i][0] == b[0];
      assert a[1..][..i - 1] == a[..i][1..] && b[1..][..i - 1] == b[..i][1..];
      DifferenceDecides(a[1..], b[1..], i - 1);
    }
  }

  lemma {:induction false} FirstDifference(a: string, b: string) returns (i: nat)
    requires Less(a, b)
    ensures DiffersAt(a, b, i)
    decreases |a|
  {
    i := 0;
    if |a| > 0 && a[0] == b[0] {
      i := FirstDifference(a[1..], b[1..]);
      assert a[..i + 1] == [a[0]] + a[1..][..i] && b[..i + 1] == [b[0]] + b[1..][..i];
      i := i + 1;
    }
  }

  /** Go's order on strings is the lexicographic one. */
  lemma LessIff(a: string, b: string)
    ensures Less(a, b) <==> exists i: nat :: DiffersAt(a, b, i)
  {
    if Less(a, b) {
      var i := FirstDifference(a, b);
    }
    if exists i: nat :: DiffersAt(a, b, i) {
      var i: nat :| DiffersAt(a, b, i);
      DifferenceDecides(a, b, i);
    }
  }

  lemma {:induction false} NotLessTransitive(a: string, b: string, c: string)
    requires !Less(b, a) && !Less(c, b)
    ensures !Less(c, a)
  {
    if |a| > 0 && |b| > 0 && |c| > 0 {
      if a[0] == b[0] == c[0] {
        NotLessTransitive(a[1..], b[1..], c[1..]);
      }
    }
  }

  // ----- characters -----

  predicate Contains(s: string, c: char) { exists i :: 0 <= i < |s| && s[i] == c }

  predicate HasPrefix(s: string, p: string) { |p| <= |s| && s[..|p|] == p }

  /** `strings.Replace(s, old, new, -1)` for one-character arguments. */
  function ReplaceChar(s: string, from: char, to: char): (r: string)
    ensures |r| == |s|
    ensures forall i :: 0 <= i < |s| ==> r[i] == if s[i] == from then to else s[i]
  {
    seq(|s|, i requires 0 <= i < |s| => if s[i] == from then to else s[i])
  }

  /** ASCII lower case; enough for `strings.EqualFold` against the words this program compares with. */
  function LowerChar(c: char): char {
    if 'A' <= c <= 'Z' then (c as int + 32) as char else c
  }

  predicate EqualFold(s: string, t: string) {
    |s| == |t| && forall i :: 0 <= i < |s| ==> LowerChar(s[i]) == LowerChar(t[i])
  }

  /** A head free of `c` is determined by a string that continues with `c`. */
  lemma {:induction false} SplitUnique(a: string, x: string, b: string, y: string, c: char)
    requires !Contains(a, c) && !Contains(b, c)
    requires a + [c] + x == b + [c] + y
    ensures a == b && x == y
  {
    var s := a + [c] + x;
    var t := b + [c] + y;
    assert s[|a|] == c && t[|b|] == c;
    assert forall i :: 0 <= i < |a| ==> a[i] == s[i];
    assert forall i :: 0 <= i < |b| ==> b[i] == t[i];
    assert |a| == |b|;
    assert a == s[..|a|] == t[..|b|] == b;
    assert x == s[|a| + 1..] == t[|b| + 1..] == y;
  }

  /** The same, splitting at the last occurrence of `c`. */
  lemma {:induction false} SplitLastUnique(a: string, x: string, b: string, y: string, c: char)
    requires !Contains(x, c) && !Contains(y, c)
    requires a + [c] + x == b + [c] + y
    ensures a == b && x == y
  {
    var s := a + [c] + x;
    var t := b + [c] + y;
    assert s[|a|] == c && t[|b|] == c;
    assert forall i :: |a| < i < |s| ==> s[i] == x[i - |a| - 1];
    assert forall i :: |b| < i < |t| ==> t[i] == y[i - |b| - 1];
    assert |a| == |b|;
    assert a == s[..|a|] == t[..|b|] == b;
    assert x == s[|a| + 1..] == t[|b| + 1..] == y;
  }

  /** The second head is the first one continued past `c`, and the first tail makes up for it. */
  predicate Shifted(a: string, x: string, b: string, y: string, c: char) {
    HasPrefix(b, a + [c]) && x == b[|a| + 1..] + [c] + y
  }

  lemma ShiftedJoins(a: string, x: string, b: string, y: string, c: char)
    requires Shifted(a, x, b, y, c)
    ensures a + [c] + x == b + [c] + y
  {
    assert b == (a + [c]) + b[|a| + 1..];
  }

  lemma LongerHead(a: string, x: string, b: string, y: string, c: char)
    requires a + [c] + x == b + [c] + y && |a| < |b|
    ensures Shifted(a, x, b, y, c)
  {
    var s, t := a + [c] + x, b + [c] + y;
    assert b[..|a| + 1] == t[..|a| + 1] == s[..|a| + 1] == a + [c];
    assert x == s[|a| + 1..] == t[|a| + 1..] == b[|a| + 1..] + [c] + y;
  }

  /** Two pairs joined with a separator give one string exactly when they are the same pair or one is a shift of the
      other: a pair can be read off the string only where no separator occurs inside. */
  lemma JoinedEqualIff(a: string, x: string, b: string, y: string, c: char)
    ensures a + [c] + x == b + [c] + y <==> (a == b && x == y) || Shifted(a, x, b, y, c) || Shifted(b, y, a, x, c)
  {
    if a + [c] + x == b + [c] + y {
      if |a| < |b| {
        LongerHead(a, x, b, y, c);
      } else if |b| < |a| {
        LongerHead(b, y, a, x, c);
      } else {
        assert a == (a + [c] + x)[..|a|] == (b + [c] + y)[..|b|] == b;
        assert x == (a + [c] + x)[|a| + 1..] == (b + [c] + y)[|b| + 1..] == y;
      }
    }
    if Shifted(a, x, b, y, c) {
      ShiftedJoins(a, x, b, y, c);
    }
    if Shifted(b, y, a, x, c) {
      ShiftedJoins(b, y, a, x, c);
    }
  }

  // ----- splitting and joining -----

  /** `strings.Split` at a one-character separator. */
  function Split(s: string, sep: char): (parts: seq<string>)
    ensures |parts| > 0
  {
    if |s| == 0 then [""]
    else
      var rest := Split(s[1..], sep);
      if s[0] == sep then [""] + rest else [[s[0]] + rest[0]] + rest[1..]
  }

  /** `strings.Join` with a one-character separator. */
  function Join(parts: seq<string>, sep: char): string {
    if |parts| == 0 then ""
    else if |parts| == 1 then parts[0]
    else parts[0] + [sep] + Join(parts[1..], sep)
  }

  lemma {:induction false} JoinSplit(s: string, sep: char)
    ensures Join(Split(s, sep), sep) == s
  {
    if |s| > 0 {
      var rest := Split(s[1..], sep);
      JoinSplit(s[1..], sep);
      if s[0] == sep {
        assert ([""] + rest)[1..] == rest;
      } else {
        assert ([[s[0]] + rest[0]] + rest[1..])[1..] == rest[1..];
      }
    }
  }

  /** A head free of the separator becomes the first part. */
  lemma {:induction false} SplitHead(x: string, sep: char, y: string)
    requires sep !in x
    ensures Split(x, sep) == [x]
    ensures Split(x + [sep] + y, sep) == [x] + Split(y, sep)
    decreases |x|
  {
    var s := x + [sep] + y;
    if x == "" {
      assert s[0] == sep && s[1..] == y;
    } else {
      assert s[0] == x[0] && x[0] in x && s[1..] == x[1..] + [sep] + y;
      SplitHead(x[1..], sep, y);
      assert [x[0]] + x[1..] == x;
    }
  }

  lemma {:induction false} SplitJoin(parts: seq<string>, sep: char)
    requires |parts| > 0 && forall i :: 0 <= i < |parts| ==> sep !in parts[i]
    ensures Split(Join(parts, sep), sep) == parts
    decreases |parts|
  {
    if |parts| == 1 {
      SplitHead(parts[0], sep, "");
    } else {
      SplitHead(parts[0], sep, Join(parts[1..], sep));
      SplitJoin(parts[1..], sep);
      assert parts == [parts[0]] + parts[1..];
    }
  }

  lemma {:induction false} SplitParts(s: string, sep: char)
    ensures forall i :: 0 <= i < |Split(s, sep)| ==> sep !in Split(s, sep)[i]
  {
    if |s| > 0 {
      SplitParts(s[1..], sep);
    }
  }
}
