/** The handful of JavaScript string operations the routes rely on, over ASCII:
    toLowerCase, trim, split(" "), Number#toString for naturals, the binary string
    order MongoDB sorts by, and a case-insensitive substring match. */
module Text {

  // ---------------------------------------------------------------- case

  function LowerChar(c: char): char {
    if 'A' <= c <= 'Z' then (c as int + 32) as char else c
  }

  /** String.prototype.toLowerCase, restricted to ASCII letters. */
  function Lower(s: string): (r: string)
    ensures |r| == |s|
    ensures forall i :: 0 <= i < |s| ==> r[i] == LowerChar(s[i])
  {
    if |s| == 0 then "" else [LowerChar(s[0])] + Lower(s[1..])
  }

  predicate IsLowerCase(s: string) {
    forall i :: 0 <= i < |s| ==> !('A' <= s[i] <= 'Z')
  }

  /** Lowering yields a lower-case string and is idempotent. */
  lemma LowerIsLowerCase(s: string)
    ensures IsLowerCase(Lower(s))
    ensures Lower(Lower(s)) == Lower(s)
  {
  }

  /** A lower-case string is its own lowering. */
  lemma LowerOfLowerCase(s: string)
    requires IsLowerCase(s)
    ensures Lower(s) == s
  {
  }

  // ---------------------------------------------------------------- trim

  predicate IsSpace(c: char) {
    c == ' ' || c == '\t' || c == '\n' || c == '\r' || c == '\U{0B}' || c == '\U{0C}'
  }

  predicate AllSpace(s: string) {
    forall i :: 0 <= i < |s| ==> IsSpace(s[i])
  }

  function TrimStart(s: string): (r: string)
    ensures |r| <= |s| && r == s[|s| - |r|..]
    ensures AllSpace(s[..|s| - |r|])
    ensures r == "" || !IsSpace(r[0])
  {
    if |s| > 0 && IsSpace(s[0]) then
      var r := TrimStart(s[1..]);
      assert s[..|s| - |r|] == [s[0]] + s[1..][..|s[1..]| - |r|];
      r
    else s
  }

  function TrimEnd(s: string): (r: string)
    ensures |r| <= |s| && r == s[..|r|]
    ensures AllSpace(s[|r|..])
    ensures r == "" || !IsSpace(r[|r| - 1])
  {
    if |s| > 0 && IsSpace(s[|s| - 1]) then
      var r := TrimEnd(s[..|s| - 1]);
      assert s[|r|..] == s[..|s| - 1][|r|..] + [s[|s| - 1]];
      r
    else s
  }

  /** Cutting a prefix off s and then a suffix off what is left leaves a slice of s. */
  lemma SliceOfSlice(s: string, a: nat, n: nat)
    requires a + n <= |s|
    ensures s[a..][..n] == s[a..a + n] && s[a..][n..] == s[a + n..]
  {
  }

  /** String.prototype.trim over ASCII white space: the slice of s left once the
      leading and the trailing white space are cut off, and nothing more. */
  function Trim(s: string): (r: string)
    ensures var a := |s| - |TrimStart(s)|;
      a + |r| <= |s| && r == s[a..a + |r|] && AllSpace(s[..a]) && AllSpace(s[a + |r|..])
    ensures r == "" || (!IsSpace(r[0]) && !IsSpace(r[|r| - 1]))
  {
    var t := TrimStart(s);
    var r := TrimEnd(t);
    SliceOfSlice(s, |s| - |t|, |r|);
    r
  }

  // ---------------------------------------------------------------- split

  /** String.prototype.split(" "): the fields between single spaces, keeping empty
      fields, so "a  b" gives ["a", "", "b"] and "" gives [""]. */
  function Split(s: string): (r: seq<string>)
    ensures |r| >= 1
    ensures forall i :: 0 <= i < |r| ==> ' ' !in r[i]
  {
    if |s| == 0 then [""]
    else if s[0] == ' ' then [""] + Split(s[1..])
    else
      var rest := Split(s[1..]);
      [[s[0]] + rest[0]] + rest[1..]
  }

  /** Array.prototype.join(" "), the inverse of Split. */
  function Join(fields: seq<string>): string
    requires |fields| >= 1
  {
    if |fields| == 1 then fields[0] else fields[0] + " " + Join(fields[1..])
  }

  lemma {:induction false} SplitJoin(s: string)
    ensures Join(Split(s)) == s
  {
    if |s| == 0 {
    } else if s[0] == ' ' {
      SplitJoin(s[1..]);
      assert s == " " + s[1..];
    } else {
      var rest := Split(s[1..]);
      SplitJoin(s[1..]);
      if |rest| == 1 {
        assert s == [s[0]] + s[1..];
      } else {
        calc {
          Join(Split(s));
          ([s[0]] + rest[0]) + " " + Join(rest[1..]);
          [s[0]] + (rest[0] + " " + Join(rest[1..]));
          [s[0]] + Join(rest);
          s;
        }
      }
    }
  }

  /** The characters before the first space (all of s when it has none). */
  function UpToSpace(s: string): (r: string)
    ensures ' ' !in r && |r| <= |s| && r == s[..|r|]
    ensures |r| < |s| ==> s[|r|] == ' '
  {
    if |s| == 0 || s[0] == ' ' then "" else [s[0]] + UpToSpace(s[1..])
  }

  lemma {:induction false} SplitFirstField(s: string)
    ensures Split(s)[0] == UpToSpace(s)
  {
    if |s| > 0 && s[0] != ' ' {
      SplitFirstField(s[1..]);
    }
  }

  /** A space-free word followed by a space splits off as the first field. */
  lemma {:induction false} SplitAfterWord(w: string, rest: string)
    requires ' ' !in w
    ensures Split(w + " " + rest) == [w] + Split(rest)
  {
    if |w| == 0 {
      assert w + " " + rest == [' '] + rest;
    } else {
      SplitAfterWord(w[1..], rest);
      assert w[0] != ' ' && w == [w[0]] + w[1..];
      assert (w + " " + rest)[0] == w[0];
      assert (w + " " + rest)[1..] == w[1..] + " " + rest;
    }
  }

  // ---------------------------------------------------------------- decimal

  predicate IsDigit(c: char) {
    '0' <= c <= '9'
  }

  predicate AllDigits(s: string) {
    forall i :: 0 <= i < |s| ==> IsDigit(s[i])
  }

  function DigitChar(d: nat): (c: char)
    requires d < 10
    ensures IsDigit(c) && c as int - '0' as int == d
  {
    ('0' as int + d) as char
  }

  /** Number#toString of a natural number: its decimal digits, most significant first. */
  function Decimal(n: nat): (s: string)
    ensures |s| >= 1 && AllDigits(s)
    decreases n
  {
    if n < 10 then [DigitChar(n)] else Decimal(n / 10) + [DigitChar(n % 10)]
  }

  /** The number a digit string denotes. */
  function DecimalValue(s: string): nat
    requires AllDigits(s)
  {
    if |s| == 0 then 0
    else DecimalValue(s[..|s| - 1]) * 10 + (s[|s| - 1] as int - '0' as int)
  }

  lemma {:induction false} DecimalRoundTrip(n: nat)
    ensures DecimalValue(Decimal(n)) == n
    decreases n
  {
    if n >= 10 {
      DecimalRoundTrip(n / 10);
      var s := Decimal(n);
      assert s[..|s| - 1] == Decimal(n / 10);
    }
  }

  function Pow10(k: nat): (p: nat)
    ensures p >= 1
  {
    if k == 0 then 1 else 10 * Pow10(k - 1)
  }

  /** A number with k digits prints as exactly k characters. */
  lemma {:induction false} DecimalLength(n: nat, k: nat)
    requires k >= 1 && Pow10(k - 1) <= n < Pow10(k)
    ensures |Decimal(n)| == k
    decreases k
  {
    if k == 1 {
      assert n < 10;
    } else {
      assert Pow10(k) == 10 * Pow10(k - 1);
      assert Pow10(k - 1) == 10 * Pow10(k - 2);
      assert 10 * Pow10(k - 2) <= n;
      assert n >= 10;
      DecimalLength(n / 10, k - 1);
    }
  }

  /** The result of JavaScript's Number() on a string, restricted to integers: an
      optional minus sign followed by digits converts, anything else is NaN. */
  datatype Number = NaN | Num(value: int)

  function ToNumber(s: string): (n: Number)
    ensures n.Num? <==> (|s| > 0 && AllDigits(s)) || (|s| > 1 && s[0] == '-' && AllDigits(s[1..]))
  {
    if |s| > 0 && AllDigits(s) then Num(DecimalValue(s))
    else if |s| > 1 && s[0] == '-' && AllDigits(s[1..]) then Num(-(DecimalValue(s[1..]) as int))
    else NaN
  }

  /** A number written out in decimal reads back as itself, with or without a sign. */
  lemma ToNumberOfDecimal(n: nat)
    ensures ToNumber(Decimal(n)) == Num(n)
    ensures ToNumber("-" + Decimal(n)) == Num(-(n as int))
  {
    DecimalRoundTrip(n);
    var s := "-" + Decimal(n);
    assert s[1..] == Decimal(n);
    assert !AllDigits(s) by {
      assert !IsDigit(s[0]);
    }
  }

  /** JavaScript's Number() on a string, over integers: surrounding white space is
      ignored and blank text reads as 0. */
  function NumberOf(s: string): Number {
    var t := Trim(s);
    if t == "" then Num(0) else ToNumber(t)
  }

  /** Blank text reads as 0. */
  lemma NumberOfBlank(s: string)
    requires AllSpace(s)
    ensures NumberOf(s) == Num(0)
  {
  }

  /** In this integer-only reading, text that starts with neither a digit nor a minus
      sign, nor white space, is NaN. */
  lemma NumberOfWord(s: string)
    requires |s| > 0 && !IsSpace(s[0]) && !IsSpace(s[|s| - 1])
    requires !IsDigit(s[0]) && s[0] != '-'
    ensures NumberOf(s) == NaN
  {
    TrimmedAlready(s);
    assert !AllDigits(s);
  }

  /** An integer as JavaScript's String() writes it. */
  function NumberText(n: int): string {
    if n < 0 then "-" + Decimal(-n) else Decimal(n)
  }

  /** Text that begins and ends with something other than white space is its own
      trim. */
  lemma TrimmedAlready(s: string)
    requires |s| > 0 && !IsSpace(s[0]) && !IsSpace(s[|s| - 1])
    ensures Trim(s) == s
  {
    assert TrimStart(s) == s;
  }

  /** Number() reads back every integer that String() writes. */
  lemma NumberOfText(n: int)
    ensures NumberOf(NumberText(n)) == Num(n)
  {
    var s := NumberText(n);
    var m: nat := if n < 0 then -n else n;
    ToNumberOfDecimal(m);
    assert IsDigit(s[|s| - 1]);
    assert !IsSpace(s[0]) by {
      assert s[0] == '-' || IsDigit(s[0]);
    }
    TrimmedAlready(s);
  }

  // ---------------------------------------------------------------- order

  /** The binary (code point) order MongoDB uses to sort string keys. */
  predicate LexLess(a: string, b: string) {
    if |a| == 0 then |b| > 0
    else if |b| == 0 then false
    else if a[0] != b[0] then a[0] < b[0]
    else LexLess(a[1..], b[1..])
  }

  lemma {:induction false} LexIrreflexive(a: string)
    ensures !LexLess(a, a)
  {
    if |a| > 0 {
      LexIrreflexive(a[1..]);
    }
  }

  lemma {:induction false} LexTransitive(a: string, b: string, c: string)
    requires LexLess(a, b) && LexLess(b, c)
    ensures LexLess(a, c)
  {
    if |a| > 0 && |b| > 0 && |c| > 0 && a[0] == b[0] && b[0] == c[0] {
      LexTransitive(a[1..], b[1..], c[1..]);
    }
  }

  lemma {:induction false} LexTotal(a: string, b: string)
    requires a != b
    ensures LexLess(a, b) || LexLess(b, a)
  {
    if |a| > 0 && |b| > 0 && a[0] == b[0] {
      assert a == [a[0]] + a[1..] && b == [b[0]] + b[1..];
      LexTotal(a[1..], b[1..]);
    }
  }

  lemma {:induction false} LexAsymmetric(a: string, b: string)
    requires LexLess(a, b)
    ensures !LexLess(b, a)
  {
    if |a| > 0 && |b| > 0 && a[0] == b[0] {
      LexAsymmetric(a[1..], b[1..]);
    }
  }

  /** The two-digit zero-padded rendering of 0..99, as "%H" prints an hour. */
  function TwoDigits(h: nat): (s: string)
    requires h < 100
    ensures |s| == 2 && AllDigits(s) && DecimalValue(s) == h
  {
    var s := [DigitChar(h / 10), DigitChar(h % 10)];
    assert s[..1][..0] == [];
    assert DecimalValue(s[..1]) == h / 10;
    s
  }

  /** Sorting two-digit keys as strings is sorting them as numbers. */
  lemma TwoDigitsOrder(a: nat, b: nat)
    requires a < 100 && b < 100
    ensures LexLess(TwoDigits(a), TwoDigits(b)) <==> a < b
  {
    var sa, sb := TwoDigits(a), TwoDigits(b);
    assert sa[1..] == [sa[1]] && sb[1..] == [sb[1]];
    assert sa[1..][1..] == [] && sb[1..][1..] == [];
    assert sa[0] as int - '0' as int == a / 10 && sb[0] as int - '0' as int == b / 10;
    assert sa[1] as int - '0' as int == a % 10 && sb[1] as int - '0' as int == b % 10;
    if a / 10 != b / 10 {
      assert sa[0] != sb[0];
      assert LexLess(sa, sb) <==> a / 10 < b / 10;
    } else {
      assert sa[0] == sb[0];
      assert LexLess(sa, sb) <==> LexLess(sa[1..], sb[1..]);
      assert LexLess(sa, sb) <==> a % 10 < b % 10;
    }
  }

  // ---------------------------------------------------------------- search

  predicate OccursAt(s: string, p: string, i: nat) {
    i + |p| <= |s| && s[i..i + |p|] == p
  }

  /** Whether p occurs as a contiguous substring of s. */
  function Contains(s: string, p: string): (r: bool)
    ensures r <==> exists i: nat :: OccursAt(s, p, i)
  {
    if |p| <= |s| && s[..|p|] == p then
      assert OccursAt(s, p, 0);
      true
    else if |s| == 0 then
      assert forall i: nat :: !OccursAt(s, p, i);
      false
    else
      var r := Contains(s[1..], p);
      assert forall i: nat :: OccursAt(s[1..], p, i) <==> OccursAt(s, p, i + 1) by {
        forall i: nat ensures OccursAt(s[1..], p, i) <==> OccursAt(s, p, i + 1) {
          if i + |p| <= |s[1..]| {
            assert s[1..][i..i + |p|] == s[i + 1..i + 1 + |p|];
          }
        }
      }
      assert forall i: nat :: OccursAt(s, p, i) ==> i == 0 || OccursAt(s[1..], p, i - 1);
      r
  }

  /** A case-insensitive substring match, the meaning of { $regex: p, $options: "i" }
      for a pattern without regular-expression metacharacters. */
  function ContainsIgnoreCase(s: string, p: string): bool {
    Contains(Lower(s), Lower(p))
  }
}
