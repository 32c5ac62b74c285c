/**
 * The JavaScript string built-ins the storefront relies on, over `string`
 * (a sequence of characters): `toLowerCase`, `includes`, `trim`, `join`, and
 * the conversion of numbers to text inside template literals.
 */
module Text {

  // ---------------------------------------------------------------------
  // toLowerCase, restricted to the ASCII letters

  function LowerChar(c: char): char
  {
    if 'A' <= c <= 'Z' then (c as int + 32) as char else c
  }

  function ToLower(s: string): (r: string)
    ensures |r| == |s|
  {
    seq(|s|, i requires 0 <= i < |s| => LowerChar(s[i]))
  }

  /** Lower-casing distributes over concatenation. */
  lemma ToLowerAppend(a: string, b: string)
    ensures ToLower(a + b) == ToLower(a) + ToLower(b)
  {
    assert forall i | 0 <= i < |a + b| :: ToLower(a + b)[i] == (ToLower(a) + ToLower(b))[i];
  }

  // ---------------------------------------------------------------------
  // includes

  /** `q` occurs in `s` at index `i`. */
  predicate OccursAt(q: string, s: string, i: int)
  {
    0 <= i <= |s| - |q| && s[i..i + |q|] == q
  }

  /** `s.includes(q)`: `q` occurs somewhere in `s`. */
  predicate Includes(s: string, q: string)
  {
    exists i | 0 <= i <= |s| - |q| :: OccursAt(q, s, i)
  }

  /** Every string includes the empty string. */
  lemma IncludesEmpty(s: string)
    ensures Includes(s, "")
  {
    assert OccursAt("", s, 0);
  }

  /** A string includes each of the pieces it is concatenated from, right after the piece before it. */
  lemma IncludesPiece(a: string, b: string, c: string)
    ensures OccursAt(b, a + b + c, |a|)
    ensures Includes(a + b + c, b)
  {
    var s := a + b + c;
    assert s[|a|..|a| + |b|] == b;
    assert OccursAt(b, s, |a|);
  }

  /**
   * A template `h + p + m + c + t` holds `p` right after `h` and `c` right
   * after `h + p + m`.
   */
  lemma TemplateEmbeds(h: string, p: string, m: string, c: string, t: string)
    ensures OccursAt(p, h + p + m + c + t, |h|)
    ensures OccursAt(c, h + p + m + c + t, |h| + |p| + |m|)
    ensures Includes(h + p + m + c + t, p) && Includes(h + p + m + c + t, c)
  {
    ConcatAssoc(h + p + m, c, t);
    ConcatAssoc(h + p, m, c + t);
    ConcatAssoc(m, c, t);
    IncludesPiece(h, p, m + c + t);
    IncludesPiece(h + p + m, c, t);
  }

  lemma ConcatAssoc(a: string, b: string, c: string)
    ensures a + b + c == a + (b + c)
  {
  }

  /**
   * A lower-case letter of `q` that `s` holds in neither case rules out
   * every occurrence of `q` in the lower-cased `s`.
   */
  lemma LowerLacksLetter(s: string, q: string, c: char)
    requires 'a' <= c <= 'z' && c in q
    requires forall k | 0 <= k < |s| :: s[k] != c && s[k] != (c as int - 32) as char
    ensures !Includes(ToLower(s), q)
  {
    var j :| 0 <= j < |q| && q[j] == c;
    var t := ToLower(s);
    forall i | 0 <= i <= |t| - |q| ensures !OccursAt(q, t, i) {
      assert t[i..i + |q|][j] == t[i + j] != c;
    }
  }

  /**
   * An occurrence of `q` in `a + b` lies inside `a` or inside `b` when the
   * last character of `a` does not occur in `q`.
   */
  lemma NoOccurrenceAcross(q: string, a: string, b: string)
    requires a != [] && a[|a| - 1] !in q
    requires !Includes(a, q) && !Includes(b, q)
    ensures !Includes(a + b, q)
  {
    var s := a + b;
    forall i | 0 <= i <= |s| - |q| ensures !OccursAt(q, s, i) {
      if i + |q| <= |a| {
        assert s[i..i + |q|] == a[i..i + |q|];
        assert !OccursAt(q, a, i);
      } else if i >= |a| {
        assert s[i..i + |q|] == b[i - |a|..i - |a| + |q|];
        assert !OccursAt(q, b, i - |a|);
      } else {
        assert s[i..i + |q|][|a| - 1 - i] == a[|a| - 1];
      }
    }
  }

  /** The same, for lower-cased text. */
  lemma LowerNoOccurrenceAcross(q: string, a: string, b: string)
    requires a != [] && LowerChar(a[|a| - 1]) !in q
    requires !Includes(ToLower(a), q) && !Includes(ToLower(b), q)
    ensures !Includes(ToLower(a + b), q)
  {
    ToLowerAppend(a, b);
    NoOccurrenceAcross(q, ToLower(a), ToLower(b));
  }

  // ---------------------------------------------------------------------
  // trim

  /**
   * The characters `String.prototype.trim` removes: the ECMAScript
   * WhiteSpace and LineTerminator code points.
   */
  predicate IsWhiteSpace(c: char)
  {
    || c == '\t' || c == '\n' || c == '\U{000B}' || c == '\U{000C}' || c == '\r'
    || c == ' ' || c == '\U{00A0}' || c == '\U{1680}' || '\U{2000}' <= c <= '\U{200A}'
    || c == '\U{2028}' || c == '\U{2029}' || c == '\U{202F}' || c == '\U{205F}'
    || c == '\U{3000}' || c == '\U{FEFF}'
  }

  /** The number of white-space characters at the start of `s`. */
  function LeadingWhiteSpace(s: string): (n: nat)
    ensures n <= |s|
    ensures forall k :: 0 <= k < n ==> IsWhiteSpace(s[k])
    ensures n < |s| ==> !IsWhiteSpace(s[n])
  {
    if s == [] || !IsWhiteSpace(s[0]) then 0 else 1 + LeadingWhiteSpace(s[1..])
  }

  /** The index at which the white space at the end of `s` begins. */
  function TrailingWhiteSpaceStart(s: string): (n: nat)
    ensures n <= |s|
    ensures forall k :: n <= k < |s| ==> IsWhiteSpace(s[k])
    ensures 0 < n ==> !IsWhiteSpace(s[n - 1])
  {
    if s == [] || !IsWhiteSpace(s[|s| - 1]) then |s| else TrailingWhiteSpaceStart(s[..|s| - 1])
  }

  /**
   * `s.trim()`: the result is the part of `s` left between white space at
   * its start and white space at its end, and begins and ends with a
   * character that is not white space; it is empty exactly when `s` is all
   * white space.
   */
  function Trim(s: string): (r: string)
    ensures r == "" <==> forall k :: 0 <= k < |s| ==> IsWhiteSpace(s[k])
    ensures r != "" ==> !IsWhiteSpace(r[0]) && !IsWhiteSpace(r[|r| - 1])
    ensures exists i | OccursAt(r, s, i) ::
      && (forall k :: 0 <= k < i ==> IsWhiteSpace(s[k]))
      && (forall k :: i + |r| <= k < |s| ==> IsWhiteSpace(s[k]))
  {
    var i := LeadingWhiteSpace(s);
    if i == |s| then
      assert OccursAt("", s, 0);
      ""
    else
      var j := TrailingWhiteSpaceStart(s);
      assert !IsWhiteSpace(s[i]);
      assert OccursAt(s[i..j], s, i);
      s[i..j]
  }

  /** Trimming twice is trimming once. */
  lemma TrimIdempotent(s: string)
    ensures Trim(Trim(s)) == Trim(s)
  {
    var r := Trim(s);
    if r != "" {
      assert LeadingWhiteSpace(r) == 0;
      assert TrailingWhiteSpaceStart(r) == |r|;
      assert r[0..|r|] == r;
    }
  }

  // ---------------------------------------------------------------------
  // join, and its inverse on separator-free parts

  /** `parts.join(sep)`. */
  function Join(parts: seq<string>, sep: string): string
  {
    if |parts| == 0 then ""
    else if |parts| == 1 then parts[0]
    else parts[0] + sep + Join(parts[1..], sep)
  }

  /** Joining one more part adds the separator and that part at the end. */
  lemma {:induction false} JoinAppend(parts: seq<string>, last: string, sep: string)
    requires parts != []
    ensures Join(parts + [last], sep) == Join(parts, sep) + sep + last
    decreases |parts|
  {
    if |parts| > 1 {
      assert (parts + [last])[1..] == parts[1..] + [last];
      JoinAppend(parts[1..], last, sep);
    }
  }

  /** A shifted occurrence: an occurrence in `t` is one in `p + t`, |p| further on. */
  lemma OccursAfterPrefix(q: string, p: string, t: string, i: int)
    requires OccursAt(q, t, i)
    ensures OccursAt(q, p + t, |p| + i)
  {
    assert (p + t)[|p| + i..|p| + i + |q|] == t[i..i + |q|];
  }

  /** An inclusion survives putting any prefix in front. */
  lemma IncludesAfterPrefix(p: string, t: string, q: string)
    requires Includes(t, q)
    ensures Includes(p + t, q)
  {
    var i :| 0 <= i <= |t| - |q| && OccursAt(q, t, i);
    OccursAfterPrefix(q, p, t, i);
  }

  /** A joined string includes each of its parts. */
  lemma {:induction false} JoinIncludes(parts: seq<string>, sep: string, k: int)
    requires 0 <= k < |parts|
    ensures Includes(Join(parts, sep), parts[k])
    decreases |parts|
  {
    var s := Join(parts, sep);
    if k == 0 {
      if |parts| == 1 {
        assert OccursAt(parts[0], s, 0);
      } else {
        assert s[..|parts[0]|] == parts[0];
        assert OccursAt(parts[0], s, 0);
      }
    } else {
      JoinIncludes(parts[1..], sep, k - 1);
      var rest := Join(parts[1..], sep);
      var i :| 0 <= i <= |rest| - |parts[k]| && OccursAt(parts[k], rest, i);
      OccursAfterPrefix(parts[k], parts[0] + sep, rest, i);
    }
  }

  /** The index of the first `c` in `s`. */
  function IndexOf(s: string, c: char): (i: nat)
    requires c in s
    ensures i < |s| && s[i] == c && c !in s[..i]
  {
    if s[0] == c then 0 else 1 + IndexOf(s[1..], c)
  }

  /** The pieces of `s` between the occurrences of `sep` (`s.split(sep)`). */
  function Split(s: string, sep: char): (parts: seq<string>)
    ensures parts != []
    decreases |s|
  {
    if sep !in s then [s]
    else
      var i := IndexOf(s, sep);
      [s[..i]] + Split(s[i + 1..], sep)
  }

  /** Splitting undoes joining when no part contains the separator. */
  lemma {:induction false} SplitJoin(parts: seq<string>, sep: char)
    requires parts != []
    requires forall k :: 0 <= k < |parts| ==> sep !in parts[k]
    ensures Split(Join(parts, [sep]), sep) == parts
    decreases |parts|
  {
    if |parts| > 1 {
      var rest := Join(parts[1..], [sep]);
      var s := parts[0] + [sep] + rest;
      assert s[|parts[0]|] == sep;
      IndexOfAfterPrefix(parts[0], sep, rest);
      assert s[..|parts[0]|] == parts[0];
      assert s[|parts[0]| + 1..] == rest;
      SplitJoin(parts[1..], sep);
    }
  }

  lemma {:induction false} IndexOfAfterPrefix(prefix: string, sep: char, rest: string)
    requires sep !in prefix
    ensures IndexOf(prefix + [sep] + rest, sep) == |prefix|
    decreases |prefix|
  {
    if prefix != [] {
      assert (prefix + [sep] + rest)[1..] == prefix[1..] + [sep] + rest;
      IndexOfAfterPrefix(prefix[1..], sep, rest);
    }
  }

  // ---------------------------------------------------------------------
  // numbers inside template literals

  predicate IsDigit(c: char)
  {
    '0' <= c <= '9'
  }

  function DigitChar(d: nat): char
    requires d < 10
  {
    ('0' as int + d) as char
  }

  /** The decimal numeral of `n`: digits only, without leading zeros. */
  function NatToString(n: nat): (r: string)
    ensures r != []
    ensures forall k :: 0 <= k < |r| ==> IsDigit(r[k])
    ensures (r[0] == '0') == (n == 0)
    ensures n == 0 ==> r == "0"
  {
    if n < 10 then [DigitChar(n)] else NatToString(n / 10) + [DigitChar(n % 10)]
  }

  /** The number a string of decimal digits denotes. */
  function DigitsValue(s: string): int
  {
    if s == [] then 0 else 10 * DigitsValue(s[..|s| - 1]) + (s[|s| - 1] as int - '0' as int)
  }

  lemma {:induction false} NatToStringValue(n: nat)
    ensures DigitsValue(NatToString(n)) == n
  {
    if n >= 10 {
      var r := NatToString(n);
      assert r[..|r| - 1] == NatToString(n / 10);
      NatToStringValue(n / 10);
    }
  }

  /** `${i}` for an integer-valued Number. */
  function IntToString(i: int): string
  {
    if i < 0 then "-" + NatToString(-i) else NatToString(i)
  }

  /** The integer a signed decimal numeral denotes. */
  function SignedValue(s: string): int
  {
    if s != [] && s[0] == '-' then -DigitsValue(s[1..]) else DigitsValue(s)
  }

  lemma IntToStringValue(i: int)
    ensures SignedValue(IntToString(i)) == i
  {
    if i < 0 {
      assert IntToString(i)[1..] == NatToString(-i);
      NatToStringValue(-i);
    } else {
      NatToStringValue(i);
    }
  }

  /**
   * The shortest fraction digits for `c` hundredths: one digit when the
   * second would be '0' ("5" for 50), otherwise two ("05", "99").
   */
  function FractionDigits(c: nat): string
    requires 0 < c < 100
  {
    if c % 10 == 0 then [DigitChar(c / 10)] else [DigitChar(c / 10), DigitChar(c % 10)]
  }

  /**
   * `${price}` for a Number holding a whole number of cents: whole dollars
   * print without a fraction ("299"), otherwise the shortest fraction that
   * denotes the value ("349.99", "12.5").
   */
  function CentsToString(cents: nat): string
  {
    var dollars := NatToString(cents / 100);
    var c := cents % 100;
    if c == 0 then dollars else dollars + "." + FractionDigits(c)
  }

  /**
   * `amount.toFixed(2)` for an amount of `cents` cents: the whole part, a
   * point and always two fraction digits ("299.00"); a minus sign first
   * for a negative amount.
   */
  function ToFixed2(cents: int): string
  {
    var m := if cents < 0 then -cents else cents;
    var c := m % 100;
    (if cents < 0 then "-" else "") + NatToString(m / 100) + "." + [DigitChar(c / 10), DigitChar(c % 10)]
  }

  /** The number of cents a one- or two-digit fraction stands for. */
  function FractionCents(f: string): int
  {
    if |f| == 0 then 0
    else if |f| == 1 then 10 * (f[0] as int - '0' as int)
    else 10 * (f[0] as int - '0' as int) + (f[1] as int - '0' as int)
  }

  /** Reads a price numeral of the form `d+` or `d+.f` back into cents. */
  function ParseCents(s: string): int
  {
    var parts := Split(s, '.');
    100 * DigitsValue(parts[0]) + (if |parts| < 2 then 0 else FractionCents(parts[1]))
  }

  /** The shortest fraction is made of digits, does not end in '0' and stands for `c`. */
  lemma FractionDigitsValue(c: nat)
    requires 0 < c < 100
    ensures FractionCents(FractionDigits(c)) == c
    ensures forall k :: 0 <= k < |FractionDigits(c)| ==> IsDigit(FractionDigits(c)[k])
    ensures FractionDigits(c)[|FractionDigits(c)| - 1] != '0'
  {
    assert c == 10 * (c / 10) + c % 10;
  }

  /** Two fraction digits stand for `c`. */
  lemma TwoDigitsValue(c: nat)
    requires c < 100
    ensures FractionCents([DigitChar(c / 10), DigitChar(c % 10)]) == c
  {
    assert c == 10 * (c / 10) + c % 10;
  }

  /** The numeral of whole dollars reads back as that many hundred cents. */
  lemma ParseWhole(d: string)
    requires '.' !in d
    ensures ParseCents(d) == 100 * DigitsValue(d)
  {
    assert Split(d, '.') == [d];
  }

  /** A numeral with a point reads back as the whole part and the fraction. */
  lemma ParseWithFraction(d: string, f: string)
    requires '.' !in d && '.' !in f
    ensures ParseCents(d + "." + f) == 100 * DigitsValue(d) + FractionCents(f)
  {
    assert Join([d, f], ".") == d + "." + f;
    SplitJoin([d, f], '.');
  }

  /** A decimal numeral holds no point. */
  lemma NoPointInNumeral(n: nat)
    ensures '.' !in NatToString(n)
  {
    var r := NatToString(n);
    assert forall k | 0 <= k < |r| :: r[k] != '.';
  }

  /** The rendered price denotes the price, and a fraction never ends in '0'. */
  lemma CentsToStringValue(cents: nat)
    ensures ParseCents(CentsToString(cents)) == cents
    ensures forall k :: 0 <= k < |CentsToString(cents)| ==> IsDigit(CentsToString(cents)[k]) || CentsToString(cents)[k] == '.'
    ensures '.' in CentsToString(cents) ==> CentsToString(cents)[|CentsToString(cents)| - 1] != '0'
  {
    var dollars := NatToString(cents / 100);
    var c := cents % 100;
    NatToStringValue(cents / 100);
    NoPointInNumeral(cents / 100);
    if c == 0 {
      ParseWhole(dollars);
    } else {
      var f := FractionDigits(c);
      FractionDigitsValue(c);
      assert '.' !in f;
      ParseWithFraction(dollars, f);
      var s := dollars + "." + f;
      assert forall k | |dollars| < k < |s| :: s[k] == f[k - |dollars| - 1];
    }
  }

  /** A non-negative amount printed by `toFixed(2)` reads back as itself, with exactly two fraction digits. */
  lemma ToFixed2Value(cents: nat)
    ensures ParseCents(ToFixed2(cents)) == cents
    ensures |ToFixed2(cents)| >= 4 && ToFixed2(cents)[|ToFixed2(cents)| - 3] == '.'
  {
    var dollars := NatToString(cents / 100);
    var c := cents % 100;
    var frac := [DigitChar(c / 10), DigitChar(c % 10)];
    NatToStringValue(cents / 100);
    NoPointInNumeral(cents / 100);
    TwoDigitsValue(c);
    assert ToFixed2(cents) == dollars + "." + frac;
    ParseWithFraction(dollars, frac);
  }
}
