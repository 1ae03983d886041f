/**
 * The numeric text-field sanitiser of the app (`sanitizeNumericInput`, App.tsx).
 *
 * The source runs an expression chain over the field's text:
 *   1. drop every character that is neither a digit nor a dot,
 *   2. split at the dots, keep the first two segments and join them again with a dot,
 *   3. parse the result as a decimal number, where a parse that fails (no digit) gives 0.
 * Steps 1 and 2 are modelled character for character; step 3 is modelled on the
 * text that step 2 can produce (unsigned, exponent-free decimals) with exact `real`
 * arithmetic in place of binary floating point.
 */
module NumericInput {
  import opened Wrappers

  predicate IsDigit(c: char) { '0' <= c <= '9' }

  /** The characters that survive step 1. */
  predicate IsNumericChar(c: char) { IsDigit(c) || c == '.' }

  predicate AllNumeric(s: string) { forall k :: 0 <= k < |s| ==> IsNumericChar(s[k]) }

  predicate AllDigits(s: string) { forall k :: 0 <= k < |s| ==> IsDigit(s[k]) }

  predicate NoDigit(s: string) { forall k :: 0 <= k < |s| ==> !IsDigit(s[k]) }

  /** The number of occurrences of `c` in `s`. */
  function Count(s: string, c: char): nat {
    if s == [] then 0 else (if s[0] == c then 1 else 0) + Count(s[1..], c)
  }

  // ---------------------------------------------------------------- step 1

  /** Step 1 (the `replace` call): every character other than a digit or a dot is dropped. */
  function KeepNumeric(s: string): (r: string)
    ensures AllNumeric(r)
    ensures |r| <= |s|
    ensures NoDigit(s) ==> NoDigit(r)
  {
    if s == [] then []
    else (if IsNumericChar(s[0]) then [s[0]] else []) + KeepNumeric(s[1..])
  }

  /** One character is kept exactly when it is a digit or a dot. */
  lemma KeepNumericChar(c: char)
    ensures KeepNumeric([c]) == (if IsNumericChar(c) then [c] else [])
  {
  }

  /** The filter works character by character: it distributes over concatenation. */
  lemma {:induction false} KeepNumericConcat(a: string, b: string)
    ensures KeepNumeric(a + b) == KeepNumeric(a) + KeepNumeric(b)
  {
    if a == [] {
      assert a + b == b;
    } else {
      var head := if IsNumericChar(a[0]) then [a[0]] else [];
      assert (a + b)[0] == a[0];
      assert (a + b)[1..] == a[1..] + b;
      calc {
        KeepNumeric(a + b);
        head + KeepNumeric(a[1..] + b);
        { KeepNumericConcat(a[1..], b); }
        head + (KeepNumeric(a[1..]) + KeepNumeric(b));
        (head + KeepNumeric(a[1..])) + KeepNumeric(b);
      }
    }
  }

  /** The filter leaves a string alone exactly when it has nothing to remove. */
  lemma {:induction false} KeepNumericFixpoint(s: string)
    ensures KeepNumeric(s) == s <==> AllNumeric(s)
  {
    if s != [] {
      KeepNumericFixpoint(s[1..]);
      if !IsNumericChar(s[0]) {
        assert |KeepNumeric(s)| < |s|;
      }
    }
  }

  // ---------------------------------------------------------------- step 2

  /** JavaScript's `split` on one character: the pieces between separators; the empty string gives one empty piece. */
  function Split(s: string, sep: char): (parts: seq<string>)
    ensures |parts| == Count(s, sep) + 1
    ensures forall k :: 0 <= k < |parts| ==> sep !in parts[k]
  {
    if s == [] then [[]]
    else
      var rest := Split(s[1..], sep);
      if s[0] == sep then [[]] + rest
      else [[s[0]] + rest[0]] + rest[1..]
  }

  /**
   * `join` in JavaScript: the pieces in order with one separator between neighbours.
   * The first piece comes first, and is followed by the separator when there are more.
   */
  function Join(parts: seq<string>, sep: char): (r: string)
    ensures |parts| >= 1 ==> parts[0] <= r
    ensures |parts| >= 2 ==> |parts[0]| < |r| && r[|parts[0]|] == sep
  {
    if |parts| == 0 then []
    else if |parts| == 1 then parts[0]
    else parts[0] + [sep] + Join(parts[1..], sep)
  }

  /**
   * Step 2: the text is split at its dots and only the first two pieces are joined
   * again. This cuts the text just before its second dot, if it has one, and keeps it
   * whole otherwise: the result is a prefix with at most one dot, and the text is cut
   * short only at a dot that would have been the second.
   */
  function FirstTwoSegments(s: string): (r: string)
    ensures r <= s
    ensures Count(r, '.') <= 1
    ensures Count(s, '.') <= 1 ==> r == s
    ensures |r| < |s| ==> s[|r|] == '.' && Count(r, '.') == 1
  {
    var parts := Split(s, '.');
    var k := if |parts| < 2 then |parts| else 2;
    JoinSplit(s, '.');
    JoinPrefix(parts, '.', k);
    JoinCount(parts[..k], '.');
    assert k == |parts| ==> parts[..k] == parts;
    Join(parts[..k], '.')
  }

  /**
   * Steps 1 and 2: the text that is handed to the parser holds only digits and at
   * most one dot, and is a prefix of the filtered text.
   */
  function CleanText(text: string): (r: string)
    ensures AllNumeric(r) && Count(r, '.') <= 1
    ensures r <= KeepNumeric(text)
  {
    var s := KeepNumeric(text);
    PrefixAllNumeric(FirstTwoSegments(s), s);
    FirstTwoSegments(s)
  }

  lemma {:induction false} CountConcat(a: string, b: string, c: char)
    ensures Count(a + b, c) == Count(a, c) + Count(b, c)
  {
    if a == [] {
      assert a + b == b;
    } else {
      assert (a + b)[1..] == a[1..] + b;
      CountConcat(a[1..], b, c);
    }
  }

  lemma {:induction false} CountAbsent(s: string, c: char)
    requires c !in s
    ensures Count(s, c) == 0
  {
    if s != [] {
      assert s[0] != c;
      assert forall k :: 0 <= k < |s[1..]| ==> s[1..][k] == s[k + 1];
      CountAbsent(s[1..], c);
    }
  }

  /** Splitting and joining at the same separator gives the text back. */
  lemma {:induction false} JoinSplit(s: string, sep: char)
    ensures Join(Split(s, sep), sep) == s
  {
    if s != [] {
      var rest := Split(s[1..], sep);
      JoinSplit(s[1..], sep);
      if s[0] == sep {
        assert ([[]] + rest)[1..] == rest;
      } else if |rest| == 1 {
        assert Join(rest, sep) == rest[0];
      } else {
        var parts := [[s[0]] + rest[0]] + rest[1..];
        assert parts[1..] == rest[1..];
        assert Join(rest, sep) == rest[0] + [sep] + Join(rest[1..], sep);
      }
    }
  }

  /**
   * Joining the first `k` pieces gives a prefix of joining them all, and when pieces
   * were dropped the character that follows that prefix is the separator.
   */
  lemma {:induction false} JoinPrefix(parts: seq<string>, sep: char, k: nat)
    requires 1 <= k <= |parts|
    ensures Join(parts[..k], sep) <= Join(parts, sep)
    ensures k < |parts| ==>
      |Join(parts[..k], sep)| < |Join(parts, sep)| && Join(parts, sep)[|Join(parts[..k], sep)|] == sep
  {
    if k == 1 {
      assert parts[..1] == [parts[0]];
    } else {
      assert parts[..k][1..] == parts[1..][..k - 1];
      JoinPrefix(parts[1..], sep, k - 1);
    }
  }

  /** Joining pieces that hold no separator puts exactly one separator between each two. */
  lemma {:induction false} JoinCount(parts: seq<string>, sep: char)
    requires |parts| >= 1
    requires forall k :: 0 <= k < |parts| ==> sep !in parts[k]
    ensures Count(Join(parts, sep), sep) == |parts| - 1
  {
    CountAbsent(parts[0], sep);
    if |parts| > 1 {
      JoinCount(parts[1..], sep);
      CountConcat(parts[0], [sep], sep);
      CountConcat(parts[0] + [sep], Join(parts[1..], sep), sep);
    }
  }

  lemma PrefixAllNumeric(r: string, s: string)
    requires r <= s && AllNumeric(s)
    ensures AllNumeric(r)
  {
  }

  lemma PrefixNoDigit(r: string, s: string)
    requires r <= s && NoDigit(s)
    ensures NoDigit(r)
  {
  }

  /**
   * What the parser receives: only digits and at most one dot, a prefix of the
   * filtered text, the whole filtered text when that had at most one dot, and
   * otherwise the filtered text up to (not including) its second dot.
   */
  lemma CleanTextSpec(text: string)
    ensures AllNumeric(CleanText(text))
    ensures Count(CleanText(text), '.') <= 1
    ensures CleanText(text) <= KeepNumeric(text)
    ensures Count(KeepNumeric(text), '.') <= 1 ==> CleanText(text) == KeepNumeric(text)
    ensures |CleanText(text)| < |KeepNumeric(text)| ==>
      KeepNumeric(text)[|CleanText(text)|] == '.' && Count(CleanText(text), '.') == 1
  {
    PrefixAllNumeric(CleanText(text), KeepNumeric(text));
  }

  /** Cleaning is idempotent: clean text is left as it is. */
  lemma CleanTextIdempotent(text: string)
    ensures CleanText(CleanText(text)) == CleanText(text)
  {
    var c := CleanText(text);
    CleanTextSpec(text);
    KeepNumericFixpoint(c);
  }

  // ---------------------------------------------------------------- step 3

  function DigitValue(c: char): (d: nat)
    requires IsDigit(c)
    ensures d <= 9
  {
    c as int - '0' as int
  }

  /** The value of a run of decimal digits, most significant first. */
  function NatOf(ds: string): nat
    requires AllDigits(ds)
  {
    if ds == [] then 0 else NatOf(ds[..|ds| - 1]) * 10 + DigitValue(ds[|ds| - 1])
  }

  function Pow10(n: nat): (p: nat)
    ensures p >= 1
  {
    if n == 0 then 1 else 10 * Pow10(n - 1)
  }

  /** The number written `whole.fraction`. */
  function DecimalValue(whole: string, fraction: string): (v: real)
    requires AllDigits(whole) && AllDigits(fraction)
    ensures v >= NatOf(whole) as real >= 0.0
  {
    NatOf(whole) as real + NatOf(fraction) as real / Pow10(|fraction|) as real
  }

  /** The longest run of digits at the start of `s`. */
  function LeadingDigits(s: string): (r: string)
    ensures r <= s && AllDigits(r)
    ensures |r| < |s| ==> !IsDigit(s[|r|])
  {
    if s != [] && IsDigit(s[0]) then [s[0]] + LeadingDigits(s[1..]) else []
  }

  /**
   * `parseFloat` on unsigned, exponent-free text: the longest prefix of the form
   * digits [ "." digits ]; `None` stands for NaN, the result when that prefix has no digit.
   */
  function ParseFloat(s: string): (r: Option<real>)
    ensures r.Some? ==> r.value >= 0.0
    ensures r.None? <==> !(s != [] && IsDigit(s[0])) && !(|s| >= 2 && s[0] == '.' && IsDigit(s[1]))
  {
    var whole := LeadingDigits(s);
    var rest := s[|whole|..];
    var fraction := if rest != [] && rest[0] == '.' then LeadingDigits(rest[1..]) else [];
    if whole == [] && fraction == [] then None else Some(DecimalValue(whole, fraction))
  }

  /** `sanitizeNumericInput`: the cleaned text read as a number, with 0 when it does not parse. */
  function SanitizeNumericInput(text: string): (r: real)
    ensures r >= 0.0
  {
    ParseFloat(CleanText(text)).GetOr(0.0)
  }

  lemma {:induction false} LeadingDigitsOf(w: string, rest: string)
    requires AllDigits(w)
    requires rest == [] || !IsDigit(rest[0])
    ensures LeadingDigits(w + rest) == w
  {
    if w == [] {
      assert w + rest == rest;
    } else {
      assert (w + rest)[1..] == w[1..] + rest;
      LeadingDigitsOf(w[1..], rest);
    }
  }

  /** Text without a single digit ("", "abc", "...") sanitises to 0. */
  lemma SanitizeNoDigit(text: string)
    requires NoDigit(text)
    ensures ParseFloat(CleanText(text)) == None
    ensures SanitizeNumericInput(text) == 0.0
  {
    PrefixNoDigit(CleanText(text), KeepNumeric(text));
  }

  /** Text that already holds only digits and at most one dot comes through steps 1 and 2 unchanged. */
  lemma CleanTextOfClean(s: string)
    requires AllNumeric(s) && Count(s, '.') <= 1
    ensures CleanText(s) == s
  {
    KeepNumericFixpoint(s);
  }

  lemma DecimalText(whole: string, fraction: string)
    requires AllDigits(whole) && AllDigits(fraction)
    ensures AllNumeric(whole + "." + fraction)
    ensures Count(whole + "." + fraction, '.') == 1
  {
    var s := whole + "." + fraction;
    assert forall k :: 0 <= k < |s| ==>
      s[k] == (if k < |whole| then whole[k] else if k == |whole| then '.' else fraction[k - |whole| - 1]);
    CountAbsent(whole, '.');
    CountAbsent(fraction, '.');
    CountConcat(whole, ".", '.');
    CountConcat(whole + ".", fraction, '.');
  }

  lemma ParseFloatDecimal(whole: string, fraction: string)
    requires AllDigits(whole) && AllDigits(fraction)
    requires whole != [] || fraction != []
    ensures ParseFloat(whole + "." + fraction) == Some(DecimalValue(whole, fraction))
  {
    var s := whole + "." + fraction;
    assert s == whole + ("." + fraction);
    LeadingDigitsOf(whole, "." + fraction);
    assert s[|whole|..] == "." + fraction;
    assert ("." + fraction)[1..] == fraction;
    LeadingDigitsOf(fraction, []);
    assert fraction + [] == fraction;
  }

  lemma ParseFloatWhole(whole: string)
    requires AllDigits(whole) && whole != []
    ensures ParseFloat(whole) == Some(NatOf(whole) as real)
  {
    LeadingDigitsOf(whole, []);
    assert whole + [] == whole;
  }

  /**
   * Round trip: a well-formed decimal `whole.fraction` (or a bare `whole`), typed
   * as it is, sanitises to the number it denotes.
   */
  lemma SanitizeDecimal(whole: string, fraction: string)
    requires AllDigits(whole) && AllDigits(fraction)
    requires whole != [] || fraction != []
    ensures SanitizeNumericInput(whole + "." + fraction) == DecimalValue(whole, fraction)
    ensures whole != [] ==> SanitizeNumericInput(whole) == NatOf(whole) as real
  {
    DecimalText(whole, fraction);
    CleanTextOfClean(whole + "." + fraction);
    ParseFloatDecimal(whole, fraction);
    if whole != [] {
      CountAbsent(whole, '.');
      CleanTextOfClean(whole);
      ParseFloatWhole(whole);
    }
  }

  /** A piece without separators followed by a separator splits off as the first piece. */
  lemma {:induction false} SplitAtSeparator(a: string, x: string, sep: char)
    requires sep !in a
    ensures Split(a + [sep] + x, sep) == [a] + Split(x, sep)
  {
    var s := a + [sep] + x;
    if a == [] {
      assert s == [sep] + x;
      assert s[1..] == x;
    } else {
      assert s[0] == a[0];
      assert s[1..] == a[1..] + [sep] + x;
      SplitAtSeparator(a[1..], x, sep);
      assert [a[0]] + a[1..] == a;
    }
  }

  /** With two or more dots, step 2 keeps exactly the text before the second dot. */
  lemma FirstTwoSegmentsOfTwoDots(a: string, b: string, rest: string)
    requires '.' !in a && '.' !in b
    ensures FirstTwoSegments(a + "." + b + "." + rest) == a + "." + b
  {
    SplitAtSeparator(b, rest, '.');
    SplitAtSeparator(a, b + "." + rest, '.');
    assert a + "." + b + "." + rest == a + ['.'] + (b + ['.'] + rest);
    var parts := Split(a + "." + b + "." + rest, '.');
    assert parts[..2] == [a, b];
    assert Join([a, b], '.') == a + "." + Join([b], '.');
  }

  /**
   * With two or more dots, steps 1 and 2 keep exactly the text before the second dot,
   * whatever follows it.
   */
  lemma CleanTextTwoDots(a: string, b: string, rest: string)
    requires AllDigits(a) && AllDigits(b)
    ensures CleanText(a + "." + b + "." + rest) == a + "." + b
  {
    var head := a + "." + b + ".";
    assert a + "." + b + "." + rest == head + rest;
    DecimalText(a, b);
    assert AllNumeric(head) by {
      assert forall k :: 0 <= k < |head| ==>
        head[k] == (if k < |a + "." + b| then (a + "." + b)[k] else '.');
    }
    KeepNumericFixpoint(head);
    KeepNumericConcat(head, rest);
    assert KeepNumeric(head + rest) == a + "." + b + "." + KeepNumeric(rest);
    assert '.' !in a && '.' !in b by {
      assert forall k :: 0 <= k < |a| ==> a[k] != '.';
      assert forall k :: 0 <= k < |b| ==> b[k] != '.';
    }
    FirstTwoSegmentsOfTwoDots(a, b, KeepNumeric(rest));
  }

  /** Text with a second dot is read as the decimal before that dot: the rest is ignored. */
  lemma SanitizeTwoDots(a: string, b: string, rest: string)
    requires AllDigits(a) && AllDigits(b)
    requires a != [] || b != []
    ensures SanitizeNumericInput(a + "." + b + "." + rest) == DecimalValue(a, b)
  {
    CleanTextTwoDots(a, b, rest);
    DecimalText(a, b);
    CleanTextOfClean(a + "." + b);
    SanitizeDecimal(a, b);
  }

  lemma NatOfTwoDigits(ds: string)
    requires |ds| == 2 && AllDigits(ds)
    ensures NatOf(ds) == 10 * DigitValue(ds[0]) + DigitValue(ds[1])
  {
    var first := ds[..1];
    assert first[..0] == [] && first[0] == ds[0];
    assert NatOf(first) == DigitValue(ds[0]);
  }

  /** "12.34.56" sanitises to 12.34. */
  lemma SanitizeTwoDotsExample(a: string, b: string, rest: string)
    requires a == "12" && b == "34" && rest == "56"
    ensures CleanText(a + "." + b + "." + rest) == a + "." + b
    ensures SanitizeNumericInput(a + "." + b + "." + rest) == 12.34
  {
    assert AllDigits(a) && AllDigits(b);
    CleanTextTwoDots(a, b, rest);
    SanitizeTwoDots(a, b, rest);
    NatOfTwoDigits(a);
    NatOfTwoDigits(b);
    assert NatOf(a) == 12 && NatOf(b) == 34 && Pow10(|b|) == 100;
    assert DecimalValue(a, b) == 12.0 + 34.0 / 100.0;
  }

  /** "abc" and "" sanitise to 0. */
  lemma SanitizeNoDigitExamples(letters: string)
    requires letters == "abc"
    ensures SanitizeNumericInput(letters) == 0.0
    ensures SanitizeNumericInput([]) == 0.0
  {
    assert letters[0] == 'a' && letters[1] == 'b' && letters[2] == 'c';
    SanitizeNoDigit(letters);
    SanitizeNoDigit([]);
  }
}
