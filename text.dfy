/** The JavaScript string operations the core relies on, over `seq<char>`:
    `Number.prototype.toString(radix)` for non-negative integers, `padStart`,
    `slice(0, n)`, `substr`, `toUpperCase` on ASCII letters, `replace` of one
    character, `split(sep).pop()` and `parseInt`. */
module Text {
  import opened Wrappers

  /** The digit character for `d` in bases up to 36, lower case as JavaScript writes it. */
  function DigitChar(d: nat): (c: char)
    requires d < 36
    ensures d < 10 ==> '0' <= c <= '9'
    ensures 10 <= d ==> 'a' <= c <= 'z'
  {
    if d < 10 then ('0' as int + d) as char else ('a' as int + d - 10) as char
  }

  /** The value of a digit character; characters that are not digits read as 0. */
  function DigitValue(c: char): nat
  {
    if '0' <= c <= '9' then c as int - '0' as int
    else if 'a' <= c <= 'z' then c as int - 'a' as int + 10
    else 0
  }

  predicate IsDecimalDigit(c: char) { '0' <= c <= '9' }

  /** A digit of base `radix`, in JavaScript's lower-case spelling. */
  predicate IsRadixDigit(c: char, radix: nat)
  {
    ('0' <= c <= '9' || 'a' <= c <= 'z') && DigitValue(c) < radix
  }

  lemma DivStep(n: nat, radix: nat)
    requires 2 <= radix <= n
    ensures 0 < n / radix < n
    ensures (n / radix) * radix + n % radix == n
    ensures n % radix < radix
  {
  }

  lemma DigitRoundTrip(d: nat)
    requires d < 36
    ensures DigitValue(DigitChar(d)) == d
  {
  }

  /** `n.toString(radix)` for a non-negative integer: most significant digit
      first, at least one digit, and no leading zero. */
  function RadixString(n: nat, radix: nat): (s: string)
    requires 2 <= radix <= 36
    ensures |s| >= 1
    ensures forall i :: 0 <= i < |s| ==> IsRadixDigit(s[i], radix)
    ensures |s| > 1 ==> s[0] != '0'
    decreases n
  {
    if n < radix then [DigitChar(n)]
    else
      DivStep(n, radix);
      RadixString(n / radix, radix) + [DigitChar(n % radix)]
  }

  /** The number a string of digits denotes in base `radix`. */
  function ParseRadix(s: string, radix: nat): nat
    requires 2 <= radix <= 36
  {
    if s == [] then 0 else ParseRadix(s[..|s| - 1], radix) * radix + DigitValue(s[|s| - 1])
  }

  lemma {:induction false} ParseRadixString(n: nat, radix: nat)
    requires 2 <= radix <= 36
    ensures ParseRadix(RadixString(n, radix), radix) == n
    decreases n
  {
    var s := RadixString(n, radix);
    if n < radix {
      assert s[..0] == [];
    } else {
      DivStep(n, radix);
      ParseRadixString(n / radix, radix);
      assert s[..|s| - 1] == RadixString(n / radix, radix);
    }
  }

  /** Different numbers are written differently. */
  lemma RadixStringInjective(m: nat, n: nat, radix: nat)
    requires 2 <= radix <= 36
    requires RadixString(m, radix) == RadixString(n, radix)
    ensures m == n
  {
    ParseRadixString(m, radix);
    ParseRadixString(n, radix);
  }

  /** `Date.now()` and other integers interpolated into a template string. */
  function DecimalString(n: nat): (s: string)
  {
    RadixString(n, 10)
  }

  /** `s.padStart(width, fill)`. */
  function PadStart(s: string, width: nat, fill: char): (r: string)
    ensures |r| == if |s| < width then width else |s|
    ensures r[|r| - |s|..] == s
    ensures forall i :: 0 <= i < |r| - |s| ==> r[i] == fill
  {
    if |s| < width then seq(width - |s|, _ => fill) + s else s
  }

  /** `parts.join('')`. */
  function Join(parts: seq<string>): string
  {
    if parts == [] then [] else parts[0] + Join(parts[1..])
  }

  /** Joining parts of two characters each puts part `i` at positions `2i`, `2i + 1`. */
  lemma {:induction false} JoinPairsAt(parts: seq<string>, i: nat)
    requires forall j :: 0 <= j < |parts| ==> |parts[j]| == 2
    requires i < |parts|
    ensures |Join(parts)| == 2 * |parts|
    ensures Join(parts)[2 * i] == parts[i][0] && Join(parts)[2 * i + 1] == parts[i][1]
  {
    JoinPairsLength(parts);
    if i > 0 {
      JoinPairsAt(parts[1..], i - 1);
    }
  }

  lemma {:induction false} JoinPairsLength(parts: seq<string>)
    requires forall j :: 0 <= j < |parts| ==> |parts[j]| == 2
    ensures |Join(parts)| == 2 * |parts|
  {
    if parts != [] {
      JoinPairsLength(parts[1..]);
    }
  }

  /** `s.slice(0, n)`: the first `n` characters, or all of `s` if shorter. */
  function Prefix(s: string, n: nat): (r: string)
    ensures |r| <= n && |r| <= |s|
    ensures |s| >= n ==> |r| == n
    ensures r <= s
    ensures |s| <= n ==> r == s
    ensures |s| > n ==> r == s[..n]
  {
    if |s| <= n then s else s[..n]
  }

  /** `s.substr(start, length)` for non-negative arguments. */
  function Substr(s: string, start: nat, length: nat): (r: string)
    ensures |r| <= length
    ensures start + length <= |s| ==> r == s[start..start + length]
    ensures start < |s| < start + length ==> r == s[start..]
    ensures |s| <= start ==> r == []
  {
    var from := if start <= |s| then start else |s|;
    var to := if start + length <= |s| then start + length else |s|;
    s[from..to]
  }

  function UpperChar(c: char): char
  {
    if 'a' <= c <= 'z' then (c as int - 32) as char else c
  }

  /** `s.toUpperCase()` restricted to ASCII: lower-case letters become upper
      case, every other character is kept. */
  function ToUpperCase(s: string): (r: string)
    ensures |r| == |s|
    ensures forall i :: 0 <= i < |s| ==> r[i] == UpperChar(s[i])
  {
    seq(|s|, i requires 0 <= i < |s| => UpperChar(s[i]))
  }

  /** `s.indexOf(c)`: the first position of `c`, or -1. */
  function IndexOf(s: string, c: char): (k: int)
    ensures -1 <= k < |s|
    ensures k == -1 <==> c !in s
    ensures 0 <= k ==> s[k] == c && c !in s[..k]
  {
    if s == [] then -1
    else if s[0] == c then 0
    else
      var k := IndexOf(s[1..], c);
      assert 0 <= k ==> s[..k + 1] == [s[0]] + s[1..][..k];
      if k < 0 then -1 else k + 1
  }

  lemma {:induction false} IndexOfJoin(a: string, b: string, c: char)
    requires c !in a
    ensures IndexOf(a + [c] + b, c) == |a|
  {
    if a != [] {
      assert (a + [c] + b)[1..] == a[1..] + [c] + b;
      IndexOfJoin(a[1..], b, c);
    }
  }

  /** `s.replace(from, to)` with a one-character pattern: only the FIRST
      occurrence is replaced. */
  function ReplaceFirst(s: string, from: char, to: char): (r: string)
    ensures |r| == |s|
    ensures forall i :: 0 <= i < |s| ==> r[i] == if i == IndexOf(s, from) then to else s[i]
  {
    var k := IndexOf(s, from);
    if k < 0 then s else s[..k] + [to] + s[k + 1..]
  }

  /** `s.split(sep).pop()`: the text after the last `sep`, or all of `s` when
      it holds no `sep`. */
  function LastSegment(s: string, sep: char): string
  {
    if s == [] then []
    else if s[|s| - 1] == sep then []
    else LastSegment(s[..|s| - 1], sep) + [s[|s| - 1]]
  }

  /** The last segment holds no separator, is a suffix of `s`, and is
      preceded by a separator unless it is all of `s`. */
  lemma {:induction false} LastSegmentShape(s: string, sep: char)
    ensures sep !in LastSegment(s, sep)
    ensures |LastSegment(s, sep)| <= |s| && s[|s| - |LastSegment(s, sep)|..] == LastSegment(s, sep)
    ensures |LastSegment(s, sep)| < |s| ==> s[|s| - |LastSegment(s, sep)| - 1] == sep
  {
    if s != [] && s[|s| - 1] != sep {
      var init := s[..|s| - 1];
      LastSegmentShape(init, sep);
      var r0 := LastSegment(init, sep);
      assert s[|s| - |r0| - 1..] == init[|init| - |r0|..] + [s[|s| - 1]];
      if |r0| < |init| {
        assert s[|s| - |r0| - 2] == init[|init| - |r0| - 1];
      }
    }
  }

  /** A text without the separator is its own last segment. */
  lemma {:induction false} LastSegmentWithoutSeparator(s: string, sep: char)
    requires sep !in s
    ensures LastSegment(s, sep) == s
  {
    if s != [] {
      var init := s[..|s| - 1];
      assert sep !in init by {
        forall c | c in init ensures c in s {
          var k :| 0 <= k < |init| && init[k] == c;
          assert s[k] == c;
        }
      }
      LastSegmentWithoutSeparator(init, sep);
      assert s == init + [s[|s| - 1]];
    }
  }

  /** The leading run of decimal digits of `s`. */
  function DigitRun(s: string): (r: string)
    ensures r <= s
    ensures forall i :: 0 <= i < |r| ==> IsDecimalDigit(r[i])
    ensures |r| < |s| ==> !IsDecimalDigit(s[|r|])
  {
    if s == [] || !IsDecimalDigit(s[0]) then [] else [s[0]] + DigitRun(s[1..])
  }

  /** `parseInt(s)` in base ten: an optional sign followed by the leading
      digits; `None` stands for NaN (no digit after the sign). */
  function ParseInt(s: string): Option<int>
  {
    var negative := |s| > 0 && s[0] == '-';
    var body := if |s| > 0 && (s[0] == '-' || s[0] == '+') then s[1..] else s;
    var digits := DigitRun(body);
    var magnitude: int := ParseRadix(digits, 10);
    if digits == [] then None
    else Some(if negative then -magnitude else magnitude)
  }

  /** A non-negative integer typed in as its decimal string reads back as itself. */
  lemma ParseIntDecimal(n: nat)
    ensures ParseInt(DecimalString(n)) == Some(n)
  {
    var s := DecimalString(n);
    DigitRunAll(s);
    ParseRadixString(n, 10);
  }

  lemma {:induction false} DigitRunAll(s: string)
    requires forall i :: 0 <= i < |s| ==> IsDecimalDigit(s[i])
    ensures DigitRun(s) == s
  {
    if s != [] {
      DigitRunAll(s[1..]);
    }
  }

  /** Two texts joined by a separator that neither left part contains are
      split back uniquely. */
  lemma SeparatedPairInjective(a1: string, b1: string, a2: string, b2: string, sep: char)
    requires sep !in a1 && sep !in a2
    requires a1 + [sep] + b1 == a2 + [sep] + b2
    ensures a1 == a2 && b1 == b2
  {
    var s := a1 + [sep] + b1;
    IndexOfJoin(a1, b1, sep);
    IndexOfJoin(a2, b2, sep);
    assert a1 == s[..|a1|] == a2;
    assert b1 == s[|a1| + 1..] == b2;
  }
}
