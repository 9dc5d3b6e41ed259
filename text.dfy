/** The JavaScript string operations the shop's logic relies on, over
    `seq<char>`: ASCII lower-casing, `startsWith`, `includes`, global literal
    `replace`, `split('T')[0]`, `slice` and number-to-decimal conversion. */
module Text {

  function LowerChar(c: char): char {
    if 'A' <= c <= 'Z' then (c as int + 32) as char else c
  }

  /** `toLowerCase`, restricted to the ASCII letters. */
  function Lower(s: string): string {
    seq(|s|, i requires 0 <= i < |s| => LowerChar(s[i]))
  }

  /** Lower-casing twice is lower-casing once. */
  lemma LowerIdempotent(s: string)
    ensures Lower(Lower(s)) == Lower(s)
  {
    var l := Lower(s);
    assert forall i :: 0 <= i < |l| ==> LowerChar(l[i]) == l[i];
  }

  /** `s.startsWith(p)`. */
  predicate StartsWith(s: string, p: string) {
    |p| <= |s| && s[..|p|] == p
  }

  /** `s.includes(t)`: `t` occurs in `s` at some offset. */
  predicate Contains(s: string, t: string)
    decreases |s|
  {
    StartsWith(s, t) || (s != [] && Contains(s[1..], t))
  }

  /** Every string contains the empty string. */
  lemma ContainsEmpty(s: string)
    ensures Contains(s, "")
  {
    assert StartsWith(s, "");
  }

  /** A string does not contain anything longer than itself. */
  lemma {:induction false} ContainsLonger(s: string, t: string)
    requires |s| < |t|
    ensures !Contains(s, t)
    decreases |s|
  {
    if s != [] {
      ContainsLonger(s[1..], t);
    }
  }

  /** A string does not contain a text whose first character it lacks. */
  lemma {:induction false} ContainsFirstChar(s: string, t: string)
    requires t != [] && t[0] !in s
    ensures !Contains(s, t)
    decreases |s|
  {
    if s != [] {
      assert s[0] != t[0];
      ContainsFirstChar(s[1..], t);
    }
  }

  /** A prefix lacking the first character of `t` cannot hold the start of an
      occurrence of `t`. */
  lemma {:induction false} ContainsAfter(a: string, b: string, t: string)
    requires t != [] && t[0] !in a
    ensures Contains(a + b, t) ==> Contains(b, t)
    decreases |a|
  {
    if a != [] {
      var s := a + b;
      assert s[0] == a[0] != t[0];
      assert !StartsWith(s, t) by {
        if |t| <= |s| {
          assert s[..|t|][0] == a[0];
        }
      }
      assert s[1..] == a[1..] + b;
      ContainsAfter(a[1..], b, t);
    } else {
      assert a + b == b;
    }
  }

  /** A text that does not start with `t` and holds `t`'s first character
      only at its head does not contain `t`. */
  lemma ContainsOnlyAtHead(s: string, t: string)
    requires s != [] && t != [] && !StartsWith(s, t) && t[0] !in s[1..]
    ensures !Contains(s, t)
  {
    ContainsFirstChar(s[1..], t);
  }

  /** Among strings of one length, containment is equality. */
  lemma ContainsSameLength(s: string, t: string)
    requires |s| == |t|
    ensures Contains(s, t) <==> s == t
  {
    if s != [] {
      ContainsLonger(s[1..], t);
    }
  }

  /** `s.replace(/token/g, value)`: every non-overlapping occurrence of `token`,
      scanning left to right, is replaced by `value`; the replacement text is
      not scanned again. */
  function ReplaceAll(s: string, token: string, value: string): (r: string)
    requires token != ""
    ensures |value| <= |token| ==> |r| <= |s|
    ensures |value| >= |token| ==> |r| >= |s|
    decreases |s|
  {
    if |s| < |token| then s
    else if s[..|token|] == token then value + ReplaceAll(s[|token|..], token, value)
    else [s[0]] + ReplaceAll(s[1..], token, value)
  }

  /** A string in which the token does not occur is returned unchanged. */
  lemma {:induction false} ReplaceAllAbsent(s: string, token: string, value: string)
    requires token != ""
    requires !Contains(s, token)
    ensures ReplaceAll(s, token, value) == s
    decreases |s|
  {
    if |s| >= |token| {
      assert !StartsWith(s, token);
      ReplaceAllAbsent(s[1..], token, value);
      assert s == [s[0]] + s[1..];
    }
  }

  /** A string that starts with the token: the token is replaced first. */
  lemma ReplaceAllAtToken(token: string, b: string, value: string)
    requires token != ""
    ensures ReplaceAll(token + b, token, value) == value + ReplaceAll(b, token, value)
  {
    var s := token + b;
    assert s[..|token|] == token && s[|token|..] == b;
  }

  /** The first occurrence of the token is replaced, and the scan resumes
      right after it: `a` followed by all but the last character of the
      token holds no occurrence, so none starts inside `a`. */
  lemma {:induction false} ReplaceAllHits(a: string, token: string, b: string, value: string)
    requires token != "" && !Contains(a + token[..|token| - 1], token)
    ensures ReplaceAll(a + token + b, token, value) == a + value + ReplaceAll(b, token, value)
    decreases |a|
  {
    if a == [] {
      assert a + token + b == token + b;
      ReplaceAllAtToken(token, b, value);
    } else {
      var n := |token|;
      var x := a + token[..n - 1];
      var s := a + token + b;
      assert !StartsWith(x, token);
      assert s[..n] == x[..n];
      assert s[1..] == a[1..] + token + b;
      assert x[1..] == a[1..] + token[..n - 1];
      ReplaceAllHits(a[1..], token, b, value);
      assert a + value + ReplaceAll(b, token, value)
          == [a[0]] + (a[1..] + value + ReplaceAll(b, token, value));
    }
  }

  /** A stretch without the token's first character holds no start of the token. */
  lemma NoEarlierToken(a: string, token: string)
    requires token != "" && token[0] !in a
    ensures !Contains(a + token[..|token| - 1], token)
  {
    ContainsAfter(a, token[..|token| - 1], token);
    ContainsLonger(token[..|token| - 1], token);
  }

  /** When `y` starts with a character the token holds only at its head, no
      occurrence straddles `x` and `y`, so the two parts are replaced apart. */
  lemma {:induction false} ReplaceAllSplit(x: string, y: string, token: string, value: string)
    requires token != "" && y != [] && y[0] !in token[1..]
    ensures ReplaceAll(x + y, token, value) == ReplaceAll(x, token, value) + ReplaceAll(y, token, value)
    decreases |x|
  {
    var n := |token|;
    var s := x + y;
    if x == [] {
      assert s == y;
    } else if |s| >= n {
      if |x| < n {
        assert s[..n][|x|] == y[0];
        assert token[|x|] == token[1..][|x| - 1];
        assert s[..n] != token;
        assert s[1..] == x[1..] + y;
        ReplaceAllSplit(x[1..], y, token, value);
      } else if x[..n] == token {
        assert s[..n] == token;
        assert s[n..] == x[n..] + y;
        ReplaceAllSplit(x[n..], y, token, value);
      } else {
        assert s[..n] == x[..n];
        assert s[1..] == x[1..] + y;
        ReplaceAllSplit(x[1..], y, token, value);
      }
    }
  }

  /** Replacing a token by itself changes nothing: every occurrence found is
      put back exactly where it was. */
  lemma {:induction false} ReplaceAllSelf(s: string, token: string)
    requires token != ""
    ensures ReplaceAll(s, token, token) == s
    decreases |s|
  {
    if |s| >= |token| {
      if s[..|token|] == token {
        ReplaceAllSelf(s[|token|..], token);
        assert s == s[..|token|] + s[|token|..];
      } else {
        ReplaceAllSelf(s[1..], token);
        assert s == [s[0]] + s[1..];
      }
    }
  }

  /** `s.split('T')[0]`: the part of `s` before its first 'T' (all of `s` if it has none). */
  function BeforeT(s: string): (r: string)
    ensures 'T' !in r
    ensures StartsWith(s, r)
    ensures r == s || s[|r|] == 'T'
  {
    if s == [] then []
    else if s[0] == 'T' then []
    else [s[0]] + BeforeT(s[1..])
  }

  /** `s.slice(k)` for a non-negative `k`. */
  function DropFirst(s: string, k: nat): (r: string)
    ensures |r| == if |s| <= k then 0 else |s| - k
    ensures forall i :: 0 <= i < |r| ==> r[i] == s[k + i]
  {
    if |s| <= k then "" else s[k..]
  }

  /** `s.slice(-k)` for a positive `k`: the last `k` characters, or all of `s` when shorter. */
  function LastChars(s: string, k: nat): (r: string)
    ensures |r| == if |s| <= k then |s| else k
    ensures s == s[..|s| - |r|] + r
  {
    if |s| <= k then s else s[|s| - k..]
  }

  function DigitChar(d: nat): char
    requires d < 10
  {
    "0123456789"[d]
  }

  predicate IsDigit(c: char) {
    '0' <= c <= '9'
  }

  /** The decimal numeral of `n`, without leading zeros. */
  function Decimal(n: nat): (r: string)
    ensures |r| >= 1
    ensures forall i :: 0 <= i < |r| ==> IsDigit(r[i])
    ensures r[0] == '0' ==> n == 0
  {
    if n < 10 then [DigitChar(n)] else Decimal(n / 10) + [DigitChar(n % 10)]
  }

  /** The value of a decimal digit; any other character counts as 0. */
  function DigitValue(c: char): (r: nat)
    ensures r < 10
  {
    if IsDigit(c) then c as int - '0' as int else 0
  }

  /** The value a string of decimal digits denotes. */
  function NumeralValue(s: string): nat
  {
    if s == [] then 0 else 10 * NumeralValue(s[..|s| - 1]) + DigitValue(s[|s| - 1])
  }

  lemma DigitCharValue(d: nat)
    requires d < 10
    ensures IsDigit(DigitChar(d)) && DigitValue(DigitChar(d)) == d
  {
  }

  /** Reading the numeral back gives the number: Decimal is one-to-one. */
  lemma {:induction false} DecimalValue(n: nat)
    ensures NumeralValue(Decimal(n)) == n
  {
    DigitCharValue(n % 10);
    if n >= 10 {
      var r := Decimal(n);
      var front := Decimal(n / 10);
      assert r == front + [DigitChar(n % 10)];
      assert r[..|r| - 1] == front;
      DecimalValue(n / 10);
      assert NumeralValue(r) == 10 * NumeralValue(front) + DigitValue(r[|r| - 1]);
    }
  }

  function Pow10(k: nat): (r: nat)
    ensures r >= 1 && (k >= 1 ==> r >= 10)
  {
    if k == 0 then 1 else 10 * Pow10(k - 1)
  }

  /** Euclidean division is unique: a quotient and remainder in range are `/` and `%`. */
  lemma ModUnique(n: int, m: int, q: int, r: int)
    requires m > 0 && 0 <= r < m && n == m * q + r
    ensures n / m == q && n % m == r
  {
    var q0, r0 := n / m, n % m;
    var x := q - q0;
    assert n == m * q0 + r0;
    assert m * q == m * q0 + m * x;
    assert m * x == r0 - r;
  }

  lemma {:induction false} Pow10Monotone(i: nat, j: nat)
    requires i <= j
    ensures Pow10(i) <= Pow10(j)
  {
    if i < j {
      Pow10Monotone(i, j - 1);
    }
  }

  lemma NumeralSnoc(t: string, c: char)
    ensures NumeralValue(t + [c]) == 10 * NumeralValue(t) + DigitValue(c)
  {
    assert (t + [c])[..|t|] == t;
  }

  /** A numeral of length m denotes less than 10^m. */
  lemma {:induction false} NumeralBound(s: string)
    ensures NumeralValue(s) < Pow10(|s|)
  {
    if s != [] {
      var t := s[..|s| - 1];
      var v, p := NumeralValue(t), Pow10(|t|);
      NumeralBound(t);
      assert NumeralValue(s) == 10 * v + DigitValue(s[|s| - 1]);
      assert 10 * v <= 10 * (p - 1);
      assert Pow10(|s|) == 10 * p;
    }
  }

  lemma ShiftDigit(x: int, p: int, y: int, d: int)
    ensures 10 * (p * x + y) + d == (10 * p) * x + (10 * y + d)
  {
    assert 10 * (p * x) == (10 * p) * x;
  }

  /** A numeral split in two: the front counts in units of 10^|b|. */
  lemma {:induction false} NumeralSplit(a: string, b: string)
    ensures NumeralValue(a + b) == Pow10(|b|) * NumeralValue(a) + NumeralValue(b)
  {
    if b == [] {
      assert a + b == a;
    } else {
      var b', c := b[..|b| - 1], b[|b| - 1];
      var x, p, y, d := NumeralValue(a), Pow10(|b'|), NumeralValue(b'), DigitValue(c);
      assert a + b == (a + b') + [c];
      assert b == b' + [c];
      assert NumeralValue(a + b) == 10 * NumeralValue(a + b') + d by {
        NumeralSnoc(a + b', c);
      }
      assert NumeralValue(b) == 10 * y + d by {
        NumeralSnoc(b', c);
      }
      assert NumeralValue(a + b') == p * x + y by {
        NumeralSplit(a, b');
      }
      assert Pow10(|b|) == 10 * p;
      ShiftDigit(x, p, y, d);
    }
  }

  /** The last k characters of a numeral denote its value modulo 10^k. */
  lemma LastDigits(s: string, k: nat)
    ensures NumeralValue(LastChars(s, k)) == NumeralValue(s) % Pow10(k)
  {
    var r := LastChars(s, k);
    var m, n, v := Pow10(k), NumeralValue(s), NumeralValue(r);
    assert v < m by {
      NumeralBound(r);
      Pow10Monotone(|r|, k);
    }
    if |s| <= k {
      assert r == s;
      ModUnique(n, m, 0, v);
    } else {
      var a := s[..|s| - k];
      assert s == a + r;
      assert n == m * NumeralValue(a) + v by {
        NumeralSplit(a, r);
      }
      ModUnique(n, m, NumeralValue(a), v);
    }
  }

  /** Appending a digit to a positive number appends its character to the numeral. */
  lemma DecimalAppend(n: nat, d: nat, s: string)
    requires 1 <= n && d < 10 && Decimal(n) == s
    ensures Decimal(10 * n + d) == s + [DigitChar(d)]
  {
    var m := 10 * n + d;
    assert m / 10 == n && m % 10 == d;
  }

  /** Two seven-digit numerals, worked out digit by digit. */
  lemma DecimalSampleA()
    ensures Decimal(1234567) == "1234567"
  {
    DecimalLeadingA();
    DecimalAppend(1234, 5, "1234");
    DecimalAppend(12345, 6, "12345");
    DecimalAppend(123456, 7, "123456");
  }

  lemma DecimalSampleB()
    ensures Decimal(2234567) == "2234567"
  {
    DecimalLeadingB();
    DecimalAppend(2234, 5, "2234");
    DecimalAppend(22345, 6, "22345");
    DecimalAppend(223456, 7, "223456");
  }

  /** The first four digits of the two samples. */
  lemma DecimalLeadingA()
    ensures Decimal(1234) == "1234"
  {
    DecimalAppend(1, 2, "1");
    DecimalAppend(12, 3, "12");
    DecimalAppend(123, 4, "123");
  }

  lemma DecimalLeadingB()
    ensures Decimal(2234) == "2234"
  {
    DecimalAppend(2, 2, "2");
    DecimalAppend(22, 3, "22");
    DecimalAppend(223, 4, "223");
  }

  /** `x.toString()` for an integer `x`. */
  function IntText(x: int): string {
    if x < 0 then "-" + Decimal(-x) else Decimal(x)
  }
}
