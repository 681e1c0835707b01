/**
  The string operations the bot relies on: the amount recogniser
  `text.replace(".", "", 1).isdigit()`, `float()` of a recognised amount,
  `str.startswith`, `str.replace(old, "")` and `str.split(" ", 2)`.
  Digits are the ASCII digits.
*/
module Text {

  predicate IsDigit(c: char) {
    '0' <= c <= '9'
  }

  /** Every character is a digit (true of the empty string). */
  predicate AllDigits(s: string) {
    forall i :: 0 <= i < |s| ==> IsDigit(s[i])
  }

  /** Python's `str.isdigit()`: non-empty and only digits. */
  predicate IsDigits(s: string) {
    |s| > 0 && AllDigits(s)
  }

  function Count(s: string, c: char): (n: nat)
    ensures n <= |s|
    ensures n == 0 <==> c !in s
  {
    if s == [] then 0 else (if s[0] == c then 1 else 0) + Count(s[1..], c)
  }

  /** `s.replace(c, "", 1)`: drops the first occurrence of `c`, if any. */
  function RemoveFirst(s: string, c: char): (r: string)
    ensures |r| == if c in s then |s| - 1 else |s|
    ensures c !in s ==> r == s
  {
    if s == [] then []
    else if s[0] == c then s[1..]
    else [s[0]] + RemoveFirst(s[1..], c)
  }

  /** Dropping the first `c` leaves one `c` fewer. */
  lemma {:induction false} RemoveFirstCount(s: string, c: char)
    ensures Count(RemoveFirst(s, c), c) == if c in s then Count(s, c) - 1 else 0
  {
    if s != [] && s[0] != c {
      RemoveFirstCount(s[1..], c);
      assert RemoveFirst(s, c) == [s[0]] + RemoveFirst(s[1..], c);
      assert ([s[0]] + RemoveFirst(s[1..], c))[1..] == RemoveFirst(s[1..], c);
      assert c in s <==> c in s[1..];
    }
  }

  /** The amount recogniser of the capture dialogue. */
  predicate IsAmountText(s: string) {
    IsDigits(RemoveFirst(s, '.'))
  }

  lemma {:induction false} AllDigitsAfterRemoveFirst(s: string)
    ensures AllDigits(RemoveFirst(s, '.')) <==>
              Count(s, '.') <= 1 && forall i :: 0 <= i < |s| && s[i] != '.' ==> IsDigit(s[i])
  {
    if s != [] {
      var t := s[1..];
      AllDigitsAfterRemoveFirst(t);
      assert forall i :: 0 < i < |s| ==> s[i] == t[i - 1];
      if s[0] == '.' {
        assert RemoveFirst(s, '.') == t;
        assert Count(s, '.') == 1 + Count(t, '.');
        if AllDigits(t) {
          assert '.' !in t by {
            forall i | 0 <= i < |t| ensures t[i] != '.' {
              assert IsDigit(t[i]);
            }
          }
        }
      } else {
        var r := RemoveFirst(t, '.');
        assert RemoveFirst(s, '.') == [s[0]] + r;
        var u := [s[0]] + r;
        assert u[0] == s[0];
        assert forall j :: 0 <= j < |r| ==> u[j + 1] == r[j];
        assert AllDigits(u) <==> IsDigit(s[0]) && AllDigits(r);
        assert Count(s, '.') == Count(t, '.');
      }
    }
  }

  /**
    A text is an amount exactly when it holds at most one '.', at least one
    digit, and nothing but digits besides the '.'.
  */
  lemma AmountTextIff(s: string)
    ensures IsAmountText(s) <==>
              && Count(s, '.') <= 1
              && Count(s, '.') < |s|
              && forall i :: 0 <= i < |s| && s[i] != '.' ==> IsDigit(s[i])
  {
    AllDigitsAfterRemoveFirst(s);
  }

  /** A text that begins with something other than a digit or '.' is not an amount. */
  lemma NotAmountByFirstChar(s: string)
    requires |s| > 0 && s[0] != '.' && !IsDigit(s[0])
    ensures !IsAmountText(s)
  {
    AmountTextIff(s);
  }

  /** A digit string with no '.' is an amount, worth the number its digits denote. */
  lemma DigitsAreAmount(s: string)
    requires IsDigits(s)
    ensures IsAmountText(s) && DecimalValue(s) == DigitsValue(s) as real
  {
    assert '.' !in s by {
      forall i | 0 <= i < |s| ensures s[i] != '.' {
        assert IsDigit(s[i]);
      }
    }
  }

  /** "0", the amount `/salary` stores, is an amount worth 0. */
  lemma ZeroIsAmount()
    ensures IsAmountText("0") && DecimalValue("0") == 0.0
  {
    DigitsAreAmount("0");
    assert "0"[..0] == "";
  }

  lemma RejectedAmountExamples()
    ensures !IsAmountText("-5") && !IsAmountText("1.2.3") && !IsAmountText("") && !IsAmountText(".")
  {
    NotAmountByFirstChar("-5");
    assert RemoveFirst(".", '.') == "";
    assert RemoveFirst("1.2.3", '.') == "12.3" by {
      assert RemoveFirst(".2.3", '.') == "2.3";
    }
    assert !IsDigit("12.3"[2]);
  }

  /** Index of the first occurrence of `c`. */
  function IndexOf(s: string, c: char): (i: nat)
    requires c in s
    ensures i < |s| && s[i] == c && c !in s[..i]
  {
    if s[0] == c then 0 else 1 + IndexOf(s[1..], c)
  }

  /** The first occurrence is the one with none before it. */
  lemma {:induction false} IndexOfFirst(s: string, c: char, k: nat)
    requires k < |s| && s[k] == c && c !in s[..k]
    ensures c in s && IndexOf(s, c) == k
  {
    assert s[k] in s;
    if s[0] != c {
      assert k > 0 && s[..k][0] == s[0];
      assert s[1..][..k - 1] == s[..k][1..];
      IndexOfFirst(s[1..], c, k - 1);
    }
  }

  /** The number a string of digits denotes (0 for the empty string). */
  function DigitsValue(s: string): (n: nat)
    requires AllDigits(s)
  {
    if s == [] then 0 else 10 * DigitsValue(s[..|s| - 1]) + (s[|s| - 1] as int - '0' as int)
  }

  function Pow10(k: nat): (p: nat)
    ensures p >= 1
  {
    if k == 0 then 1 else 10 * Pow10(k - 1)
  }

  /** `whole.fraction`, with `places` digits after the point. */
  function Scaled(whole: nat, fraction: nat, places: nat): (r: real)
    ensures r >= whole as real
  {
    whole as real + fraction as real / Pow10(places) as real
  }

  /**
    `float(s)` for a recognised amount, exactly: the digits before the '.'
    plus the digits after it scaled by their count ("250.5", "5.", ".5").
  */
  function DecimalValue(s: string): (r: real)
    requires IsAmountText(s)
    ensures r >= 0.0
    ensures '.' !in s ==> r == DigitsValue(s) as real
  {
    AmountTextIff(s);
    if '.' in s then
      var k := IndexOf(s, '.');
      DigitsAroundDot(s);
      Scaled(DigitsValue(s[..k]), DigitsValue(s[k + 1..]), |s| - k - 1)
    else
      DigitsValue(s) as real
  }

  /** In a recognised amount, both sides of the '.' are digit strings. */
  lemma DigitsAroundDot(s: string)
    requires IsAmountText(s) && '.' in s
    ensures AllDigits(s[..IndexOf(s, '.')]) && AllDigits(s[IndexOf(s, '.') + 1..])
  {
    AmountTextIff(s);
    var k := IndexOf(s, '.');
    CountSplit(s, k);
    assert '.' !in s[k + 1..];
    assert forall i :: k + 1 <= i < |s| ==> s[i] == s[k + 1..][i - (k + 1)];
  }

  lemma {:induction false} CountSplit(s: string, k: nat)
    requires k < |s|
    ensures Count(s, s[k]) == Count(s[..k], s[k]) + 1 + Count(s[k + 1..], s[k])
  {
    if k > 0 {
      CountSplit(s[1..], k - 1);
      assert s[1..][..k - 1] == s[..k][1..];
      assert s[1..][k - 1 + 1..] == s[k + 1..];
    } else {
      assert s[..k] == [];
    }
  }

  /** "1000" is an amount, and `float()` reads it as 1000. */
  lemma ThousandIsAmount()
    ensures IsAmountText("1000") && DecimalValue("1000") == 1000.0
  {
    assert IsDigits("1000") by {
      assert IsDigit("1000"[0]) && IsDigit("1000"[1]) && IsDigit("1000"[2]) && IsDigit("1000"[3]);
    }
    DigitsAreAmount("1000");
    assert DigitsValue("1000") == 1000 by {
      assert "1000"[..3] == "100" && "100"[..2] == "10" && "10"[..1] == "1" && "1"[..0] == "";
    }
  }

  /** `float()` of an amount with a '.': the digits before it plus the digits after it, scaled. */
  lemma DecimalValueAtDot(s: string, k: nat)
    requires IsAmountText(s) && k < |s| && s[k] == '.' && '.' !in s[..k]
    ensures AllDigits(s[..k]) && AllDigits(s[k + 1..])
    ensures DecimalValue(s) == Scaled(DigitsValue(s[..k]), DigitsValue(s[k + 1..]), |s| - k - 1)
  {
    IndexOfFirst(s, '.', k);
    DigitsAroundDot(s);
  }

  /** `replace(c, "", 1)` passes over a prefix free of `c`. */
  lemma {:induction false} RemoveFirstSkips(a: string, rest: string, c: char)
    requires c !in a
    ensures RemoveFirst(a + rest, c) == a + RemoveFirst(rest, c)
  {
    if a == [] {
      assert a + rest == rest;
    } else {
      var t := a + rest;
      var tail := a[1..];
      assert a[0] != c by { assert a[0] in a; }
      assert c !in tail by { assert forall i :: 0 <= i < |tail| ==> tail[i] == a[i + 1]; }
      assert t[0] == a[0] && t[1..] == tail + rest;
      RemoveFirstSkips(tail, rest, c);
      assert a == [a[0]] + tail;
      calc {
        RemoveFirst(t, c);
        [t[0]] + RemoveFirst(t[1..], c);
        [a[0]] + RemoveFirst(tail + rest, c);
        [a[0]] + (tail + RemoveFirst(rest, c));
        ([a[0]] + tail) + RemoveFirst(rest, c);
      }
    }
  }

  /** Digits, a '.', digits (not both empty) make an amount. */
  lemma DigitsDotDigitsIsAmount(a: string, b: string)
    requires AllDigits(a) && AllDigits(b) && |a| + |b| > 0
    ensures IsAmountText(a + "." + b)
  {
    assert '.' !in a by {
      forall i | 0 <= i < |a| ensures a[i] != '.' {
        assert IsDigit(a[i]);
      }
    }
    assert a + "." + b == a + ("." + b);
    RemoveFirstSkips(a, "." + b, '.');
    assert RemoveFirst("." + b, '.') == b;
    assert forall i :: 0 <= i < |a + b| ==> IsDigit((a + b)[i]);
  }

  /** ... and `float()` reads them as decimal notation says. */
  lemma DigitsDotDigits(a: string, b: string)
    requires AllDigits(a) && AllDigits(b) && |a| + |b| > 0
    ensures IsAmountText(a + "." + b)
    ensures DecimalValue(a + "." + b) == Scaled(DigitsValue(a), DigitsValue(b), |b|)
  {
    DigitsDotDigitsIsAmount(a, b);
    SplitAtDot(a, b);
    NoDotInDigits(a);
    DecimalValueAtDot(a + "." + b, |a|);
  }

  lemma SplitAtDot(a: string, b: string)
    ensures var s := a + "." + b;
            |s| == |a| + |b| + 1 && s[..|a|] == a && s[|a|] == '.' && s[|a| + 1..] == b
  {
  }

  lemma NoDotInDigits(a: string)
    requires AllDigits(a)
    ensures '.' !in a
  {
    forall i | 0 <= i < |a| ensures a[i] != '.' {
      assert IsDigit(a[i]);
    }
  }

  lemma DigitsOf250()
    ensures AllDigits("250") && DigitsValue("250") == 250
  {
    assert IsDigit("250"[0]) && IsDigit("250"[1]) && IsDigit("250"[2]);
    assert "250"[..2] == "25" && "25"[..1] == "2" && "2"[..0] == "";
  }

  lemma DigitsOf5()
    ensures AllDigits("5") && DigitsValue("5") == 5
  {
    assert IsDigit("5"[0]);
    assert "5"[..0] == "";
  }

  /** "250.5" is an amount, and `float()` reads it as 250.5. */
  lemma DecimalWithDotIsAmount()
    ensures IsAmountText("250.5") && DecimalValue("250.5") == 250.5
  {
    DigitsOf250();
    DigitsOf5();
    assert "250" + "." + "5" == "250.5";
    DigitsDotDigits("250", "5");
    assert Scaled(250, 5, 1) == 250.5 by {
      assert Pow10(1) == 10 * Pow10(0) == 10;
    }
  }

  /** ".5" is an amount: the digits may all follow the '.'. */
  lemma FractionIsAmount()
    ensures IsAmountText(".5")
  {
    DigitsOf5();
    DigitsDotDigitsIsAmount("", "5");
    assert "" + "." + "5" == ".5";
  }

  /** Sample amounts, read as `float()` reads them. */
  lemma AcceptedAmountExamples()
    ensures IsAmountText("1000") && DecimalValue("1000") == 1000.0
    ensures IsAmountText("250.5") && DecimalValue("250.5") == 250.5
    ensures IsAmountText(".5")
    ensures IsAmountText("0") && DecimalValue("0") == 0.0
  {
    ThousandIsAmount();
    DecimalWithDotIsAmount();
    FractionIsAmount();
    ZeroIsAmount();
  }

  predicate StartsWith(s: string, prefix: string) {
    |prefix| <= |s| && s[..|prefix|] == prefix
  }

  /** `p` occurs in `s` starting at index `i`. */
  predicate OccursAt(s: string, p: string, i: int) {
    0 <= i && i + |p| <= |s| && s[i..i + |p|] == p
  }

  /** `p in s` for strings. */
  ghost predicate Occurs(s: string, p: string) {
    exists i :: OccursAt(s, p, i)
  }

  /** `s.replace(p, "")`: every non-overlapping occurrence of `p`, left to right, is removed. */
  function RemoveAll(s: string, p: string): (r: string)
    requires |p| > 0
    ensures |r| <= |s|
    decreases |s|
  {
    if |s| < |p| then s
    else if s[..|p|] == p then RemoveAll(s[|p|..], p)
    else [s[0]] + RemoveAll(s[1..], p)
  }

  lemma {:induction false} RemoveAllAbsent(s: string, p: string)
    requires |p| > 0 && !Occurs(s, p)
    ensures RemoveAll(s, p) == s
    decreases |s|
  {
    if |s| >= |p| {
      assert !OccursAt(s, p, 0);
      assert s[..|p|] != p;
      forall i | OccursAt(s[1..], p, i) ensures OccursAt(s, p, i + 1) {
        assert s[1..][i..i + |p|] == s[i + 1..i + 1 + |p|];
      }
      RemoveAllAbsent(s[1..], p);
    }
  }

  /** Removing a prefix-occurrence and nothing else: `(p + d).replace(p, "") == d` when `p` is not in `d`. */
  lemma RemoveAllPrefix(d: string, p: string)
    requires |p| > 0 && !Occurs(d, p)
    ensures RemoveAll(p + d, p) == d
  {
    assert (p + d)[..|p|] == p;
    assert (p + d)[|p|..] == d;
    RemoveAllAbsent(d, p);
  }

  /** `sep.join(parts)`. */
  function Join(parts: seq<string>, sep: char): string {
    if |parts| == 0 then ""
    else if |parts| == 1 then parts[0]
    else parts[0] + [sep] + Join(parts[1..], sep)
  }

  /** `s.split(c, 1)`. */
  function SplitOnce(s: string, c: char): (parts: seq<string>)
    ensures 1 <= |parts| <= 2
    ensures |parts| == 2 <==> c in s
    ensures c !in parts[0]
    ensures Join(parts, c) == s
  {
    if c in s then
      var i := IndexOf(s, c);
      assert s[..i] + [c] + s[i + 1..] == s;
      [s[..i], s[i + 1..]]
    else [s]
  }

  /**
    `s.split(" ", 2)`: at most three parts; the first two hold no space, and
    joining them back with " " gives `s`.
  */
  function SplitTwice(s: string): (parts: seq<string>)
    ensures 1 <= |parts| <= 3
    ensures forall i :: 0 <= i < |parts| - 1 ==> ' ' !in parts[i]
    ensures Join(parts, ' ') == s
  {
    var first := SplitOnce(s, ' ');
    if |first| == 1 then
      first
    else
      var rest := SplitOnce(first[1], ' ');
      assert Join([first[0]] + rest, ' ') == first[0] + [' '] + Join(rest, ' ');
      [first[0]] + rest
  }

  /** There are three parts exactly when the text has at least two spaces. */
  lemma SplitTwiceThreeParts(s: string)
    ensures |SplitTwice(s)| == 3 <==> Count(s, ' ') >= 2
  {
    var first := SplitOnce(s, ' ');
    if |first| == 2 {
      CountJoin(first[0], first[1], ' ');
      var rest := SplitOnce(first[1], ' ');
      if |rest| == 2 {
        CountJoin(rest[0], rest[1], ' ');
      }
    }
  }

  lemma CountJoin(a: string, b: string, c: char)
    requires c !in a
    ensures Count(a + [c] + b, c) == 1 + Count(b, c)
  {
    CountSplit(a + [c] + b, |a|);
    assert (a + [c] + b)[..|a|] == a;
    assert (a + [c] + b)[|a| + 1..] == b;
  }

  /** The first occurrence of `c` in `a + [c] + b` is right after `a` when `a` holds no `c`. */
  lemma IndexOfAfter(a: string, b: string, c: char)
    requires c !in a
    ensures c in a + [c] + b && IndexOf(a + [c] + b, c) == |a|
  {
    var s := a + [c] + b;
    assert s[|a|] == c;
    var k := IndexOf(s, c);
    assert forall j :: 0 <= j < |a| ==> s[j] == a[j];
    assert k <= |a| ==> s[..k] == a[..k];
  }

  /** Splitting once at `c` undoes joining two parts when the first holds no `c`. */
  lemma SplitOnceOfJoin(a: string, b: string, c: char)
    requires c !in a
    ensures SplitOnce(a + [c] + b, c) == [a, b]
  {
    var s := a + [c] + b;
    IndexOfAfter(a, b, c);
    assert s[..|a|] == a && s[|a| + 1..] == b;
  }

  /**
    Splitting inverts joining: three parts, the first two free of spaces, come
    back unchanged. A category name with a space cannot be given a limit:
    "/setlimit одяг та взуття 500" splits into "одяг" and "та взуття 500",
    on which `float()` raises, so only the format hint is shown.
  */
  lemma SplitTwiceOfJoin(a: string, b: string, c: string)
    requires ' ' !in a && ' ' !in b
    ensures SplitTwice(a + " " + b + " " + c) == [a, b, c]
  {
    var rest := b + " " + c;
    assert a + " " + b + " " + c == a + [' '] + rest;
    SplitOnceOfJoin(a, rest, ' ');
    assert rest == b + [' '] + c;
    SplitOnceOfJoin(b, c, ' ');
  }
}
