/** The string operations of the server's Java and the client's C++ that both ends rely on. */
module Text {
  import opened Wrappers

  /** pat occurs in s at position i. */
  predicate Occurs(s: string, pat: string, i: nat) {
    i + |pat| <= |s| && s[i..i + |pat|] == pat
  }

  /** The first occurrence of pat at or after i, as find and indexOf report it. */
  function FindFrom(s: string, pat: string, i: nat): (r: Option<nat>)
    ensures r.Some? ==> i <= r.value && Occurs(s, pat, r.value) && forall j :: i <= j < r.value ==> !Occurs(s, pat, j)
    ensures r.None? ==> forall j :: i <= j ==> !Occurs(s, pat, j)
    decreases |s| - i
  {
    if i + |pat| > |s| then None else if Occurs(s, pat, i) then Some(i) else FindFrom(s, pat, i + 1)
  }

  function Find(s: string, pat: string): Option<nat> {
    FindFrom(s, pat, 0)
  }

  predicate Free(s: string, pat: string) {
    Find(s, pat) == None
  }

  /** No occurrence of pat can begin in x and go on past its end. */
  predicate Breaks(x: string, pat: string) {
    pat != "" && (x == "" || x[|x| - 1] !in pat[..|pat| - 1])
  }

  lemma BreakSplits(x: string, y: string, pat: string, j: nat)
    requires Breaks(x, pat)
    ensures Occurs(x + y, pat, j) <==> Occurs(x, pat, j) || (j >= |x| && Occurs(y, pat, j - |x|))
  {
    var s := x + y;
    if j + |pat| <= |x| {
      assert s[j..j + |pat|] == x[j..j + |pat|];
    } else if j >= |x| {
      if j + |pat| <= |s| {
        assert s[j..j + |pat|] == y[j - |x|..j - |x| + |pat|];
      }
    } else if j + |pat| <= |s| {
      var last := |x| - 1;
      assert s[last] == x[last];
      assert s[j..j + |pat|][last - j] == s[last];
      assert pat[..|pat| - 1][last - j] == pat[last - j];
    }
  }

  /** A marker right after a break is found there exactly if nothing before has it. */
  lemma FindAtBreak(x: string, pat: string, y: string)
    requires Breaks(x, pat)
    ensures Find(x + pat + y, pat) == Some(|x|) <==> Free(x, pat)
  {
    assert x + pat + y == x + (pat + y);
    forall j: nat
      ensures Occurs(x + (pat + y), pat, j) <==> Occurs(x, pat, j) || (j >= |x| && Occurs(pat + y, pat, j - |x|))
    {
      BreakSplits(x, pat + y, pat, j);
    }
    assert Occurs(pat + y, pat, 0);
    assert Occurs(x + (pat + y), pat, |x|);
  }

  /** Two texts with a break between them are free of a marker exactly if each is. */
  lemma FreeTogether(x: string, y: string, pat: string)
    requires Breaks(x, pat)
    ensures Free(x + y, pat) <==> Free(x, pat) && Free(y, pat)
  {
    forall j: nat ensures Occurs(x + y, pat, j) <==> Occurs(x, pat, j) || (j >= |x| && Occurs(y, pat, j - |x|)) {
      BreakSplits(x, y, pat, j);
    }
    if !Free(y, pat) {
      assert Occurs(x + y, pat, |x| + Find(y, pat).value);
    }
  }

  /** A character that the marker does not have makes no difference at the end of a text. */
  lemma FreeThen(x: string, c: char, pat: string)
    requires c !in pat && pat != ""
    ensures Free(x + [c], pat) <==> Free(x, pat)
  {
    forall j: nat ensures Occurs(x + [c], pat, j) <==> Occurs(x, pat, j) {
      if j + |pat| <= |x| {
        assert (x + [c])[j..j + |pat|] == x[j..j + |pat|];
      } else if j + |pat| == |x| + 1 {
        assert (x + [c])[j..j + |pat|][|pat| - 1] == c;
      }
    }
  }

  /** Nor does a margin without the marker's first character. */
  lemma FreePad(pad: string, y: string, pat: string)
    requires pat != "" && pat[0] !in pad
    ensures Free(pad + y, pat) <==> Free(y, pat)
  {
    forall j: nat ensures Occurs(pad + y, pat, j) <==> j >= |pad| && Occurs(y, pat, j - |pad|) {
      if j + |pat| <= |pad + y| {
        if j < |pad| {
          assert (pad + y)[j..j + |pat|][0] == pad[j];
        } else {
          assert (pad + y)[j..j + |pat|] == y[j - |pad|..j - |pad| + |pat|];
        }
      }
    }
    if !Free(y, pat) {
      assert Occurs(pad + y, pat, |pad| + Find(y, pat).value);
    }
  }

  /** One character is found at its first place. */
  lemma FindChar(x: string, c: char, y: string)
    requires c !in x
    ensures Find(x + [c] + y, [c]) == Some(|x|)
  {
    var s := x + [c] + y;
    assert Occurs(s, [c], |x|);
    forall j | 0 <= j < |x| ensures !Occurs(s, [c], j) {
      assert s[j] == x[j] && s[j..j + 1][0] == s[j];
    }
  }

  lemma FreeChar(s: string, c: char)
    ensures Free(s, [c]) <==> c !in s
  {
    if c in s {
      var i :| 0 <= i < |s| && s[i] == c;
      assert Occurs(s, [c], i);
    } else {
      forall j: nat ensures !Occurs(s, [c], j) {
        if j < |s| {
          assert s[j..j + 1][0] == s[j];
        }
      }
    }
  }

  /** A text without one of the characters of a marker is free of the marker. */
  lemma FreeWithout(s: string, pat: string, c: char)
    requires c in pat && c !in s
    ensures Free(s, pat)
  {
    var i :| 0 <= i < |pat| && pat[i] == c;
    forall j: nat ensures !Occurs(s, pat, j) {
      if j + |pat| <= |s| {
        assert s[j..j + |pat|][i] == s[j + i];
      }
    }
  }

  /** isspace in the classic locale. */
  predicate IsSpace(c: char) {
    c == ' ' || c == '\t' || c == '\n' || c == '\r' || c == '\U{0B}' || c == '\U{0C}'
  }

  function TrimLeft(s: string): (r: string)
    ensures |r| <= |s|
    ensures s != "" && IsSpace(s[0]) ==> |r| < |s|
  {
    if s != "" && IsSpace(s[0]) then TrimLeft(s[1..]) else s
  }

  function TrimRight(s: string): (r: string)
    ensures |r| <= |s|
  {
    if s != "" && IsSpace(s[|s| - 1]) then TrimRight(s[..|s| - 1]) else s
  }

  function Trim(s: string): (r: string)
    ensures |r| <= |s|
    ensures s != "" && IsSpace(s[0]) ==> |r| < |s|
  {
    TrimRight(TrimLeft(s))
  }

  lemma {:induction false} TrimLeftIsPart(s: string)
    ensures forall c :: c in TrimLeft(s) ==> c in s
  {
    if s == "" || !IsSpace(s[0]) {
    } else {
      TrimLeftIsPart(s[1..]);
    }
  }

  lemma {:induction false} TrimRightIsPart(s: string)
    ensures forall c :: c in TrimRight(s) ==> c in s
  {
    if s == "" || !IsSpace(s[|s| - 1]) {
    } else {
      TrimRightIsPart(s[..|s| - 1]);
    }
  }

  predicate AllSpace(s: string) {
    forall c :: c in s ==> IsSpace(c)
  }

  /** White space in front makes no difference to what is left of a text. */
  lemma {:induction false} TrimLeftOver(pad: string, s: string)
    requires AllSpace(pad)
    ensures TrimLeft(pad + s) == TrimLeft(s)
  {
    if pad == "" {
      assert pad + s == s;
    } else {
      assert (pad + s)[1..] == pad[1..] + s;
      TrimLeftOver(pad[1..], s);
    }
  }

  lemma {:induction false} TrimRightOver(s: string, pad: string)
    requires AllSpace(pad)
    ensures TrimRight(s + pad) == TrimRight(s)
  {
    if pad == "" {
      assert s + pad == s;
    } else {
      assert (s + pad)[..|s + pad| - 1] == s + pad[..|pad| - 1];
      TrimRightOver(s, pad[..|pad| - 1]);
    }
  }

  /** Trimming stops at the first character that is not white space, and then takes nothing off. */
  lemma {:induction false} TrimLeftKeeps(a: string, b: string)
    requires !AllSpace(a)
    ensures TrimLeft(a) != "" && TrimLeft(a + b) == TrimLeft(a) + b && !AllSpace(TrimLeft(a))
    ensures TrimLeft(TrimLeft(a)) == TrimLeft(a) && !IsSpace(TrimLeft(a)[0])
  {
    assert a == [a[0]] + a[1..];
    if IsSpace(a[0]) {
      assert (a + b)[1..] == a[1..] + b;
      TrimLeftKeeps(a[1..], b);
    }
  }

  lemma {:induction false} TrimRightKeeps(a: string, b: string)
    requires !AllSpace(b)
    ensures TrimRight(b) != "" && TrimRight(a + b) == a + TrimRight(b) && !AllSpace(TrimRight(b))
    ensures TrimRight(TrimRight(b)) == TrimRight(b)
    decreases b
  {
    var last := |b| - 1;
    assert b == b[..last] + [b[last]];
    if IsSpace(b[last]) {
      assert (a + b)[..|a + b| - 1] == a + b[..last];
      TrimRightKeeps(a, b[..last]);
    }
  }

  lemma {:induction false} TrimSpace(s: string)
    requires AllSpace(s)
    ensures TrimLeft(s) == "" && Trim(s) == ""
  {
    if s == "" {
    } else {
      TrimSpace(s[1..]);
    }
  }

  lemma {:induction false} LeftPad(s: string) returns (pad: string)
    ensures AllSpace(pad) && s == pad + TrimLeft(s) && (TrimLeft(s) != "" ==> !IsSpace(TrimLeft(s)[0]))
  {
    if s == "" || !IsSpace(s[0]) {
      pad := "";
    } else {
      var more := LeftPad(s[1..]);
      pad := [s[0]] + more;
      assert s == [s[0]] + s[1..];
    }
  }

  lemma {:induction false} RightPad(s: string) returns (pad: string)
    ensures AllSpace(pad) && s == TrimRight(s) + pad
    ensures TrimRight(s) != "" ==> !IsSpace(TrimRight(s)[|TrimRight(s)| - 1]) && TrimRight(s)[0] == s[0]
    decreases |s|
  {
    if s == "" || !IsSpace(s[|s| - 1]) {
      pad := "";
    } else {
      var less := RightPad(s[..|s| - 1]);
      pad := less + [s[|s| - 1]];
      assert s == s[..|s| - 1] + [s[|s| - 1]];
    }
  }

  /** Trimming takes off white space at both ends, and all of it. */
  lemma TrimMeans(s: string) returns (left: string, right: string)
    ensures AllSpace(left) && AllSpace(right) && s == left + Trim(s) + right
    ensures Trim(s) != "" ==> !IsSpace(Trim(s)[0]) && !IsSpace(Trim(s)[|Trim(s)| - 1])
  {
    hide TrimLeft;
    hide TrimRight;
    left := LeftPad(s);
    right := RightPad(TrimLeft(s));
    assert left + (Trim(s) + right) == left + Trim(s) + right;
  }

  function Digit(n: nat): char
    requires n < 10
  {
    '0' + n as char
  }

  predicate IsDigit(c: char) { '0' <= c <= '9' }

  /** The decimal form of a number, as String.valueOf and to_string print it. */
  function Dec(n: nat): (r: string)
    ensures r != "" && forall c :: c in r ==> IsDigit(c)
  {
    if n < 10 then [Digit(n)] else Dec(n / 10) + [Digit(n % 10)]
  }

  /** The leading digits of a text. */
  function Digits(s: string): string {
    if s != "" && IsDigit(s[0]) then [s[0]] + Digits(s[1..]) else ""
  }

  function Value(digits: string): int {
    if digits == "" then 0
    else Value(digits[..|digits| - 1]) * 10 + (digits[|digits| - 1] as int - '0' as int)
  }

  lemma {:induction false} DigitsOf(s: string)
    ensures forall c :: c in Digits(s) ==> IsDigit(c)
    ensures (forall c :: c in s ==> IsDigit(c)) ==> Digits(s) == s
  {
    if s == "" {
    } else {
      DigitsOf(s[1..]);
    }
  }

  /** stoi: white space, an optional sign, and at least one digit; anything after is ignored. */
  function Stoi(s: string): Option<int> {
    var t := TrimLeft(s);
    var u := if t != "" && (t[0] == '-' || t[0] == '+') then t[1..] else t;
    var d := Digits(u);
    if d == "" then None else Some(if t[0] == '-' then -Value(d) else Value(d))
  }

  lemma {:induction false} ValueOfDec(n: nat)
    ensures Value(Dec(n)) == n
  {
    if n < 10 {
      assert Value(Dec(n)[..0]) == 0;
    } else {
      assert Dec(n)[..|Dec(n)| - 1] == Dec(n / 10);
      ValueOfDec(n / 10);
    }
  }

  lemma StoiOfDec(n: nat)
    ensures Stoi(Dec(n)) == Some(n)
  {
    DigitsOf(Dec(n));
    ValueOfDec(n);
    assert Dec(n)[0] in Dec(n);
  }

  /** Digits without a leading zero. */
  predicate Bare(digits: string) {
    digits != "" && (forall c :: c in digits ==> IsDigit(c)) && (digits[0] == '0' ==> digits == "0")
  }

  /** The decimal notation of n: its digits, without leading zeros, behind a minus sign if it is negative. */
  predicate Decimal(s: string, n: int) {
    Stoi(s) == Some(n) && if n < 0 then s != "" && s[0] == '-' && Bare(s[1..]) else Bare(s)
  }

  lemma {:induction false} ValueIsNatural(d: string)
    requires forall c :: c in d ==> IsDigit(c)
    ensures Value(d) >= 0 && (d != "" && d[0] != '0' ==> Value(d) >= 1)
    decreases |d|
  {
    if d == "" {
    } else {
      var most := d[..|d| - 1];
      assert forall c :: c in most ==> c in d;
      assert d[|d| - 1] in d;
      ValueIsNatural(most);
      assert most != "" ==> most[0] == d[0];
      assert most == "" ==> d[|d| - 1] == d[0];
    }
  }

  lemma DecOfMore(v: nat, last: nat)
    requires v >= 1 && last < 10
    ensures Dec(v * 10 + last) == Dec(v) + [Digit(last)]
  {
    assert (v * 10 + last) / 10 == v && (v * 10 + last) % 10 == last;
  }

  lemma ValueOfMore(most: string, last: nat)
    requires last < 10
    ensures Value(most + [Digit(last)]) == Value(most) * 10 + last
  {
    assert (most + [Digit(last)])[..|most|] == most;
  }

  lemma DigitsSplit(d: string) returns (most: string, last: nat)
    requires Bare(d)
    ensures last < 10 && d == most + [Digit(last)] && |most| < |d| && (|d| > 1 ==> Bare(most) && most[0] != '0')
    ensures most == "" ==> |d| == 1
  {
    most := d[..|d| - 1];
    assert d[|d| - 1] in d && d == most + [d[|d| - 1]];
    last := d[|d| - 1] as int - '0' as int;
    assert forall c :: c in most ==> c in d;
  }

  /** Only one text without leading zeros has a given value. */
  lemma {:induction false} PlainIsDec(d: string)
    requires Bare(d)
    ensures Value(d) >= 0 && d == Dec(Value(d))
    decreases |d|
  {
    hide *;
    var most, last := DigitsSplit(d);
    ValueOfMore(most, last);
    OneDigit(last);
    if most != "" {
      PlainIsDec(most);
      PlainIsPositive(most);
      DecOfMore(Value(most), last);
    } else {
      assert most + [Digit(last)] == [Digit(last)];
    }
  }

  lemma PlainIsPositive(d: string)
    requires Bare(d) && d[0] != '0'
    ensures Value(d) >= 1
  {
    ValueIsNatural(d);
  }

  lemma OneDigit(l: nat)
    requires l < 10
    ensures Dec(l) == [Digit(l)] && Value("") == 0
  {
  }

  /** stoi reads all of such a text, and the sign before it. */
  lemma StoiOfPlain(d: string)
    requires Bare(d)
    ensures Stoi(d) == Some(Value(d)) && Stoi("-" + d) == Some(-Value(d))
  {
    hide Value;
    DigitsOf(d);
    assert d[0] in d;
    assert ("-" + d)[1..] == d;
  }

  lemma {:induction false} DecIsPlain(n: nat)
    ensures Bare(Dec(n)) && (n > 0 ==> Dec(n)[0] != '0')
  {
    if n < 10 {
    } else {
      DecIsPlain(n / 10);
      assert Dec(n) == Dec(n / 10) + [Digit(n % 10)];
    }
  }

  /** Printed numbers are equal only if the numbers are. */
  lemma DecInjective(m: nat, n: nat)
    requires Dec(m) == Dec(n)
    ensures m == n
  {
    ValueOfDec(m);
    ValueOfDec(n);
  }
}
