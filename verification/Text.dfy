/** Strings as the controllers use them: Go's string order, decimal printing
    (fmt's %d) and decimal parsing (strconv.Atoi on a 64-bit int). */
module Text {
  import opened Options

  // ---------- Order ----------

  /** Go's `<` on strings: the first differing character decides, a proper prefix comes first. */
  predicate Less(a: string, b: string) {
    b != [] && (a == [] || a[0] < b[0] || (a[0] == b[0] && Less(a[1..], b[1..])))
  }

  lemma {:induction false} LessIrreflexive(a: string)
    ensures !Less(a, a)
  {
    if a != [] { LessIrreflexive(a[1..]); }
  }

  lemma {:induction false} LessTransitive(a: string, b: string, c: string)
    requires Less(a, b) && Less(b, c)
    ensures Less(a, c)
  {
    if a != [] && a[0] == b[0] && b[0] == c[0] { LessTransitive(a[1..], b[1..], c[1..]); }
  }

  lemma {:induction false} LessTotal(a: string, b: string)
    ensures a == b || Less(a, b) || Less(b, a)
  {
    if a != [] && b != [] && a[0] == b[0] {
      LessTotal(a[1..], b[1..]);
      assert a == [a[0]] + a[1..] && b == [b[0]] + b[1..];
    }
  }

  /** At the first difference a ends or has the smaller character. */
  predicate ComesFirst(a: string, b: string) {
    exists k :: 0 <= k <= |a| && k <= |b| && a[..k] == b[..k] &&
                ((k == |a| && k < |b|) || (k < |a| && k < |b| && a[k] < b[k]))
  }

  /** a comes before b exactly if, after a common beginning, a ends first or has the smaller character. */
  lemma {:induction false} LessIs(a: string, b: string)
    ensures Less(a, b) <==>
            exists k :: 0 <= k <= |a| && k <= |b| && a[..k] == b[..k] &&
                        ((k == |a| && k < |b|) || (k < |a| && k < |b| && a[k] < b[k]))
    ensures Less(a, b) <==> ComesFirst(a, b)
  {
    if Less(a, b) {
      var k := FirstDifference(a, b);
      assert a[..k] == b[..k];
    }
    if k :| 0 <= k <= |a| && k <= |b| && a[..k] == b[..k] &&
            ((k == |a| && k < |b|) || (k < |a| && k < |b| && a[k] < b[k])) {
      LessAfter(a, b, k);
    }
  }

  lemma {:induction false} FirstDifference(a: string, b: string) returns (k: nat)
    requires Less(a, b)
    ensures k <= |a| && k <= |b| && a[..k] == b[..k]
    ensures (k == |a| && k < |b|) || (k < |a| && k < |b| && a[k] < b[k])
  {
    if a == [] || a[0] < b[0] {
      k := 0;
    } else {
      var j := FirstDifference(a[1..], b[1..]);
      k := j + 1;
      assert a[..k] == [a[0]] + a[1..][..j] && b[..k] == [b[0]] + b[1..][..j];
    }
  }

  lemma {:induction false} LessAfter(a: string, b: string, k: nat)
    requires k <= |a| && k <= |b| && a[..k] == b[..k]
    requires (k == |a| && k < |b|) || (k < |a| && k < |b| && a[k] < b[k])
    ensures Less(a, b)
    decreases k
  {
    if k > 0 {
      assert a[0] == a[..k][0] == b[..k][0] == b[0];
      assert a[1..][..k - 1] == a[..k][1..] == b[..k][1..] == b[1..][..k - 1];
      LessAfter(a[1..], b[1..], k - 1);
    }
  }

  // ---------- Decimal numbers ----------

  const MAX_INT := 0x7fff_ffff_ffff_ffff

  predicate IsDigit(c: char) { '0' <= c <= '9' }

  predicate AllDigits(s: string) { forall i :: 0 <= i < |s| ==> IsDigit(s[i]) }

  function DigitChar(d: nat): (c: char)
    requires d < 10
  {
    '0' + d as char
  }

  /** fmt.Sprintf("%d", n) for n >= 0. */
  function Itoa(n: nat): (s: string)
    ensures s != [] && AllDigits(s)
  {
    if n < 10 then [DigitChar(n)] else Itoa(n / 10) + [DigitChar(n % 10)]
  }

  /** The number a digit string denotes, leading zeros allowed. */
  function Value(s: string): nat
    requires AllDigits(s)
  {
    if s == [] then 0 else 10 * Value(s[..|s| - 1]) + (s[|s| - 1] - '0') as nat
  }

  /** strconv.Atoi: one optional sign, then decimal digits only, within int64. */
  function Atoi(s: string): Option<int> {
    var signed := s != [] && (s[0] == '-' || s[0] == '+');
    var body := if signed then s[1..] else s;
    if body == [] || !AllDigits(body) then None
    else
      var magnitude: int := Value(body);
      var v := if signed && s[0] == '-' then -magnitude else magnitude;
      if -MAX_INT - 1 <= v <= MAX_INT then Some(v) else None
  }

  lemma {:induction false} ValueOfItoa(n: nat)
    ensures Value(Itoa(n)) == n
  {
    if n >= 10 {
      ValueOfItoa(n / 10);
      var s := Itoa(n);
      assert s[..|s| - 1] == Itoa(n / 10);
    } else {
      assert Itoa(n)[..0] == [];
    }
  }

  /** Parsing what was printed gives the number back exactly when it fits an int64. */
  lemma AtoiOfItoa(n: nat)
    ensures Atoi(Itoa(n)) == (if n <= MAX_INT then Some(n) else None)
  {
    ValueOfItoa(n);
    assert IsDigit(Itoa(n)[0]);
  }

  /** The last digit counts once, the ones before it ten times as much. */
  lemma ValueIs(s: string, c: char)
    requires forall i :: 0 <= i < |s| ==> '0' <= s[i] <= '9'
    requires '0' <= c <= '9'
    ensures Value("") == 0 && Value(s + [c]) == 10 * Value(s) + (c - '0') as int
  {
    assert (s + [c])[..|s|] == s;
  }

  /** %d writes the decimal digits of n, and no leading zero. */
  lemma {:induction false} ItoaIs(n: nat)
    ensures var s := Itoa(n);
            && (forall i :: 0 <= i < |s| ==> '0' <= s[i] <= '9') && Value(s) == n
            && (s[0] == '0' ==> s == "0")
  {
    ValueOfItoa(n);
    if n >= 10 { ItoaIs(n / 10); }
  }

  /** strconv.Atoi accepts exactly an optional sign and then decimal digits, as far as the number fits an int64. */
  lemma AtoiIs(s: string, v: int)
    ensures Atoi(s) == Some(v) <==>
            && -0x8000_0000_0000_0000 <= v < 0x8000_0000_0000_0000
            && exists sign: string, digits: string ::
                 && s == sign + digits && (sign == "" || sign == "+" || sign == "-")
                 && digits != "" && (forall i :: 0 <= i < |digits| ==> '0' <= digits[i] <= '9')
                 && v == (if sign == "-" then -1 else 1) * Value(digits)
  {
    var signed := s != [] && (s[0] == '-' || s[0] == '+');
    var sign, body := if signed then s[..1] else "", if signed then s[1..] else s;
    assert s == sign + body;
    assert signed ==> sign == [s[0]];
    forall sign': string, digits: string
      | s == sign' + digits && (sign' == "" || sign' == "+" || sign' == "-") &&
        digits != "" && forall i :: 0 <= i < |digits| ==> '0' <= digits[i] <= '9'
      ensures sign' == sign && digits == body
    {
      if sign' == "" {
        assert IsDigit(s[0]);
      } else {
        assert s[0] == sign'[0] && s[1..] == digits;
      }
    }
  }
}
