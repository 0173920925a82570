/** Task identifiers: the decimal printer of Task::generateTaskId, and the parser that inverts it. */
module TaskIds {
  import opened Options

  type Id = string

  const PREFIX: string := "task_"
  const WIDTH: nat := 6

  predicate IsDigit(c: char) {
    '0' <= c <= '9'
  }

  predicate AllDigits(s: string) {
    forall i :: 0 <= i < |s| ==> IsDigit(s[i])
  }

  function Digit(d: nat): (c: char)
    requires d < 10
    ensures IsDigit(c) && DigitValue(c) == d
  {
    "0123456789"[d]
  }

  function DigitValue(c: char): (d: nat)
    requires IsDigit(c)
    ensures d < 10
  {
    c as int - '0' as int
  }

  function Decimal(n: nat): (s: string)
    ensures |s| > 0 && AllDigits(s)
  {
    if n < 10 then [Digit(n)] else Decimal(n / 10) + [Digit(n % 10)]
  }

  /** setfill('0') and setw(width): pad on the left, never truncate. */
  function Pad(s: string, width: nat): string
    decreases width - |s|
  {
    if |s| >= width then s else Pad("0" + s, width)
  }

  /** The text printed for a counter value. */
  function GenerateTaskId(n: nat): Id {
    PREFIX + Pad(Decimal(n), WIDTH)
  }

  function Value(s: string): nat
    requires AllDigits(s)
  {
    if s == [] then 0 else 10 * Value(s[..|s| - 1]) + DigitValue(s[|s| - 1])
  }

  predicate IsTaskId(id: Id) {
    && |PREFIX| + WIDTH <= |id|
    && id[..|PREFIX|] == PREFIX
    && AllDigits(id[|PREFIX|..])
    && (|id| == |PREFIX| + WIDTH || id[|PREFIX|] != '0')
  }

  function ParseTaskId(id: Id): Option<nat> {
    if IsTaskId(id) then Some(Value(id[|PREFIX|..])) else None
  }

  lemma {:induction false} DecimalValue(n: nat)
    ensures Value(Decimal(n)) == n
    ensures Decimal(n)[0] == '0' <==> n == 0
  {
    if n < 10 {
      assert Decimal(n)[..0] == [];
    } else {
      DecimalValue(n / 10);
      assert Decimal(n)[..|Decimal(n)| - 1] == Decimal(n / 10);
    }
  }

  lemma {:induction false} LeadingZero(s: string)
    requires AllDigits(s)
    ensures AllDigits("0" + s) && Value("0" + s) == Value(s)
  {
    var z := "0" + s;
    if s == [] {
      assert z[..0] == [];
    } else {
      LeadingZero(s[..|s| - 1]);
      assert z[..|z| - 1] == "0" + s[..|s| - 1];
    }
  }

  lemma {:induction false} PadValue(s: string, width: nat)
    requires AllDigits(s)
    ensures AllDigits(Pad(s, width)) && Value(Pad(s, width)) == Value(s)
    ensures |Pad(s, width)| == if |s| >= width then |s| else width
    ensures |s| >= width ==> Pad(s, width) == s
    decreases width - |s|
  {
    if |s| < width {
      LeadingZero(s);
      PadValue("0" + s, width);
    }
  }

  /** Parsing a printed id gives back the counter, also beyond six digits. */
  lemma RoundTrip(n: nat)
    ensures ParseTaskId(GenerateTaskId(n)) == Some(n)
  {
    DecimalValue(n);
    PadValue(Decimal(n), WIDTH);
    assert GenerateTaskId(n)[|PREFIX|..] == Pad(Decimal(n), WIDTH);
    assert GenerateTaskId(n)[..|PREFIX|] == PREFIX;
    if n == 0 {
      assert |Decimal(n)| == 1;
    }
  }

  lemma {:induction false} ValueDecimal(s: string)
    requires AllDigits(s) && s != [] && (|s| == 1 || s[0] != '0')
    ensures Decimal(Value(s)) == s
  {
    var front := s[..|s| - 1];
    if |s| == 1 {
      assert Value(s) == DigitValue(s[0]);
      assert s == [Digit(Value(s))];
    } else {
      ValueDecimal(front);
      DecimalValue(Value(front));
      assert front[0] == s[0];
      assert Value(s) / 10 == Value(front) && Value(s) % 10 == DigitValue(s[|s| - 1]);
      assert s == front + [s[|s| - 1]];
    }
  }

  lemma {:induction false} PadDecimal(s: string)
    requires AllDigits(s) && s != []
    ensures Pad(Decimal(Value(s)), |s|) == s
  {
    if |s| == 1 || s[0] != '0' {
      ValueDecimal(s);
    } else {
      var rest := s[1..];
      assert s == "0" + rest;
      LeadingZero(rest);
      PadDecimal(rest);
      PadWider(Decimal(Value(rest)), |rest|);
    }
  }

  lemma {:induction false} PadWider(s: string, width: nat)
    requires |Pad(s, width)| == width
    ensures Pad(s, width + 1) == "0" + Pad(s, width)
    decreases width - |s|
  {
    if |s| < width {
      PadWider("0" + s, width);
    } else {
      assert Pad(s, width) == s;
      assert Pad("0" + s, width + 1) == "0" + s;
    }
  }

  /** Every text the parser accepts is the one the printer writes for its value. */
  lemma Canonical(id: Id)
    requires IsTaskId(id)
    ensures GenerateTaskId(ParseTaskId(id).value) == id
  {
    var digits := id[|PREFIX|..];
    assert id == PREFIX + digits;
    if |digits| == WIDTH {
      PadDecimal(digits);
    } else {
      ValueDecimal(digits);
    }
  }

  /** Distinct counter values never share a registry key. */
  lemma Injective(m: nat, n: nat)
    ensures GenerateTaskId(m) == GenerateTaskId(n) <==> m == n
  {
    RoundTrip(m);
    RoundTrip(n);
  }

  /** n without its last i decimal digits. */
  function Drop(n: nat, i: nat): nat
    decreases i
  {
    if i == 0 then n else Drop(n / 10, i - 1)
  }

  function Power(k: nat): nat {
    if k == 0 then 1 else 10 * Power(k - 1)
  }

  lemma {:induction false} DecimalLength(n: nat, k: nat)
    requires k > 0
    ensures |Decimal(n)| <= k <==> n < Power(k)
    decreases k
  {
    if k == 1 {
      assert Power(1) == 10 * Power(0);
    } else if n >= 10 {
      DecimalLength(n / 10, k - 1);
    } else {
      DecimalLength(n, k - 1);
    }
  }

  lemma {:induction false} DecimalDigit(n: nat, i: nat)
    requires i < |Decimal(n)|
    ensures Decimal(n)[|Decimal(n)| - 1 - i] == Digit(Drop(n, i) % 10)
    decreases i
  {
    if i > 0 {
      DecimalDigit(n / 10, i - 1);
    }
  }

  /** Beyond its digits a number has zeros. */
  lemma {:induction false} NothingLeft(n: nat, i: nat)
    requires i >= |Decimal(n)|
    ensures Drop(n, i) == 0
    decreases i
  {
    if n >= 10 {
      NothingLeft(n / 10, i - 1);
    } else if i > 1 {
      NothingLeft(n / 10, i - 1);
    }
  }

  lemma {:induction false} PadDigit(s: string, width: nat, i: nat)
    requires i < |Pad(s, width)|
    ensures |Pad(s, width)| >= |s|
    ensures Pad(s, width)[|Pad(s, width)| - 1 - i] == if i < |s| then s[|s| - 1 - i] else '0'
    decreases width - |s|
  {
    if |s| < width {
      PadDigit("0" + s, width, i);
    }
  }

  lemma IdDigit(n: nat, i: nat)
    requires i < |GenerateTaskId(n)| - |PREFIX|
    ensures GenerateTaskId(n)[|GenerateTaskId(n)| - 1 - i] == "0123456789"[Drop(n, i) % 10]
  {
    var digits := Pad(Decimal(n), WIDTH);
    PadDigit(Decimal(n), WIDTH, i);
    assert GenerateTaskId(n)[|PREFIX| + (|digits| - 1 - i)] == digits[|digits| - 1 - i];
    if i < |Decimal(n)| {
      DecimalDigit(n, i);
    } else {
      NothingLeft(n, i);
    }
  }

  /** The format: "task_" and then the decimal digits of the counter, at least six of them, without further
      zeros in front. */
  lemma Printed(n: nat)
    ensures var id := GenerateTaskId(n);
            && |id| >= 11 && id[..5] == "task_"
            && (forall i: nat :: i < |id| - 5 ==> id[|id| - 1 - i] == "0123456789"[Drop(n, i) % 10])
            && (n < 1_000_000 <==> |id| == 11)
            && (n >= 1_000_000 ==> id[5] != '0')
  {
    hide Drop, Decimal, Value, Power;
    PadValue(Decimal(n), WIDTH);
    DecimalLength(n, 6);
    PowerOfSix();
    DecimalValue(n);
    var id := GenerateTaskId(n);
    forall i: nat | i < |id| - 5
      ensures id[|id| - 1 - i] == "0123456789"[Drop(n, i) % 10]
    {
      IdDigit(n, i);
    }
  }

  lemma PowerOfSix()
    ensures Power(6) == 1_000_000
  {
    assert Power(1) == 10;
    assert Power(2) == 100;
    assert Power(3) == 1_000;
    assert Power(4) == 10_000;
    assert Power(5) == 100_000;
  }
}
