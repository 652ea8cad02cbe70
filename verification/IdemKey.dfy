/** The idempotency key of one invocation (internal/idempotency/key.go). */
module IdemKey {

  function Digit(d: nat): (c: char)
    requires d < 10
    ensures c != ':' && c != '-'
  {
    ['0', '1', '2', '3', '4', '5', '6', '7', '8', '9'][d]
  }

  function Digits(n: nat): string {
    if n < 10 then [Digit(n)] else Digits(n / 10) + [Digit(n % 10)]
  }

  /** %d */
  function Decimal(n: int): string {
    if n < 0 then "-" + Digits(-n) else Digits(n)
  }

  function Colon(a: string, x: string): string {
    a + ":" + x
  }

  /** idem:{run_id}:{step}:{tool_use_id} */
  function Key(runId: string, step: int, toolUseId: string): string {
    Colon("idem", Colon(runId, Colon(Decimal(step), toolUseId)))
  }

  lemma DigitInjective(a: nat, b: nat)
    requires a < 10 && b < 10 && Digit(a) == Digit(b)
    ensures a == b
  {
  }

  lemma {:induction false} DigitsPlain(n: nat)
    ensures |Digits(n)| > 0 && ':' !in Digits(n) && '-' !in Digits(n)
  {
    if n >= 10 { DigitsPlain(n / 10); }
  }

  lemma {:induction false} DigitsInjective(m: nat, n: nat)
    requires Digits(m) == Digits(n)
    ensures m == n
  {
    DigitsPlain(m / 10);
    DigitsPlain(n / 10);
    if m < 10 && n < 10 {
      DigitInjective(m, n);
    } else {
      var k := |Digits(m)| - 1;
      assert Digits(m)[k] == Digits(n)[k];
      assert m >= 10 && n >= 10;
      DigitInjective(m % 10, n % 10);
      assert Digits(m)[..k] == Digits(m / 10) && Digits(n)[..k] == Digits(n / 10);
      DigitsInjective(m / 10, n / 10);
    }
  }

  lemma DecimalSign(n: int)
    ensures |Decimal(n)| > 0 && (Decimal(n)[0] == '-' <==> n < 0)
  {
    if n >= 0 {
      DigitsPlain(n);
      assert Decimal(n)[0] in Digits(n);
    }
  }

  lemma DecimalInjective(m: int, n: int)
    requires Decimal(m) == Decimal(n)
    ensures m == n
  {
    DecimalSign(m);
    DecimalSign(n);
    if m < 0 {
      assert Decimal(m)[1..] == Digits(-m) && Decimal(n)[1..] == Digits(-n);
      DigitsInjective(-m, -n);
    } else {
      DigitsInjective(m, n);
    }
  }

  /** What a reader makes of decimal digits. */
  function ReadDigits(s: string): int {
    if s == "" then 0 else 10 * ReadDigits(s[..|s| - 1]) + (s[|s| - 1] as int - '0' as int)
  }

  lemma DigitReads(d: nat)
    requires d < 10
    ensures ReadDigits([Digit(d)]) == d
  {
    assert [Digit(d)][..0] == "";
  }

  /** Step numbers are written in decimal: read back, they are what they were. */
  lemma {:induction false} DigitsRead(n: nat)
    ensures ReadDigits(Digits(n)) == n
  {
    if n < 10 {
      DigitReads(n);
    } else {
      DigitsRead(n / 10);
      DigitReads(n % 10);
      assert Digits(n)[..|Digits(n)| - 1] == Digits(n / 10) && Digits(n)[|Digits(n)| - 1] == Digit(n % 10);
    }
  }

  lemma DecimalPlain(n: int)
    ensures ':' !in Decimal(n)
  {
    DigitsPlain(if n < 0 then -n else n);
  }

  function FirstColon(s: string): nat {
    if s == "" || s[0] == ':' then 0 else 1 + FirstColon(s[1..])
  }

  lemma {:induction false} FirstColonAt(a: string, x: string)
    requires ':' !in a
    ensures FirstColon(Colon(a, x)) == |a|
  {
    if a != "" {
      assert Colon(a, x)[1..] == Colon(a[1..], x);
      FirstColonAt(a[1..], x);
    }
  }

  /** The text before the first separator, and the text after it, are determined by the whole. */
  lemma SplitAtColon(a: string, x: string, b: string, y: string)
    requires ':' !in a && ':' !in b && Colon(a, x) == Colon(b, y)
    ensures a == b && x == y
  {
    FirstColonAt(a, x);
    FirstColonAt(b, y);
    assert Colon(a, x)[..|a|] == a && Colon(b, y)[..|b|] == b;
    assert Colon(a, x)[|a| + 1..] == x && Colon(b, y)[|b| + 1..] == y;
  }

  /** Run ids without ':' (UUIDs are) never share a key with another invocation. */
  lemma KeyInjective(r1: string, s1: int, t1: string, r2: string, s2: int, t2: string)
    requires ':' !in r1 && ':' !in r2
    requires Key(r1, s1, t1) == Key(r2, s2, t2)
    ensures r1 == r2 && s1 == s2 && t1 == t2
  {
    SplitAtColon("idem", Colon(r1, Colon(Decimal(s1), t1)), "idem", Colon(r2, Colon(Decimal(s2), t2)));
    SplitAtColon(r1, Colon(Decimal(s1), t1), r2, Colon(Decimal(s2), t2));
    DecimalPlain(s1);
    DecimalPlain(s2);
    SplitAtColon(Decimal(s1), t1, Decimal(s2), t2);
    DecimalInjective(s1, s2);
  }

  /** A run id containing ':' can collide, so the condition cannot be dropped. */
  lemma ColonCollides(r: string, s1: int, s2: int, t: string)
    ensures Key(Colon(r, Decimal(s1)), s2, t) == Key(r, s1, Colon(Decimal(s2), t))
  {
    assert Colon(Colon(r, Decimal(s1)), Colon(Decimal(s2), t)) == Colon(r, Colon(Decimal(s1), Colon(Decimal(s2), t)));
  }

  /** The key as it is spelled. */
  lemma KeySpelled(runId: string, step: nat, toolUseId: string) returns (number: string)
    ensures Key(runId, step, toolUseId) == "idem:" + runId + ":" + number + ":" + toolUseId && ReadDigits(number) == step
  {
    number := Decimal(step);
    DigitsRead(step);
    assert Key(runId, step, toolUseId) == "idem" + ":" + (runId + ":" + (number + ":" + toolUseId));
    assert "idem" + ":" == "idem:";
  }
}
