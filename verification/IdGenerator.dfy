// Order-id generation: "{prefix}_{milliseconds}_{counter, at least six digits}".
module IdGenerator {

  const COUNTER_RANGE: nat := 0x1_0000_0000_0000_0000

  function Digit(d: nat): char
    requires d < 10
  {
    '0' + d as char
  }

  function DigitValue(c: char): int { c as int - '0' as int }

  function Digits(n: nat): string {
    if n < 10 then [Digit(n)] else Digits(n / 10) + [Digit(n % 10)]
  }

  function Decimal(n: int): string {
    if n < 0 then "-" + Digits(-n) else Digits(n)
  }

  function Zeros(n: nat): string {
    if n == 0 then "" else "0" + Zeros(n - 1)
  }

  function Pad6(s: string): string {
    if |s| < 6 then Zeros(6 - |s|) + s else s
  }

  function Id(prefix: string, clock: int, counter: nat): string {
    prefix + "_" + Decimal(clock) + "_" + Pad6(Digits(counter))
  }

  // The shape of an id ------------------------------------------------------

  function Power10(k: nat): nat { if k == 0 then 1 else 10 * Power10(k - 1) }

  lemma {:induction false} DigitsLength(n: nat, k: nat)
    requires k > 0
    ensures |Digits(n)| <= k <==> n < Power10(k)
    decreases k
  {
    if k == 1 {
      assert Power10(1) == 10 * Power10(0);
    } else if n >= 10 {
      DigitsLength(n / 10, k - 1);
    } else {
      PowerGrows(k);
    }
  }

  lemma {:induction false} PowerGrows(k: nat)
    requires k > 0
    ensures Power10(k) >= 10
  {
    if k > 1 { PowerGrows(k - 1); }
  }

  /** The counter is padded to six digits as long as it is below a million, and not at all from there on. */
  lemma CounterWidth(counter: nat)
    ensures counter < 1000000 ==> |Pad6(Digits(counter))| == 6
    ensures counter >= 1000000 ==> Pad6(Digits(counter)) == Digits(counter)
  {
    assert Power10(6) == 1000000 by {
      assert Power10(3) == 10 * Power10(2) == 100 * Power10(1) == 1000;
      assert Power10(6) == 10 * Power10(5) == 100 * Power10(4) == 1000 * Power10(3);
    }
    DigitsLength(counter, 6);
    ZerosLength(6 - if |Digits(counter)| < 6 then |Digits(counter)| else 6);
  }

  lemma {:induction false} ZerosLength(n: nat)
    ensures |Zeros(n)| == n
  {
    if n > 0 { ZerosLength(n - 1); }
  }

  // Reading the counter back ------------------------------------------------

  function Value(s: string): int {
    if s == "" then 0 else 10 * Value(s[..|s| - 1]) + DigitValue(s[|s| - 1])
  }

  function AfterLastUnderscore(s: string): string {
    if s == "" || s[|s| - 1] == '_' then ""
    else AfterLastUnderscore(s[..|s| - 1]) + [s[|s| - 1]]
  }

  function CounterOf(id: string): int { Value(AfterLastUnderscore(id)) }

  lemma {:induction false} DigitsRead(n: nat)
    ensures Value(Digits(n)) == n && '_' !in Digits(n) && '-' !in Digits(n) && Digits(n) != ""
  {
    if n < 10 {
      assert [Digit(n)][..0] == "";
      assert Value([Digit(n)]) == 10 * Value("") + DigitValue(Digit(n));
    } else {
      DigitsRead(n / 10);
      assert Digits(n)[..|Digits(n)| - 1] == Digits(n / 10);
    }
  }

  lemma {:induction false} ZerosRead(n: nat, s: string)
    ensures Value(Zeros(n) + s) == Value(s) && '_' !in Zeros(n)
    decreases |s|, n
  {
    if s != "" {
      assert (Zeros(n) + s)[..|Zeros(n) + s| - 1] == Zeros(n) + s[..|s| - 1];
      ZerosRead(n, s[..|s| - 1]);
    } else if n > 0 {
      ZerosSnoc(n - 1);
      assert (Zeros(n) + s)[..|Zeros(n) + s| - 1] == Zeros(n - 1) + "";
      ZerosRead(n - 1, "");
    }
  }

  lemma {:induction false} ZerosSnoc(n: nat)
    ensures Zeros(n + 1) == Zeros(n) + "0"
  {
    if n > 0 { ZerosSnoc(n - 1); }
  }

  lemma {:induction false} AfterLastOfSuffix(a: string, b: string)
    requires '_' !in b
    ensures AfterLastUnderscore(a + "_" + b) == b
  {
    var s := a + "_" + b;
    if b == "" {
      assert s[|s| - 1] == '_';
    } else {
      var b0 := b[..|b| - 1];
      assert s[..|s| - 1] == a + "_" + b0;
      AfterLastOfSuffix(a, b0);
      assert b == b0 + [b[|b| - 1]];
    }
  }

  lemma CounterPart(counter: nat)
    ensures Value(Pad6(Digits(counter))) == counter && '_' !in Pad6(Digits(counter))
  {
    DigitsRead(counter);
    if |Digits(counter)| < 6 { ZerosRead(6 - |Digits(counter)|, Digits(counter)); }
  }

  /** The counter can be read back from an id whatever the prefix and the clock were. */
  lemma CounterRead(prefix: string, clock: int, counter: nat)
    ensures CounterOf(Id(prefix, clock, counter)) == counter
  {
    CounterPart(counter);
    AfterLastOfSuffix(prefix + "_" + Decimal(clock), Pad6(Digits(counter)));
  }

  lemma DecimalRead(n: int)
    ensures n == if '-' in Decimal(n) then -Value(Decimal(n)[1..]) else Value(Decimal(n))
  {
    DigitsRead(if n < 0 then -n else n);
    if n < 0 { assert Decimal(n)[0] == '-' && Decimal(n)[1..] == Digits(-n); }
  }

  /** An id is the prefix, the clock in decimal, and the counter in at least six decimal digits, between underscores. */
  lemma IdShape(prefix: string, clock: int, counter: nat) returns (time: string, number: string)
    ensures Id(prefix, clock, counter) == prefix + "_" + time + "_" + number
    ensures clock == if '-' in time then -Value(time[1..]) else Value(time)
    ensures counter == Value(number) && |number| >= 6 && '_' !in number
    ensures counter < 1000000 ==> |number| == 6
  {
    time, number := Decimal(clock), Pad6(Digits(counter));
    DecimalRead(clock);
    CounterPart(counter);
    CounterWidth(counter);
    if counter >= 1000000 { DigitsLength(counter, 5); assert Power10(5) <= 1000000 by { assert Power10(5) == 10 * Power10(4) == 100 * Power10(3) == 1000 * Power10(2) == 100000; } }
  }

  lemma MiddleOf(front: string, back: string, mid1: string, mid2: string)
    requires front + mid1 + back == front + mid2 + back
    ensures mid1 == mid2
  {
    var whole := front + mid1 + back;
    assert |mid1| == |mid2|;
    assert mid1 == whole[|front|..|front| + |mid1|];
    assert mid2 == whole[|front|..|front| + |mid2|];
  }

  /** Formatting loses nothing: two ids of one prefix coincide only for equal readings and counters. */
  lemma IdInjective(prefix: string, clock1: int, counter1: nat, clock2: int, counter2: nat)
    ensures Id(prefix, clock1, counter1) == Id(prefix, clock2, counter2) <==> clock1 == clock2 && counter1 == counter2
  {
    if Id(prefix, clock1, counter1) == Id(prefix, clock2, counter2) {
      CounterRead(prefix, clock1, counter1);
      CounterRead(prefix, clock2, counter2);
      EqualTails(prefix, clock1, clock2, Pad6(Digits(counter1)));
    }
  }

  lemma EqualTails(prefix: string, clock1: int, clock2: int, tail: string)
    requires prefix + "_" + Decimal(clock1) + "_" + tail == prefix + "_" + Decimal(clock2) + "_" + tail
    ensures clock1 == clock2
  {
    hide Decimal;
    var front := prefix + "_";
    assert front + Decimal(clock1) + ("_" + tail) == front + Decimal(clock1) + "_" + tail;
    assert front + Decimal(clock2) + ("_" + tail) == front + Decimal(clock2) + "_" + tail;
    MiddleOf(front, "_" + tail, Decimal(clock1), Decimal(clock2));
    DecimalRead(clock1);
    DecimalRead(clock2);
  }

  /** The id that the (calls+1)-th call produces; the counter is a 64-bit unsigned integer. */
  function NthId(prefix: string, clock: int, calls: nat): string {
    Id(prefix, clock, calls % COUNTER_RANGE)
  }

  lemma NthIdCounter(prefix: string, clock: int, calls: nat)
    ensures CounterOf(NthId(prefix, clock, calls)) == calls % COUNTER_RANGE <= calls
    ensures calls < COUNTER_RANGE ==> CounterOf(NthId(prefix, clock, calls)) == calls
  {
    hide Id, CounterOf;
    CounterRead(prefix, clock, calls % COUNTER_RANGE);
  }

  /** Exactly which two calls of one generator can collide. */
  lemma GeneratedIdsCollide(prefix: string, clock1: int, call1: nat, clock2: int, call2: nat)
    ensures NthId(prefix, clock1, call1) == NthId(prefix, clock2, call2)
       <==> clock1 == clock2 && call1 % COUNTER_RANGE == call2 % COUNTER_RANGE
  {
    IdInjective(prefix, clock1, call1 % COUNTER_RANGE, clock2, call2 % COUNTER_RANGE);
  }

  class OrderIdGenerator {
    const prefix: string
    var counter: nat
    ghost var calls: nat

    ghost predicate Valid()
      reads this
    {
      counter == calls % COUNTER_RANGE
    }

    constructor (prefix: string)
      ensures Valid() && calls == 0 && this.prefix == prefix
    {
      this.prefix := prefix;
      counter := 0;
      calls := 0;
    }

    method Generate(clock: int) returns (id: string)
      requires Valid()
      modifies this
      ensures Valid() && calls == old(calls) + 1
      ensures id == NthId(prefix, clock, old(calls))
    {
      id := Id(prefix, clock, counter);
      counter := if counter + 1 == COUNTER_RANGE then 0 else counter + 1;
      calls := calls + 1;
    }
  }
}
