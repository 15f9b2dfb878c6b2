/** The local math tool: its loops, proved against what they are meant to compute, and its plain
    operations. Integers are exact; where the machine's arithmetic rounds, its results are those of
    a parameter, the host. */
module MathCompute {
  import opened Common

  datatype Operation =
    | Add | Subtract | Multiply | Divide | Modulo | Power | Root
    | FactorialOp | FibonacciOp | IsPrimeOp | GcdOp | Unknown(name: string)

  /** A finite operand: an integer, negative zero, or a value strictly between `below` and the next
      integer; `which` tells those apart. */
  datatype Operand = Whole(v: int) | NegZero | Fraction(below: int, which: nat)

  function Floor(o: Operand): int {
    match o case Whole(v) => v case NegZero => 0 case Fraction(below, _) => below
  }

  /** A result; negative zero is a value of its own. */
  datatype Num = Int(v: int) | MinusZero | Frac(below: int, which: nat) | Infinite(negative: bool) | NotANumber

  /** The machine: its operations on operands of which one is not an integer, its division, power
      and square root, and how it prints a fraction. */
  datatype Host = Host(plain: (Operation, Num, Num) -> Num, root: Num -> Num, fraction: (int, nat) -> string)

  predicate IsExact(n: Num) { n.Int? || n.MinusZero? }

  predicate IsZero(n: Num) { n == Int(0) || n == MinusZero }

  function Value(n: Num): int { if n.Int? then n.v else 0 }

  predicate Negative(n: Num) {
    match n
    case Int(v) => v < 0
    case MinusZero => true
    case Frac(below, _) => below < 0
    case Infinite(negative) => negative
    case NotANumber => false
  }

  function Abs(x: int): nat { if x < 0 then -x else x }

  function JsAdd(x: Num, y: Num): Num {
    if x.MinusZero? && y.MinusZero? then MinusZero else Int(Value(x) + Value(y))
  }

  function JsSub(x: Num, y: Num): Num {
    if x.MinusZero? && y == Int(0) then MinusZero else Int(Value(x) - Value(y))
  }

  function JsMul(x: Num, y: Num): Num {
    var product := Value(x) * Value(y);
    if product == 0 && Negative(x) != Negative(y) then MinusZero else Int(product)
  }

  /** The remainder takes the sign of the dividend. */
  function JsRem(x: Num, y: Num): Num
    requires Value(y) != 0
  {
    Signed(Negative(x), Abs(Value(x)) % Abs(Value(y)))
  }

  function Signed(negative: bool, m: int): Num {
    if !negative then Int(m) else if m == 0 then MinusZero else Int(-m)
  }

  function Digit(d: nat): char
    requires d < 10
  {
    "0123456789"[d]
  }

  function Decimal(n: int): string
    decreases n < 0, Abs(n)
  {
    if n < 0 then "-" + Decimal(-n)
    else if n < 10 then [Digit(n)]
    else Decimal(n / 10) + [Digit(n % 10)]
  }

  // ----- what a text shows

  predicate Digits(s: string) { forall i :: 0 <= i < |s| ==> '0' <= s[i] <= '9' }

  /** A row of digits read by position: each further digit moves those before it up one place. */
  function Positional(s: string): nat
    requires Digits(s)
  {
    if s == "" then 0 else 10 * Positional(s[..|s| - 1]) + (s[|s| - 1] as int - '0' as int)
  }

  predicate IsNumeral(s: string) { s != "" && Digits(s) && (|s| > 1 ==> s[0] != '0') }

  /** The integer a text shows: digits without leading zeros, behind a minus sign unless they are "0". */
  function ReadInt(s: string): Option<int> {
    if IsNumeral(s) then Some(Positional(s))
    else if s != "" && s[0] == '-' && IsNumeral(s[1..]) && s != "-0" then Some(0 - Positional(s[1..]))
    else None
  }

  lemma PositionalSnoc(t: string, c: char)
    requires Digits(t) && '0' <= c <= '9'
    ensures Digits(t + [c]) && Positional(t + [c]) == 10 * Positional(t) + (c as int - '0' as int)
  {
    assert (t + [c])[..|t|] == t;
  }

  lemma {:induction false} NumeralIsPositive(s: string)
    requires Digits(s) && s != "" && s[0] != '0'
    ensures Positional(s) >= 1
  {
    var t := s[..|s| - 1];
    assert s == t + [s[|s| - 1]];
    if t != "" { NumeralIsPositive(t); }
  }

  lemma DigitChars(d: nat)
    requires d < 10
    ensures '0' <= Digit(d) <= '9' && Digit(d) as int == '0' as int + d
  {
  }

  lemma CharDigit(c: char)
    requires '0' <= c <= '9'
    ensures Digit(c as int - '0' as int) == c
  {
    DigitChars(c as int - '0' as int);
  }

  lemma {:induction false} DigitsOfNat(n: nat)
    ensures IsNumeral(Decimal(n)) && Positional(Decimal(n)) == n && (n > 0 ==> Decimal(n)[0] != '0')
  {
    DigitChars(n % 10);
    if n < 10 {
      OneDigit(Digit(n));
    } else {
      DigitsOfNat(n / 10);
      PositionalSnoc(Decimal(n / 10), Digit(n % 10));
    }
  }

  lemma OneDigit(c: char)
    requires '0' <= c <= '9'
    ensures IsNumeral([c]) && Positional([c]) == c as int - '0' as int
  {
    assert "" + [c] == [c];
    PositionalSnoc("", c);
  }

  lemma OneDigitPrinted(s: string)
    requires Digits(s) && |s| == 1
    ensures Decimal(Positional(s)) == s
  {
    CharDigit(s[0]);
    assert s == [s[0]];
    OneDigit(s[0]);
  }

  lemma SplitNumeral(s: string) returns (t: string, d: nat)
    requires IsNumeral(s) && |s| > 1
    ensures d < 10 && |t| < |s| && s == t + [Digit(d)]
    ensures IsNumeral(t) && Positional(t) > 0 && Positional(s) == 10 * Positional(t) + d
  {
    var c := s[|s| - 1];
    t, d := s[..|s| - 1], c as int - '0' as int;
    assert s == t + [c];
    CharDigit(c);
    NumeralIsPositive(t);
  }

  lemma {:induction false} NatOfDigits(s: string)
    requires IsNumeral(s)
    ensures Decimal(Positional(s)) == s
    decreases |s|
  {
    if |s| == 1 {
      OneDigitPrinted(s);
    } else {
      var t, d := SplitNumeral(s);
      NatOfDigits(t);
      var v := Positional(t);
      LastDigit(v, d);
      assert Decimal(10 * v + d) == s;
    }
  }

  lemma LastDigit(v: nat, d: nat)
    requires v > 0 && d < 10
    ensures Decimal(10 * v + d) == Decimal(v) + [Digit(d)]
  {
  }

  lemma PrintedIsRead(n: int)
    ensures ReadInt(Decimal(n)) == Some(n)
  {
    DigitsOfNat(Abs(n));
    if n < 0 {
      var t := Decimal(n);
      assert t == "-" + Decimal(-n) && t[1..] == Decimal(-n);
      assert t != "-0" by { assert t[1..][0] != '0'; }
      assert !IsNumeral(t) by { assert t[0] == '-'; }
    }
  }

  lemma ReadIsPrinted(s: string)
    requires ReadInt(s).Some?
    ensures s == Decimal(ReadInt(s).value)
  {
    if IsNumeral(s) {
      NatOfDigits(s);
    } else {
      var t := s[1..];
      assert s == "-" + t;
      assert t[0] != '0' by { assert |t| == 1 && t[0] == '0' ==> t == "0" && s == "-0"; }
      NumeralIsPositive(t);
      NatOfDigits(t);
    }
  }

  /** Printing and reading are inverse: a text shows an integer exactly if it is the one printed for it. */
  lemma DecimalReadsBack(s: string, n: int)
    ensures ReadInt(s) == Some(n) <==> s == Decimal(n)
  {
    PrintedIsRead(n);
    if ReadInt(s).Some? { ReadIsPrinted(s); }
  }

  /** `a op b`, or `Math.pow(a, b)`. */
  function Arith(host: Host, op: Operation, x: Num, y: Num): Num {
    if !IsExact(x) || !IsExact(y) then host.plain(op, x, y)
    else
      match op
      case Add => JsAdd(x, y)
      case Subtract => JsSub(x, y)
      case Multiply => JsMul(x, y)
      case Modulo => if IsZero(y) then NotANumber else JsRem(x, y)
      case _ => host.plain(op, x, y)
  }

  /** `String(x)`: negative zero prints as zero. */
  function ToText(host: Host, n: Num): string {
    match n
    case Int(v) => Decimal(v)
    case MinusZero => "0"
    case Frac(below, which) => host.fraction(below, which)
    case Infinite(negative) => if negative then "-Infinity" else "Infinity"
    case NotANumber => "NaN"
  }

  // ----- what the loops are meant to compute

  function Factorial(n: nat): nat {
    if n == 0 then 1 else n * Factorial(n - 1)
  }

  function Fib(n: nat): nat {
    if n < 2 then n else Fib(n - 1) + Fib(n - 2)
  }

  predicate Prime(n: int) {
    n >= 2 && forall d :: 2 <= d < n ==> n % d != 0
  }

  function Gcd(x: nat, y: nat): nat
    decreases y
  {
    if y == 0 then x else Gcd(y, x % y)
  }

  predicate Divides(d: nat, n: nat) {
    if d == 0 then n == 0 else n % d == 0
  }

  /** `i <= x` for an integer `i`. */
  predicate AtMost(i: int, x: Num) {
    match x
    case Int(v) => i <= v
    case MinusZero => i <= 0
    case Frac(below, _) => i <= below
    case Infinite(negative) => !negative
    case NotANumber => false
  }

  /** What a value between two integers is: its floor, its sign, and how integers compare with it. An
      infinity lies beyond them all. */
  lemma FractionIsBetween(below: int, which: nat, x: real, i: int, negative: bool)
    requires below as real < x < below as real + 1.0
    ensures Floor(Fraction(below, which)) == x.Floor
    ensures Negative(Frac(below, which)) <==> x < 0.0
    ensures AtMost(i, Frac(below, which)) <==> i as real <= x
    ensures AtMost(i, Infinite(negative)) != Negative(Infinite(negative)) == negative
  {
  }

  /** The square root of `n` as the loop test sees it. Rounding may lift it, but never below the true
      root nor up to n. */
  ghost predicate RootBounds(host: Host, n: int) {
    n >= 2 ==> forall i :: i >= 0 ==>
      (i * i <= n ==> AtMost(i, host.root(Int(n)))) && (AtMost(i, host.root(Int(n))) ==> i < n)
  }

  function AsNum(o: Operand): Num {
    match o case Whole(v) => Int(v) case NegZero => MinusZero case Fraction(below, which) => Frac(below, which)
  }

  function BoolText(b: bool): string { if b then "true" else "false" }

  /** What each operation means. */
  function Meaning(host: Host, op: Operation, a: Operand, b: Operand): Result<string> {
    match op
    case Divide =>
      if IsZero(AsNum(b)) then Err("division by zero") else Ok(ToText(host, Arith(host, Divide, AsNum(a), AsNum(b))))
    case Modulo =>
      if IsZero(AsNum(b)) then Err("modulo by zero") else Ok(ToText(host, Arith(host, Modulo, AsNum(a), AsNum(b))))
    case Root => Ok(ToText(host, host.root(AsNum(a))))
    case FactorialOp =>
      if 0 <= Floor(a) <= 1000 then Ok(Decimal(Factorial(Floor(a)))) else Err("factorial: n must be 0-1000")
    case FibonacciOp =>
      if 0 <= Floor(a) <= 10000 then Ok(Decimal(Fib(Floor(a)))) else Err("fibonacci: n must be 0-10000")
    case IsPrimeOp => Ok(BoolText(Prime(Floor(a))))
    case GcdOp => Ok(Decimal(Gcd(Abs(Floor(a)), Abs(Floor(b)))))
    case Unknown(name) => Err("Unknown operation: " + name)
    case _ => Ok(ToText(host, Arith(host, op, AsNum(a), AsNum(b))))
  }

  /** Truncated division: the remainder is smaller than the divisor and has the sign of the dividend. */
  ghost predicate IsRemainder(x: int, y: int, m: int) {
    Abs(m) < Abs(y) && (m < 0 ==> x < 0) && (m > 0 ==> x > 0) && exists q: int :: x == q * y + m
  }

  /** The answer `r` as a reader of its text sees it, wherever no host is asked. */
  ghost predicate Answers(op: Operation, a: Operand, b: Operand, r: Result<string>) {
    match op
    case Add => a.Whole? && b.Whole? ==> r.Ok? && ReadInt(r.value) == Some(a.v + b.v)
    case Subtract => a.Whole? && b.Whole? ==> r.Ok? && ReadInt(r.value) == Some(a.v - b.v)
    case Multiply => a.Whole? && b.Whole? ==> r.Ok? && ReadInt(r.value) == Some(a.v * b.v)
    case Modulo =>
      a.Whole? && b.Whole? && b.v != 0 ==>
        r.Ok? && ReadInt(r.value).Some? && IsRemainder(a.v, b.v, ReadInt(r.value).value)
    case FactorialOp => 0 <= Floor(a) <= 1000 ==> r.Ok? && ReadInt(r.value) == Some(Factorial(Floor(a)))
    case FibonacciOp => 0 <= Floor(a) <= 10000 ==> r.Ok? && ReadInt(r.value) == Some(Fib(Floor(a)))
    case IsPrimeOp => r == Ok(if Prime(Floor(a)) then "true" else "false")
    case GcdOp => r.Ok? && ReadInt(r.value) == Some(Gcd(Abs(Floor(a)), Abs(Floor(b))))
    case _ => true
  }

  lemma ExactIsRead(host: Host, n: Num)
    requires IsExact(n)
    ensures ReadInt(ToText(host, n)) == Some(Value(n))
  {
    DecimalReadsBack(ToText(host, n), Value(n));
    assert Decimal(0) == "0";
  }

  lemma RemainderOf(x: int, y: int)
    requires y != 0
    ensures IsExact(JsRem(Int(x), Int(y))) && IsRemainder(x, y, Value(JsRem(Int(x), Int(y))))
  {
    var m: nat := Abs(x) % Abs(y);
    DivisionLaw(Abs(x), Abs(y));
    RemainderMeans(x, y, Abs(x) / Abs(y), m);
    assert Value(Signed(x < 0, m)) == if x < 0 then 0 - m else m;
  }

  lemma RemainderMeans(x: int, y: int, d: nat, m: nat)
    requires y != 0 && Abs(x) == d * Abs(y) + m && m < Abs(y)
    ensures IsRemainder(x, y, if x < 0 then 0 - m else m)
  {
    var q := if (x < 0) == (y < 0) then d else 0 - d;
    SignedProduct(d, y, q, x < 0);
    assert x == q * y + if x < 0 then 0 - m else m;
    SmallerFactor(d, m, Abs(y));
  }

  lemma SmallerFactor(d: nat, m: nat, n: nat)
    ensures d * n + m >= m
  {
  }

  lemma DivisionLaw(x: nat, n: nat)
    requires n > 0
    ensures x == (x / n) * n + x % n && x % n < n
  {
  }

  lemma SignedProduct(d: int, y: int, q: int, negative: bool)
    requires q == if negative == (y < 0) then d else -d
    ensures q * y == if negative then -(d * Abs(y)) else d * Abs(y)
  {
  }

  lemma IntegersAnswer(host: Host, op: Operation, x: int, y: int)
    requires op.Add? || op.Subtract? || op.Multiply? || (op.Modulo? && y != 0)
    ensures Answers(op, Whole(x), Whole(y), Meaning(host, op, Whole(x), Whole(y)))
  {
    if op.Modulo? { RemainderOf(x, y); }
    ExactIsRead(host, Arith(host, op, Int(x), Int(y)));
  }

  lemma LoopsAnswer(host: Host, op: Operation, a: Operand, b: Operand)
    requires op.FactorialOp? || op.FibonacciOp? || op.GcdOp?
    ensures Answers(op, a, b, Meaning(host, op, a, b))
  {
    if op.GcdOp? {
      var g := Gcd(Abs(Floor(a)), Abs(Floor(b)));
      DecimalReadsBack(Decimal(g), g);
    } else if Floor(a) >= 0 {
      var f := if op.FactorialOp? then Factorial(Floor(a)) else Fib(Floor(a));
      DecimalReadsBack(Decimal(f), f);
    }
  }

  lemma MeaningAnswers(host: Host, op: Operation, a: Operand, b: Operand)
    ensures Answers(op, a, b, Meaning(host, op, a, b))
  {
    if op.FactorialOp? || op.FibonacciOp? || op.GcdOp? {
      LoopsAnswer(host, op, a, b);
    } else if (op.Add? || op.Subtract? || op.Multiply? || op.Modulo?) && a.Whole? && b.Whole? {
      if op.Modulo? ==> b.v != 0 { IntegersAnswer(host, op, a.v, b.v); }
    }
  }

  method FactorialLoop(n: nat) returns (f: nat)
    ensures f == Factorial(n)
  {
    f := 1;
    var i := 2;
    while i <= n
      invariant 2 <= i && (i <= n + 1 || n < 2) && f == Factorial(if n < 2 then n else i - 1)
      decreases n + 1 - i
    {
      f := f * i;
      i := i + 1;
    }
  }

  method FibonacciLoop(n: nat) returns (x: nat)
    ensures x == Fib(n)
  {
    x := 0;
    var y := 1;
    for i := 0 to n
      invariant x == Fib(i) && y == Fib(i + 1)
    {
      var t := x + y;
      x := y;
      y := t;
    }
  }

  lemma MulGrows(k: int, d: int)
    requires d > 0
    ensures k >= 1 ==> k * d >= d
    ensures k <= -1 ==> k * d <= -d
  {
  }

  /** Quotient and remainder are unique. */
  lemma Remainder(k: int, d: int, r: int)
    requires 0 <= r < d
    ensures (k * d + r) % d == r
  {
    var x := k * d + r;
    var q := x / d;
    assert x == q * d + x % d;
    assert (q - k) * d == r - x % d by { assert (q - k) * d == q * d - k * d; }
    MulGrows(q - k, d);
  }

  /** A composite number has a divisor no larger than its square root. */
  lemma SmallDivisor(n: int, d: int)
    requires n >= 2 && 2 <= d < n && n % d == 0
    ensures exists i :: 2 <= i <= d && i * i <= n && n % i == 0
  {
    if d * d > n {
      var q := n / d;
      assert n == d * q;
      MulOrder(d, d, q);
      MulOrder(d, q, 1);
      MulOrder(q, q, d);
      Remainder(d, q, 0);
      assert n % q == 0;
    }
  }

  /** Trial division up to the square root, wherever rounding puts it. */
  method IsPrimeLoop(n: int, host: Host) returns (prime: bool)
    requires RootBounds(host, n)
    ensures prime <==> Prime(n)
  {
    if n < 2 {
      return false;
    }
    var i := 2;
    while AtMost(i, host.root(Int(n)))
      invariant 2 <= i && forall k :: 2 <= k < i ==> n % k != 0
      decreases n - i
    {
      if n % i == 0 {
        return false;
      }
      i := i + 1;
    }
    NoSmallDivisor(n, i, host);
    return true;
  }

  lemma NoSmallDivisor(n: int, i: int, host: Host)
    requires RootBounds(host, n) && n >= 2 && i >= 2 && !AtMost(i, host.root(Int(n)))
    requires forall k :: 2 <= k < i ==> n % k != 0
    ensures Prime(n)
  {
    forall k | 0 <= k && k * k <= n ensures k < i {
      assert AtMost(k, host.root(Int(n)));
    }
    forall d | 2 <= d < n && n % d == 0 ensures false {
      SmallDivisor(n, d);
    }
  }

  method GcdLoop(a: int, b: int) returns (x: nat)
    ensures x == Gcd(Abs(a), Abs(b))
  {
    x := Abs(a);
    var y: nat := Abs(b);
    while y != 0
      invariant Gcd(x, y) == Gcd(Abs(a), Abs(b))
      decreases y
    {
      var t := y;
      y := x % y;
      x := t;
    }
  }

  method Compute(host: Host, op: Operation, a: Operand, b: Operand) returns (r: Result<string>)
    requires op.IsPrimeOp? ==> RootBounds(host, Floor(a))
    ensures r == Meaning(host, op, a, b) && Answers(op, a, b, r)
  {
    MeaningAnswers(host, op, a, b);
    var x, y := AsNum(a), AsNum(b);
    match op {
      case Add => r := Ok(ToText(host, Arith(host, Add, x, y)));
      case Subtract => r := Ok(ToText(host, Arith(host, Subtract, x, y)));
      case Multiply => r := Ok(ToText(host, Arith(host, Multiply, x, y)));
      case Divide =>
        if IsZero(y) { return Err("division by zero"); }
        r := Ok(ToText(host, Arith(host, Divide, x, y)));
      case Modulo =>
        if IsZero(y) { return Err("modulo by zero"); }
        r := Ok(ToText(host, Arith(host, Modulo, x, y)));
      case Power => r := Ok(ToText(host, Arith(host, Power, x, y)));
      case Root => r := Ok(ToText(host, host.root(x)));
      case FactorialOp =>
        var n := Floor(a);
        if n < 0 || n > 1000 { return Err("factorial: n must be 0-1000"); }
        var f := FactorialLoop(n);
        r := Ok(Decimal(f));
      case FibonacciOp =>
        var n := Floor(a);
        if n < 0 || n > 10000 { return Err("fibonacci: n must be 0-10000"); }
        var f := FibonacciLoop(n);
        r := Ok(Decimal(f));
      case IsPrimeOp =>
        var prime := IsPrimeLoop(Floor(a), host);
        r := Ok(BoolText(prime));
      case GcdOp =>
        var g := GcdLoop(Floor(a), Floor(b));
        r := Ok(Decimal(g));
      case Unknown(name) => r := Err("Unknown operation: " + name);
    }
  }

  // ----- the meaning of Euclid's loop

  /** The common divisors of x and y are those of y and x % y. */
  lemma DividesCombination(d: nat, x: nat, y: nat)
    requires d > 0 && y > 0 && y % d == 0
    ensures x % d == (x % y) % d
  {
    var q, r, k := x / y, x % y, y / d;
    assert x == q * y + r && y == k * d;
    var m := r / d;
    assert r == m * d + r % d;
    assert x == (q * k + m) * d + r % d by {
      assert q * y == (q * k) * d;
      assert (q * k + m) * d == (q * k) * d + m * d;
    }
    Remainder(q * k + m, d, r % d);
  }

  lemma {:induction false} GcdZero(x: nat, y: nat)
    ensures Gcd(x, y) == 0 <==> x == 0 && y == 0
    decreases y
  {
    if y > 0 { GcdZero(y, x % y); }
  }

  lemma {:induction false} GcdDivides(x: nat, y: nat)
    ensures Divides(Gcd(x, y), x) && Divides(Gcd(x, y), y)
    decreases y
  {
    if y > 0 {
      GcdDivides(y, x % y);
      GcdZero(x, y);
      DividesCombination(Gcd(x, y), x, y);
    }
  }

  lemma {:induction false} CommonDivides(x: nat, y: nat, d: nat)
    requires Divides(d, x) && Divides(d, y)
    ensures Divides(d, Gcd(x, y))
    decreases y
  {
    if y > 0 {
      DividesCombination(d, x, y);
      CommonDivides(y, x % y, d);
    }
  }

  lemma DivisorBounded(d: nat, n: nat)
    requires Divides(d, n) && n > 0
    ensures d <= n
  {
  }

  /** gcd is a common divisor, every common divisor divides it and is no larger unless both numbers
      are 0, and gcd(0, 0) is 0. */
  lemma GcdIsGreatest(x: nat, y: nat, d: nat)
    ensures Divides(Gcd(x, y), x) && Divides(Gcd(x, y), y)
    ensures Divides(d, x) && Divides(d, y) ==> Divides(d, Gcd(x, y)) && (x > 0 || y > 0 ==> d <= Gcd(x, y))
    ensures Gcd(x, y) == 0 <==> x == 0 && y == 0
  {
    GcdDivides(x, y);
    GcdZero(x, y);
    if Divides(d, x) && Divides(d, y) {
      CommonDivides(x, y, d);
      if x > 0 || y > 0 { DivisorBounded(d, Gcd(x, y)); }
    }
  }
}
