/** The generated scripts against the local tool: what a script prints is what the tool returns, and
    exactly when it is not. */
module ScriptsAgree {
  import opened Common
  import opened MathCompute
  import opened JsScript

  /** What the specification of the language (Number::add, subtract, multiply, divide, remainder and
      exponentiate, Math.sqrt) says of a zero operand next to a number the machine has to round, and of
      when a result is negative zero. */
  ghost predicate ZeroRules(host: Host) {
    && SumRules(host) && ProductRules(host) && QuotientRules(host) && PowerRules(host) && SignRules(host)
    && host.root(MinusZero) == MinusZero && host.root(Int(0)) == Int(0)
  }

  ghost predicate SumRules(host: Host) {
    && (forall k, w :: host.plain(Add, MinusZero, Frac(k, w)) == host.plain(Add, Int(0), Frac(k, w)))
    && (forall k, w :: host.plain(Add, Frac(k, w), MinusZero) == host.plain(Add, Frac(k, w), Int(0)))
    && (forall k, w :: host.plain(Subtract, MinusZero, Frac(k, w)) == host.plain(Subtract, Int(0), Frac(k, w)))
    && (forall k, w :: host.plain(Subtract, Frac(k, w), MinusZero) == host.plain(Subtract, Frac(k, w), Int(0)))
  }

  ghost predicate ProductRules(host: Host) {
    && (forall k, w :: host.plain(Multiply, MinusZero, Frac(k, w)) == Signed(k >= 0, 0))
    && (forall k, w :: host.plain(Multiply, Frac(k, w), MinusZero) == Signed(k >= 0, 0))
    && (forall k, w :: host.plain(Multiply, Int(0), Frac(k, w)) == Signed(k < 0, 0))
    && (forall k, w :: host.plain(Multiply, Frac(k, w), Int(0)) == Signed(k < 0, 0))
    && (forall k, w :: host.plain(Modulo, MinusZero, Frac(k, w)) == MinusZero)
    && (forall k, w :: host.plain(Modulo, Int(0), Frac(k, w)) == Int(0))
  }

  ghost predicate QuotientRules(host: Host) {
    forall y: Num :: (y.Int? && y.v != 0) || y.Frac? ==>
      && host.plain(Divide, MinusZero, y) == Signed(!Negative(y), 0)
      && host.plain(Divide, Int(0), y) == Signed(Negative(y), 0)
  }

  ghost predicate PowerRules(host: Host) {
    && (forall x: Num :: host.plain(Power, x, MinusZero) == Int(1) && host.plain(Power, x, Int(0)) == Int(1))
    && (forall y: Num :: (y.Int? && y.v != 0) || y.Frac? ==>
          && host.plain(Power, MinusZero, y) == (if Negative(y) then Infinite(Odd(y)) else Signed(Odd(y), 0))
          && host.plain(Power, Int(0), y) == (if Negative(y) then Infinite(false) else Int(0)))
  }

  /** A sum next to a fraction, a root, a product or quotient of an integer other than zero is never
      negative zero; another result is only where the signs say so. */
  ghost predicate SignRules(host: Host) {
    && (forall x: Num, y: Num :: x.Frac? || y.Frac? ==> host.plain(Add, x, y) != MinusZero)
    && (forall x: Num, y: Num :: x.Frac? || y.Frac? ==> host.plain(Subtract, x, y) != MinusZero)
    && (forall x: Num :: host.root(x) == MinusZero ==> x == MinusZero)
    && (forall v, k, w :: v != 0 ==> host.plain(Multiply, Int(v), Frac(k, w)) != MinusZero)
    && (forall v, k, w :: v != 0 ==> host.plain(Multiply, Frac(k, w), Int(v)) != MinusZero)
    && (forall x: Num, y: Num :: host.plain(Multiply, x, y) == MinusZero ==> Negative(x) != Negative(y))
    && (forall v: int, y: Num :: v != 0 && !IsZero(y) && (y.Int? || y.Frac?) ==>
          host.plain(Divide, Int(v), y) != MinusZero)
    && (forall x: Num, y: Num :: host.plain(Divide, x, y) == MinusZero ==> Negative(x) != Negative(y))
    && (forall x: Num, y: Num :: host.plain(Modulo, x, y) == MinusZero ==> Negative(x))
    && (forall x: Num, y: Num :: host.plain(Power, x, y) == MinusZero ==> Negative(x) && Odd(y))
  }

  predicate Odd(n: Num) { n.Int? && n.v % 2 != 0 }

  predicate IsPlain(op: Operation) {
    op.Add? || op.Subtract? || op.Multiply? || op.Divide? || op.Modulo? || op.Power? || op.Root?
  }

  /** The number the tool, or with pasted operands the script, computes for a plain operation. */
  function Plain(host: Host, op: Operation, x: Num, y: Num): Num {
    if op.Root? then host.root(x) else Arith(host, op, x, y)
  }

  /** Zero operands and integers decide alone: a product of zero and a negative number, a negative
      dividend without remainder, zero divided by a negative number. Otherwise the signs have to allow
      it, and a fraction, or a power, has to be so small that it is lost. */
  predicate ShowsMinusZero(host: Host, op: Operation, a: Operand, b: Operand) {
    match op
    case Multiply =>
      if a.Fraction? && b.Fraction? then
        Negative(Paste(a)) != Negative(Paste(b)) && Plain(host, Multiply, Paste(a), Paste(b)) == MinusZero
      else (IsZero(AsNum(a)) || IsZero(AsNum(b))) && (Negative(Paste(a)) || Negative(Paste(b)))
    case Modulo =>
      && !IsZero(AsNum(b)) && Negative(Paste(a))
      && if a.Fraction? || b.Fraction? then Plain(host, Modulo, Paste(a), Paste(b)) == MinusZero
         else Abs(Floor(a)) % Abs(Floor(b)) == 0
    case Divide =>
      && !IsZero(AsNum(b))
      && if IsZero(AsNum(a)) then Negative(AsNum(b))
         else
           && a.Fraction? && Negative(Paste(a)) != Negative(AsNum(b))
           && Plain(host, Divide, Paste(a), Paste(b)) == MinusZero
    case Power =>
      && Negative(Paste(a)) && Odd(AsNum(b))
      && Plain(host, Power, Paste(a), Paste(b)) == MinusZero
    case _ => false
  }

  /** A negative odd power of negative zero: the tool gives -Infinity, the script Infinity. */
  predicate LosesSign(op: Operation, a: Operand, b: Operand) {
    op.Power? && a.NegZero? && Odd(AsNum(b)) && Negative(AsNum(b))
  }

  predicate Accepted(op: Operation, b: Operand) {
    op.Divide? || op.Modulo? ==> !IsZero(AsNum(b))
  }

  /** Pasting a negative zero changes nothing but the sign of a zero, or of that infinity. */
  predicate SameButSign(x: Num, y: Num) {
    x == y || (IsZero(x) && IsZero(y))
  }

  lemma ZeroOperand(host: Host, op: Operation, a: Operand, b: Operand)
    requires ZeroRules(host) && (op.Add? || op.Subtract? || op.Divide? || op.Power? || op.Root?) && Accepted(op, b)
    ensures var x, y := Plain(host, op, AsNum(a), AsNum(b)), Plain(host, op, Paste(a), Paste(b));
            if LosesSign(op, a, b) then x == Infinite(true) && y == Infinite(false) else SameButSign(x, y)
  {
    match op
    case Add => SumWithZero(host, a, b);
    case Subtract => SumWithZero(host, a, b);
    case Divide => QuotientOfZero(host, a, b);
    case Power => PowerOfZero(host, a, b);
    case Root =>
  }

  lemma SignOfSum(x: Num, y: Num, x': Num, y': Num)
    requires IsExact(x) && IsExact(y) && IsExact(x') && IsExact(y') && Value(x) == Value(x') && Value(y) == Value(y')
    ensures SameButSign(JsAdd(x, y), JsAdd(x', y')) && SameButSign(JsSub(x, y), JsSub(x', y'))
  {
    SumValue(x, y);
    SumValue(x', y');
    OneValue(JsAdd(x, y), JsAdd(x', y'));
    OneValue(JsSub(x, y), JsSub(x', y'));
  }

  lemma SumValue(x: Num, y: Num)
    ensures IsExact(JsAdd(x, y)) && Value(JsAdd(x, y)) == Value(x) + Value(y)
    ensures IsExact(JsSub(x, y)) && Value(JsSub(x, y)) == Value(x) - Value(y)
  {
  }

  lemma OneValue(x: Num, y: Num)
    requires IsExact(x) && IsExact(y) && Value(x) == Value(y)
    ensures SameButSign(x, y)
  {
  }

  lemma ExactSums(host: Host, x: Num, y: Num)
    requires IsExact(x) && IsExact(y)
    ensures Plain(host, Add, x, y) == JsAdd(x, y) && Plain(host, Subtract, x, y) == JsSub(x, y)
  {
  }

  lemma FractionSums(host: Host, a: Operand, b: Operand)
    requires ZeroRules(host) && (a.Fraction? || b.Fraction?)
    ensures Plain(host, Add, AsNum(a), AsNum(b)) == Plain(host, Add, Paste(a), Paste(b))
    ensures Plain(host, Subtract, AsNum(a), AsNum(b)) == Plain(host, Subtract, Paste(a), Paste(b))
  {
  }

  lemma SumWithZero(host: Host, a: Operand, b: Operand)
    requires ZeroRules(host)
    ensures SameButSign(Plain(host, Add, AsNum(a), AsNum(b)), Plain(host, Add, Paste(a), Paste(b)))
    ensures SameButSign(Plain(host, Subtract, AsNum(a), AsNum(b)), Plain(host, Subtract, Paste(a), Paste(b)))
  {
    if a.Fraction? || b.Fraction? {
      FractionSums(host, a, b);
    } else {
      ExactSums(host, AsNum(a), AsNum(b));
      ExactSums(host, Paste(a), Paste(b));
      SignOfSum(AsNum(a), AsNum(b), Paste(a), Paste(b));
    }
  }

  lemma QuotientOfZero(host: Host, a: Operand, b: Operand)
    requires ZeroRules(host) && !IsZero(AsNum(b))
    ensures SameButSign(Plain(host, Divide, AsNum(a), AsNum(b)), Plain(host, Divide, Paste(a), Paste(b)))
    ensures IsZero(AsNum(a)) ==> (Plain(host, Divide, Paste(a), Paste(b)) == MinusZero <==> Negative(AsNum(b)))
  {
    if IsZero(AsNum(a)) {
      ZeroByNumber(host, AsNum(a), AsNum(b));
      ZeroByNumber(host, Int(0), AsNum(b));
    }
  }

  lemma ZeroByNumber(host: Host, z: Num, y: Num)
    requires QuotientRules(host) && IsZero(z) && !IsZero(y) && (y.Int? || y.Frac?)
    ensures Plain(host, Divide, z, y) == Signed(Negative(z) != Negative(y), 0)
  {
  }

  lemma PowerOfZero(host: Host, a: Operand, b: Operand)
    requires ZeroRules(host)
    ensures var x, y := Plain(host, Power, AsNum(a), AsNum(b)), Plain(host, Power, Paste(a), Paste(b));
            if LosesSign(Power, a, b) then x == Infinite(true) && y == Infinite(false) else SameButSign(x, y)
    ensures IsZero(AsNum(a)) || IsZero(AsNum(b)) ==> Plain(host, Power, Paste(a), Paste(b)) != MinusZero
  {
    if IsZero(AsNum(b)) {
      assert host.plain(Power, AsNum(a), AsNum(b)) == Int(1) == host.plain(Power, Paste(a), Paste(b));
    } else if IsZero(AsNum(a)) {
      ZeroToPower(host, AsNum(a), AsNum(b));
      ZeroToPower(host, Int(0), AsNum(b));
    }
  }

  lemma ZeroToPower(host: Host, z: Num, y: Num)
    requires PowerRules(host) && IsZero(z) && !IsZero(y) && (y.Int? || y.Frac?)
    ensures Plain(host, Power, z, y)
         == if Negative(y) then Infinite(Negative(z) && Odd(y)) else Signed(Negative(z) && Odd(y), 0)
  {
    assert Plain(host, Power, z, y) == host.plain(Power, z, y);
    if z == MinusZero {
      assert host.plain(Power, MinusZero, y) == if Negative(y) then Infinite(Odd(y)) else Signed(Odd(y), 0);
    } else {
      assert host.plain(Power, Int(0), y) == if Negative(y) then Infinite(false) else Int(0);
    }
  }

  lemma ProductOfZero(host: Host, a: Operand, b: Operand)
    requires ZeroRules(host)
    ensures SameButSign(Plain(host, Multiply, AsNum(a), AsNum(b)), Plain(host, Multiply, Paste(a), Paste(b)))
    ensures Plain(host, Multiply, Paste(a), Paste(b)) == MinusZero <==> ShowsMinusZero(host, Multiply, a, b)
  {
    if a.Fraction? || b.Fraction? {
      ProductOfFraction(host, a, b);
    } else {
      MulValue(AsNum(a), AsNum(b));
      MulValue(Paste(a), Paste(b));
    }
  }

  lemma ProductOfFraction(host: Host, a: Operand, b: Operand)
    requires ZeroRules(host) && (a.Fraction? || b.Fraction?)
    ensures SameButSign(Plain(host, Multiply, AsNum(a), AsNum(b)), Plain(host, Multiply, Paste(a), Paste(b)))
    ensures Plain(host, Multiply, Paste(a), Paste(b)) == MinusZero <==> ShowsMinusZero(host, Multiply, a, b)
  {
  }

  lemma RemainderOfZero(host: Host, a: Operand, b: Operand)
    requires ZeroRules(host) && !IsZero(AsNum(b))
    ensures SameButSign(Plain(host, Modulo, AsNum(a), AsNum(b)), Plain(host, Modulo, Paste(a), Paste(b)))
    ensures Plain(host, Modulo, Paste(a), Paste(b)) == MinusZero <==> ShowsMinusZero(host, Modulo, a, b)
  {
    if a.Fraction? || b.Fraction? {
      RemainderOfFraction(host, a, b);
    } else {
      RemainderOfExact(host, a, b);
    }
  }

  lemma RemainderOfExact(host: Host, a: Operand, b: Operand)
    requires !IsZero(AsNum(b)) && !a.Fraction? && !b.Fraction?
    ensures SameButSign(Plain(host, Modulo, AsNum(a), AsNum(b)), Plain(host, Modulo, Paste(a), Paste(b)))
    ensures Plain(host, Modulo, Paste(a), Paste(b)) == MinusZero <==> ShowsMinusZero(host, Modulo, a, b)
  {
    ExactRemainder(host, AsNum(a), AsNum(b));
    ExactRemainder(host, Paste(a), AsNum(b));
  }

  lemma RemainderOfFraction(host: Host, a: Operand, b: Operand)
    requires ZeroRules(host) && !IsZero(AsNum(b)) && (a.Fraction? || b.Fraction?)
    ensures SameButSign(Plain(host, Modulo, AsNum(a), AsNum(b)), Plain(host, Modulo, Paste(a), Paste(b)))
    ensures Plain(host, Modulo, Paste(a), Paste(b)) == MinusZero <==> ShowsMinusZero(host, Modulo, a, b)
  {
  }

  lemma ExactRemainder(host: Host, x: Num, y: Num)
    requires IsExact(x) && y.Int? && y.v != 0
    ensures Plain(host, Modulo, x, y) == Signed(Negative(x), Abs(Value(x)) % Abs(y.v))
    ensures Value(x) == 0 ==> IsZero(Plain(host, Modulo, x, y))
    ensures x.Int? ==> (Plain(host, Modulo, x, y) == MinusZero <==> x.v < 0 && Abs(x.v) % Abs(y.v) == 0)
  {
    if Value(x) == 0 {
      assert Abs(Value(x)) % Abs(y.v) == 0;
    }
  }

  lemma MulValue(x: Num, y: Num)
    ensures Value(JsMul(x, y)) == Value(x) * Value(y)
    ensures x.Int? && y.Int? ==> (JsMul(x, y).MinusZero? <==> (x.v == 0 || y.v == 0) && (x.v < 0 || y.v < 0))
  {
    assert Value(x) * Value(y) == 0 <==> Value(x) == 0 || Value(y) == 0;
  }

  /** For every plain operation: script and tool compute the same but for the sign of a zero or that
      infinity, and the script's result is a negative zero exactly when it shows. */
  lemma PlainAgrees(host: Host, op: Operation, a: Operand, b: Operand)
    requires ZeroRules(host) && IsPlain(op) && Accepted(op, b)
    ensures var x, y := Plain(host, op, AsNum(a), AsNum(b)), Plain(host, op, Paste(a), Paste(b));
            && (if LosesSign(op, a, b) then x == Infinite(true) && y == Infinite(false) else SameButSign(x, y))
            && (y == MinusZero <==> ShowsMinusZero(host, op, a, b))
  {
    match op
    case Multiply => ProductOfZero(host, a, b);
    case Modulo => RemainderOfZero(host, a, b);
    case Power => PowerOfZero(host, a, b);
    case Divide => QuotientOfZero(host, a, b);
    case _ => ZeroOperand(host, op, a, b);
  }

  lemma {:induction false} BinEvaluates(op: BinOp, x: Num, y: Num, host: Host)
    ensures Eval(Bin(op, Pasted(x), Pasted(y)), map[], host) == EvalNum(host, op, x, y)
    ensures Eval(Pow(Pasted(x), Pasted(y)), map[], host) == Some(NumV(Arith(host, Power, x, y)))
    ensures Eval(Sqrt(Pasted(x)), map[], host) == Some(NumV(host.root(x)))
  {
    assert Eval(Pasted(x), map[], host) == Some(NumV(x)) && Eval(Pasted(y), map[], host) == Some(NumV(y));
  }

  lemma {:induction false} LogPrints(e: Expr, n: Num, host: Host, fuel: nat)
    requires Eval(e, map[], host) == Some(NumV(n))
    ensures PrintsLine(Log(e), host, Logged(host, NumV(n)), fuel)
  {
    assert Run(Log(e), fuel, host) == Done(map[], [] + [Logged(host, NumV(n))]);
  }

  function PlainExpr(op: Operation, x: Num, y: Num): Expr
    requires IsPlain(op)
  {
    match op
    case Add => Bin(Plus, Pasted(x), Pasted(y))
    case Subtract => Bin(Minus, Pasted(x), Pasted(y))
    case Multiply => Bin(Times, Pasted(x), Pasted(y))
    case Divide => Bin(Slash, Pasted(x), Pasted(y))
    case Modulo => Bin(Percent, Pasted(x), Pasted(y))
    case Power => Pow(Pasted(x), Pasted(y))
    case Root => Sqrt(Pasted(x))
  }

  lemma {:induction false} PlainEvaluates(op: Operation, x: Num, y: Num, host: Host)
    requires IsPlain(op)
    ensures Eval(PlainExpr(op, x, y), map[], host) == Some(NumV(Plain(host, op, x, y)))
  {
    match op
    case Add => BinEvaluates(Plus, x, y, host);
    case Subtract => BinEvaluates(Minus, x, y, host);
    case Multiply => BinEvaluates(Times, x, y, host);
    case Divide => BinEvaluates(Slash, x, y, host);
    case Modulo => BinEvaluates(Percent, x, y, host);
    case _ => BinEvaluates(Plus, x, y, host);
  }

  lemma CompilesPlain(op: Operation, a: Operand, b: Operand)
    requires IsPlain(op) && Accepted(op, b)
    ensures Compile(op, a, b) == Ok(Log(PlainExpr(op, Paste(a), Paste(b))))
  {
  }

  lemma {:induction false} PlainPrints(host: Host, op: Operation, a: Operand, b: Operand, fuel: nat)
    requires IsPlain(op) && Accepted(op, b)
    ensures Compile(op, a, b).Ok?
    ensures PrintsLine(Compile(op, a, b).value, host, Logged(host, NumV(Plain(host, op, Paste(a), Paste(b)))), fuel)
  {
    CompilesPlain(op, a, b);
    PlainEvaluates(op, Paste(a), Paste(b), host);
    LogPrints(PlainExpr(op, Paste(a), Paste(b)), Plain(host, op, Paste(a), Paste(b)), host, fuel);
  }

  lemma MinusText()
    ensures Decimal(0) == "0" && Decimal(0) != "-0"
  {
  }

  function Rounds(op: Operation, a: Operand, b: Operand): nat {
    Abs(Floor(a)) + Abs(Floor(b))
  }

  /** The compiled script and the local tool reject the same operands; on the others the script ends,
      and prints what the local tool returns if and only if no negative zero shows and no sign of an
      infinity is lost. */
  lemma CompiledAgrees(op: Operation, a: Operand, b: Operand, host: Host, fuel: nat)
    requires ZeroRules(host) && fuel >= Rounds(op, a, b)
    requires op.IsPrimeOp? ==> RootBounds(host, Floor(a))
    ensures Compile(op, a, b).Ok? <==> Meaning(host, op, a, b).Ok?
    ensures Compile(op, a, b).Ok? ==>
              && Run(Compile(op, a, b).value, fuel, host).Done?
              && (PrintsLine(Compile(op, a, b).value, host, Meaning(host, op, a, b).value, fuel)
                  <==> !ShowsMinusZero(host, op, a, b) && !LosesSign(op, a, b))
              && (ShowsMinusZero(host, op, a, b) ==>
                    PrintsLine(Compile(op, a, b).value, host, "-0", fuel) && Meaning(host, op, a, b) == Ok("0"))
  {
    if Compile(op, a, b).Ok? {
      match op
      case FactorialOp => FactorialPrints(Floor(a), host, fuel);
      case FibonacciOp => FibonacciPrints(Floor(a), host, fuel);
      case IsPrimeOp => IsPrimePrints(Floor(a), host, fuel);
      case GcdOp => GcdPrints(Abs(Floor(a)), Abs(Floor(b)), host, fuel);
      case _ =>
        PlainCompiledAgrees(op, a, b, host, fuel);
    }
  }

  lemma PlainCompiledAgrees(op: Operation, a: Operand, b: Operand, host: Host, fuel: nat)
    requires ZeroRules(host) && IsPlain(op) && Accepted(op, b)
    ensures Compile(op, a, b).Ok? && Meaning(host, op, a, b).Ok?
    ensures Run(Compile(op, a, b).value, fuel, host).Done?
    ensures PrintsLine(Compile(op, a, b).value, host, Meaning(host, op, a, b).value, fuel)
            <==> !ShowsMinusZero(host, op, a, b) && !LosesSign(op, a, b)
    ensures ShowsMinusZero(host, op, a, b) ==>
              PrintsLine(Compile(op, a, b).value, host, "-0", fuel) && Meaning(host, op, a, b) == Ok("0")
  {
    PlainAgrees(host, op, a, b);
    PlainPrints(host, op, a, b, fuel);
    MeaningOfPlain(host, op, a, b);
    TextsCompare(
      Compile(op, a, b).value, host, fuel, Plain(host, op, AsNum(a), AsNum(b)), Plain(host, op, Paste(a), Paste(b)),
      LosesSign(op, a, b), ShowsMinusZero(host, op, a, b));
  }

  /** What is printed for `y`, against what is returned for `x`. */
  lemma TextsCompare(s: Stmt, host: Host, fuel: nat, x: Num, y: Num, loses: bool, shows: bool)
    requires PrintsLine(s, host, Logged(host, NumV(y)), fuel)
    requires if loses then x == Infinite(true) && y == Infinite(false) else SameButSign(x, y)
    requires y == MinusZero <==> shows
    ensures PrintsLine(s, host, ToText(host, x), fuel) <==> !shows && !loses
    ensures shows ==> PrintsLine(s, host, "-0", fuel) && ToText(host, x) == "0"
  {
    MinusText();
    var text := Logged(host, NumV(y));
    assert PrintsLine(s, host, ToText(host, x), fuel) <==> text == ToText(host, x) by {
      assert [text][0] == text && [ToText(host, x)][0] == ToText(host, x);
    }
    if loses {
      assert text == "Infinity" && ToText(host, x) == "-Infinity";
      assert text[0] != ToText(host, x)[0];
    } else if shows {
      assert text == "-0" && ToText(host, x) == "0";
    }
  }

  lemma MeaningOfPlain(host: Host, op: Operation, a: Operand, b: Operand)
    requires IsPlain(op) && Accepted(op, b)
    ensures Meaning(host, op, a, b) == Ok(ToText(host, Plain(host, op, AsNum(a), AsNum(b))))
  {
  }

  /** Some machine meets these rules. */
  lemma RulesCanBeMet()
    ensures forall n :: RootBounds(RuledHost(), n)
    ensures ZeroRules(RuledHost())
  {
    forall n ensures RootBounds(RuledHost(), n) {
      RuledRootBounds(n);
    }
    RuledSigns();
    RuledSums();
    RuledProducts();
    RuledPowers();
  }

  function RuledHost(): Host {
    Host(RuledPlain, RuledRoot, (below: int, which: nat) => "")
  }

  lemma RuledRootBounds(n: int)
    ensures RootBounds(RuledHost(), n)
  {
    var host := RuledHost();
    forall i | n >= 2 && i >= 0
      ensures (i * i <= n ==> AtMost(i, host.root(Int(n)))) && (AtMost(i, host.root(Int(n))) ==> i < n)
    {
      if i >= n { MulOrder(i, 2, i); }
    }
  }

  lemma RuledSigns()
    ensures SignRules(RuledHost())
  {
  }

  lemma RuledSums()
    ensures SumRules(RuledHost())
  {
  }

  lemma RuledProducts()
    ensures ProductRules(RuledHost())
  {
  }

  lemma RuledPowers()
    ensures QuotientRules(RuledHost()) && PowerRules(RuledHost())
  {
  }

  function RuledRoot(x: Num): Num {
    if x.Int? && x.v >= 2 then Int(x.v - 1) else x
  }

  function RuledPlain(op: Operation, x: Num, y: Num): Num {
    match op
    case Multiply =>
      if (x.Int? && x.v != 0) || (y.Int? && y.v != 0) then NotANumber else Signed(Negative(x) != Negative(y), 0)
    case Divide => if x.Int? && x.v != 0 then NotANumber else Signed(Negative(x) != Negative(y), 0)
    case Modulo => x
    case Power =>
      if IsZero(y) then Int(1)
      else if Negative(y) then Infinite(Negative(x) && Odd(y))
      else Signed(Negative(x) && Odd(y), 0)
    case _ => NotANumber
  }

  /** At concrete operands: -4 modulo 2. */
  lemma MinusZeroShows(host: Host, fuel: nat)
    requires ZeroRules(host)
    ensures Meaning(host, Modulo, Whole(-4), Whole(2)) == Ok("0")
    ensures Compile(Modulo, Whole(-4), Whole(2)).Ok?
    ensures PrintsLine(Compile(Modulo, Whole(-4), Whole(2)).value, host, "-0", fuel)
  {
    var x, y := Int(-4), Int(2);
    ExactRemainder(host, x, y);
    assert Plain(host, Modulo, x, y) == MinusZero by {
      assert Abs(-4) % Abs(2) == 4 % 2 == 0;
    }
    PlainPrints(host, Modulo, Whole(-4), Whole(2), fuel);
    MeaningOfPlain(host, Modulo, Whole(-4), Whole(2));
  }

  /** ... and negative zero to the power of -1. */
  lemma SignIsLost(host: Host, fuel: nat)
    requires ZeroRules(host)
    ensures Meaning(host, Power, NegZero, Whole(-1)) == Ok("-Infinity")
    ensures Compile(Power, NegZero, Whole(-1)).Ok?
    ensures PrintsLine(Compile(Power, NegZero, Whole(-1)).value, host, "Infinity", fuel)
  {
    assert LosesSign(Power, NegZero, Whole(-1));
    PlainAgrees(host, Power, NegZero, Whole(-1));
    PlainPrints(host, Power, NegZero, Whole(-1), fuel);
    MeaningOfPlain(host, Power, NegZero, Whole(-1));
  }
}
