/** The scripts the pod executor generates for math operations, as syntax trees with an
    interpreter, and what the loops among them print. */
module JsScript {
  import opened Common
  import opened MathCompute

  datatype Val = NumV(n: Num) | BigV(i: int) | BoolV(b: bool) | TextV(s: string)

  datatype BinOp = Plus | Minus | Times | Slash | Percent | Less | AtMostOp | Same

  datatype Expr =
    | Pasted(n: Num) | NumLit(v: int) | BigLit(v: int) | BoolLit(b: bool) | TextLit(s: string)
    | Var(x: string) | Bin(op: BinOp, l: Expr, r: Expr) | Pow(l: Expr, r: Expr) | Sqrt(e: Expr) | AsText(e: Expr)

  datatype Stmt =
    | Skip | Assign(x: string, e: Expr) | Log(e: Expr) | Then(s: Stmt, t: Stmt)
    | If(c: Expr, s: Stmt, t: Stmt) | While(c: Expr, s: Stmt) | Break

  type Env = map<string, Val>

  /** Only integers are compared, but for the square root on the right of `<=`. */
  function EvalNum(host: Host, op: BinOp, x: Num, y: Num): Option<Val> {
    match op
    case Plus => Some(NumV(Arith(host, Add, x, y)))
    case Minus => Some(NumV(Arith(host, Subtract, x, y)))
    case Times => Some(NumV(Arith(host, Multiply, x, y)))
    case Slash => Some(NumV(Arith(host, Divide, x, y)))
    case Percent => Some(NumV(Arith(host, Modulo, x, y)))
    case AtMostOp => if x.Int? then Some(BoolV(AtMost(x.v, y))) else None
    case Less => if IsExact(x) && IsExact(y) then Some(BoolV(Value(x) < Value(y))) else None
    case Same => if IsExact(x) && IsExact(y) then Some(BoolV(Value(x) == Value(y))) else None
  }

  function EvalBig(op: BinOp, x: int, y: int): Option<Val> {
    match op
    case Plus => Some(BigV(x + y))
    case Minus => Some(BigV(x - y))
    case Times => Some(BigV(x * y))
    case Slash => None
    case Percent => None
    case Less => Some(BoolV(x < y))
    case AtMostOp => Some(BoolV(x <= y))
    case Same => Some(BoolV(x == y))
  }

  /** `String(v)` and `v.toString()`. */
  function Shown(host: Host, v: Val): string {
    match v
    case NumV(n) => ToText(host, n)
    case BigV(i) => Decimal(i)
    case BoolV(b) => BoolText(b)
    case TextV(s) => s
  }

  /** `console.log(v)`: the one place where negative zero shows. */
  function Logged(host: Host, v: Val): string {
    if v == NumV(MinusZero) then "-0" else Shown(host, v)
  }

  function Eval(e: Expr, env: Env, host: Host): Option<Val> {
    match e
    case Pasted(n) => Some(NumV(n))
    case NumLit(v) => Some(NumV(Int(v)))
    case BigLit(v) => Some(BigV(v))
    case BoolLit(b) => Some(BoolV(b))
    case TextLit(s) => Some(TextV(s))
    case Var(x) => if x in env then Some(env[x]) else None
    case Bin(op, l, r) =>
      (match (Eval(l, env, host), Eval(r, env, host))
       case (Some(NumV(x)), Some(NumV(y))) => EvalNum(host, op, x, y)
       case (Some(BigV(x)), Some(BigV(y))) => EvalBig(op, x, y)
       case _ => None)
    case Pow(l, r) =>
      (match (Eval(l, env, host), Eval(r, env, host))
       case (Some(NumV(x)), Some(NumV(y))) => Some(NumV(Arith(host, Power, x, y)))
       case _ => None)
    case Sqrt(e1) =>
      (match Eval(e1, env, host)
       case Some(NumV(x)) => Some(NumV(host.root(x)))
       case _ => None)
    case AsText(e1) =>
      (match Eval(e1, env, host) case Some(v) => Some(TextV(Shown(host, v))) case None => None)
  }

  /** `while (y)` and `if (c)`: zero, negative zero, NaN and false are falsy. */
  function Truth(v: Val): bool {
    match v
    case NumV(n) => !IsZero(n) && !n.NotANumber?
    case BigV(i) => i != 0
    case BoolV(b) => b
    case TextV(s) => s != ""
  }

  datatype Outcome = Done(env: Env, out: seq<string>) | Broke(env: Env, out: seq<string>) | Stuck | Exhausted

  /** `fuel` bounds the rounds of any one loop. */
  function Exec(s: Stmt, env: Env, out: seq<string>, fuel: nat, host: Host): Outcome
    decreases s, fuel
  {
    match s
    case Skip => Done(env, out)
    case Assign(x, e) =>
      var v := Eval(e, env, host);
      if v.Some? then Done(env[x := v.value], out) else Stuck
    case Log(e) =>
      var v := Eval(e, env, host);
      if v.Some? then Done(env, out + [Logged(host, v.value)]) else Stuck
    case Then(s1, s2) =>
      var r := Exec(s1, env, out, fuel, host);
      if r.Done? then Exec(s2, r.env, r.out, fuel, host) else r
    case If(c, s1, s2) =>
      var v := Eval(c, env, host);
      if v.None? then Stuck
      else if Truth(v.value) then Exec(s1, env, out, fuel, host)
      else Exec(s2, env, out, fuel, host)
    case While(c, body) =>
      var v := Eval(c, env, host);
      if v.None? then Stuck
      else if !Truth(v.value) then Done(env, out)
      else if fuel == 0 then Exhausted
      else
        var r := Exec(body, env, out, fuel, host);
        (match r
         case Done(env1, out1) => Exec(s, env1, out1, fuel - 1, host)
         case Broke(env1, out1) => Done(env1, out1)
         case _ => r)
    case Break => Broke(env, out)
  }

  // ----- the generated scripts

  function FactorialBody(): Stmt {
    Then(Assign("f", Bin(Times, Var("f"), Var("i"))), Assign("i", Bin(Plus, Var("i"), BigLit(1))))
  }

  function FactorialScript(n: int): Stmt {
    Then(Assign("f", BigLit(1)), Then(Assign("i", BigLit(2)),
      Then(While(Bin(AtMostOp, Var("i"), BigLit(n)), FactorialBody()), Log(AsText(Var("f"))))))
  }

  function FibonacciBody(): Stmt {
    Then(Assign("t", Bin(Plus, Var("x"), Var("y"))), Then(Assign("x", Var("y")), Then(Assign("y", Var("t")),
      Assign("i", Bin(Plus, Var("i"), NumLit(1))))))
  }

  function FibonacciScript(n: int): Stmt {
    Then(Assign("x", BigLit(0)), Then(Assign("y", BigLit(1)), Then(Assign("i", NumLit(0)),
      Then(While(Bin(Less, Var("i"), NumLit(n)), FibonacciBody()), Log(AsText(Var("x")))))))
  }

  function IsPrimeBody(): Stmt {
    Then(If(Bin(Same, Bin(Percent, Var("n"), Var("i")), NumLit(0)), Then(Assign("p", BoolLit(false)), Break), Skip),
      Assign("i", Bin(Plus, Var("i"), NumLit(1))))
  }

  function IsPrimeScript(n: int): Stmt {
    Then(Assign("n", NumLit(n)),
      If(Bin(Less, Var("n"), NumLit(2)), Log(TextLit("false")),
        Then(Assign("p", BoolLit(true)), Then(Assign("i", NumLit(2)),
          Then(While(Bin(AtMostOp, Var("i"), Sqrt(Var("n"))), IsPrimeBody()), Log(AsText(Var("p"))))))))
  }

  function GcdBody(): Stmt {
    Then(Assign("t", Var("y")), Then(Assign("y", Bin(Percent, Var("x"), Var("y"))), Assign("x", Var("t"))))
  }

  function GcdScript(x: int, y: int): Stmt {
    Then(Assign("x", NumLit(x)), Then(Assign("y", NumLit(y)), Then(While(Var("y"), GcdBody()), Log(Var("x")))))
  }

  /** A number is pasted into the script as it prints, so negative zero turns into zero there; the
      other numbers come back as they were. */
  function Paste(o: Operand): Num {
    if o.NegZero? then Int(0) else AsNum(o)
  }

  /** The math branch of `buildCommand`. */
  function Compile(op: Operation, a: Operand, b: Operand): Result<Stmt> {
    var x, y, n := Pasted(Paste(a)), Pasted(Paste(b)), Floor(a);
    match op
    case Add => Ok(Log(Bin(Plus, x, y)))
    case Subtract => Ok(Log(Bin(Minus, x, y)))
    case Multiply => Ok(Log(Bin(Times, x, y)))
    case Divide => if IsZero(AsNum(b)) then Err("division by zero") else Ok(Log(Bin(Slash, x, y)))
    case Modulo => if IsZero(AsNum(b)) then Err("modulo by zero") else Ok(Log(Bin(Percent, x, y)))
    case Power => Ok(Log(Pow(x, y)))
    case Root => Ok(Log(Sqrt(x)))
    case FactorialOp => if n < 0 || n > 1000 then Err("factorial: n must be 0-1000") else Ok(FactorialScript(n))
    case FibonacciOp => if n < 0 || n > 10000 then Err("fibonacci: n must be 0-10000") else Ok(FibonacciScript(n))
    case IsPrimeOp => Ok(IsPrimeScript(n))
    case GcdOp => Ok(GcdScript(Abs(n), Abs(Floor(b))))
    case Unknown(name) => Err("Unknown math operation: " + name)
  }

  function Run(s: Stmt, fuel: nat, host: Host): Outcome {
    Exec(s, map[], [], fuel, host)
  }

  /** The script runs to its end and prints one line. */
  predicate PrintsLine(s: Stmt, host: Host, text: string, fuel: nat) {
    Run(s, fuel, host).Done? && Run(s, fuel, host).out == [text]
  }

  // ----- loops

  lemma BinVars(op: BinOp, x: string, y: string, env: Env, host: Host)
    requires x in env && y in env
    ensures Eval(Var(x), env, host) == Some(env[x])
    ensures env[x].BigV? && env[y].BigV? ==> Eval(Bin(op, Var(x), Var(y)), env, host) == EvalBig(op, env[x].i, env[y].i)
    ensures env[x].NumV? && env[y].NumV? ==>
          Eval(Bin(op, Var(x), Var(y)), env, host) == EvalNum(host, op, env[x].n, env[y].n)
  {
    assert Eval(Var(y), env, host) == Some(env[y]);
  }

  lemma BinLit(op: BinOp, x: string, v: int, env: Env, host: Host)
    requires x in env
    ensures env[x].BigV? ==> Eval(Bin(op, Var(x), BigLit(v)), env, host) == EvalBig(op, env[x].i, v)
    ensures env[x].NumV? ==> Eval(Bin(op, Var(x), NumLit(v)), env, host) == EvalNum(host, op, env[x].n, Int(v))
  {
    assert Eval(Var(x), env, host) == Some(env[x]);
    assert Eval(BigLit(v), env, host) == Some(BigV(v)) && Eval(NumLit(v), env, host) == Some(NumV(Int(v)));
  }

  lemma AsTextVar(x: string, env: Env, out: seq<string>, fuel: nat, host: Host)
    requires x in env
    ensures Exec(Log(AsText(Var(x))), env, out, fuel, host) == Done(env, out + [Shown(host, env[x])])
  {
    assert Eval(Var(x), env, host) == Some(env[x]);
    assert Eval(AsText(Var(x)), env, host) == Some(TextV(Shown(host, env[x])));
  }

  lemma {:induction false} LoopGoesOn(c: Expr, body: Stmt, env: Env, out: seq<string>, fuel: nat, host: Host,
      env1: Env, out1: seq<string>)
    requires Eval(c, env, host).Some? && Truth(Eval(c, env, host).value) && fuel > 0
    requires Exec(body, env, out, fuel, host) == Done(env1, out1)
    ensures Exec(While(c, body), env, out, fuel, host) == Exec(While(c, body), env1, out1, fuel - 1, host)
  {
  }

  lemma {:induction false} LoopStops(c: Expr, body: Stmt, env: Env, out: seq<string>, fuel: nat, host: Host)
    requires Eval(c, env, host).Some?
    ensures !Truth(Eval(c, env, host).value) ==> Exec(While(c, body), env, out, fuel, host) == Done(env, out)
    ensures Truth(Eval(c, env, host).value) && fuel > 0 && Exec(body, env, out, fuel, host).Broke? ==>
              var r := Exec(body, env, out, fuel, host);
                  Exec(While(c, body), env, out, fuel, host) == Done(r.env, r.out)
  {
  }

  lemma {:induction false} InTurn(s: Stmt, t: Stmt, env: Env, out: seq<string>, fuel: nat, host: Host)
    ensures var r := Exec(s, env, out, fuel, host);
            Exec(Then(s, t), env, out, fuel, host) == if r.Done? then Exec(t, r.env, r.out, fuel, host) else r
  {
  }

  lemma {:induction false} Assigns(x: string, e: Expr, env: Env, out: seq<string>, fuel: nat, host: Host)
    requires Eval(e, env, host).Some?
    ensures Exec(Assign(x, e), env, out, fuel, host) == Done(env[x := Eval(e, env, host).value], out)
  {
  }

  lemma {:induction false} FactorialBodyDoes(env: Env, out: seq<string>, f: int, i: int, fuel: nat, host: Host)
    requires "f" in env && "i" in env && env["f"] == BigV(f) && env["i"] == BigV(i)
    ensures Exec(FactorialBody(), env, out, fuel, host) == Done(env["f" := BigV(f * i)]["i" := BigV(i + 1)], out)
  {
    var env1 := env["f" := BigV(f * i)];
    BinVars(Times, "f", "i", env, host);
    Assigns("f", Bin(Times, Var("f"), Var("i")), env, out, fuel, host);
    BinLit(Plus, "i", 1, env1, host);
    Assigns("i", Bin(Plus, Var("i"), BigLit(1)), env1, out, fuel, host);
    InTurn(Assign("f", Bin(Times, Var("f"), Var("i"))), Assign("i", Bin(Plus, Var("i"), BigLit(1))), env, out, fuel,
        host);
  }

  lemma {:induction false} FactorialRound(env: Env, out: seq<string>, i: nat, n: nat, fuel: nat, host: Host)
    requires "f" in env && "i" in env && 2 <= i && (i <= n + 1 || n < 2)
    requires env["i"] == BigV(i) && env["f"] == BigV(Factorial(if i <= n then i - 1 else n))
    requires fuel >= n + 1 - i
    ensures var r := Exec(While(Bin(AtMostOp, Var("i"), BigLit(n)), FactorialBody()), env, out, fuel, host);
            r.Done? && r.out == out && "f" in r.env && r.env["f"] == BigV(Factorial(n))
    decreases n + 1 - i
  {
    var c := Bin(AtMostOp, Var("i"), BigLit(n));
    BinLit(AtMostOp, "i", n, env, host);
    if i <= n {
      FactorialBodyDoes(env, out, Factorial(i - 1), i, fuel, host);
      var env1 := env["f" := BigV(Factorial(i - 1) * i)]["i" := BigV(i + 1)];
      assert Factorial(i) == Factorial(i - 1) * i;
      LoopGoesOn(c, FactorialBody(), env, out, fuel, host, env1, out);
      FactorialRound(env1, out, i + 1, n, fuel - 1, host);
    } else {
      LoopStops(c, FactorialBody(), env, out, fuel, host);
    }
  }

  lemma {:induction false} FactorialPrints(n: nat, host: Host, fuel: nat)
    requires fuel >= n
    ensures PrintsLine(FactorialScript(n), host, Decimal(Factorial(n)), fuel)
  {
    var loop := While(Bin(AtMostOp, Var("i"), BigLit(n)), FactorialBody());
    var shows := Log(AsText(Var("f")));
    var env0: Env := map[];
    var env1 := env0["f" := BigV(1)];
    var env2 := env1["i" := BigV(2)];
    Assigns("f", BigLit(1), env0, [], fuel, host);
    InTurn(Assign("f", BigLit(1)), Then(Assign("i", BigLit(2)), Then(loop, shows)), env0, [], fuel, host);
    Assigns("i", BigLit(2), env1, [], fuel, host);
    InTurn(Assign("i", BigLit(2)), Then(loop, shows), env1, [], fuel, host);
    FactorialRound(env2, [], 2, n, fuel, host);
    InTurn(loop, shows, env2, [], fuel, host);
    AsTextVar("f", Exec(loop, env2, [], fuel, host).env, [], fuel, host);
  }

  lemma {:induction false} FibonacciBodyDoes(env: Env, out: seq<string>, x: int, y: int, i: int, fuel: nat, host: Host)
    requires "x" in env && "y" in env && "i" in env && env["x"] == BigV(x) && env["y"] == BigV(y)
        && env["i"] == NumV(Int(i))
    ensures Exec(FibonacciBody(), env, out, fuel, host)
         == Done(env["t" := BigV(x + y)]["x" := BigV(y)]["y" := BigV(x + y)]["i" := NumV(Int(i + 1))], out)
  {
    var env1 := env["t" := BigV(x + y)];
    var env2 := env1["x" := BigV(y)];
    var env3 := env2["y" := BigV(x + y)];
    var s4 := Assign("i", Bin(Plus, Var("i"), NumLit(1)));
    var s3, s2 := Then(Assign("y", Var("t")), s4), Then(Assign("x", Var("y")), Then(Assign("y", Var("t")), s4));
    BinVars(Plus, "x", "y", env, host);
    Assigns("t", Bin(Plus, Var("x"), Var("y")), env, out, fuel, host);
    InTurn(Assign("t", Bin(Plus, Var("x"), Var("y"))), s2, env, out, fuel, host);
    Assigns("x", Var("y"), env1, out, fuel, host);
    InTurn(Assign("x", Var("y")), s3, env1, out, fuel, host);
    Assigns("y", Var("t"), env2, out, fuel, host);
    InTurn(Assign("y", Var("t")), s4, env2, out, fuel, host);
    BinLit(Plus, "i", 1, env3, host);
    Assigns("i", Bin(Plus, Var("i"), NumLit(1)), env3, out, fuel, host);
  }

  lemma {:induction false} FibonacciRound(env: Env, out: seq<string>, i: nat, n: nat, fuel: nat, host: Host)
    requires "x" in env && "y" in env && "i" in env && i <= n
    requires env["x"] == BigV(Fib(i)) && env["y"] == BigV(Fib(i + 1)) && env["i"] == NumV(Int(i))
    requires fuel >= n - i
    ensures var r := Exec(While(Bin(Less, Var("i"), NumLit(n)), FibonacciBody()), env, out, fuel, host);
            r.Done? && r.out == out && "x" in r.env && r.env["x"] == BigV(Fib(n))
    decreases n - i
  {
    var c := Bin(Less, Var("i"), NumLit(n));
    BinLit(Less, "i", n, env, host);
    if i < n {
      FibonacciBodyDoes(env, out, Fib(i), Fib(i + 1), i, fuel, host);
      var env1 := Exec(FibonacciBody(), env, out, fuel, host).env;
      LoopGoesOn(c, FibonacciBody(), env, out, fuel, host, env1, out);
      FibonacciRound(env1, out, i + 1, n, fuel - 1, host);
    } else {
      LoopStops(c, FibonacciBody(), env, out, fuel, host);
    }
  }

  lemma {:induction false} FibonacciPrints(n: nat, host: Host, fuel: nat)
    requires fuel >= n
    ensures PrintsLine(FibonacciScript(n), host, Decimal(Fib(n)), fuel)
  {
    var loop := While(Bin(Less, Var("i"), NumLit(n)), FibonacciBody());
    var shows := Log(AsText(Var("x")));
    var s2, s1 := Then(Assign("i", NumLit(0)), Then(loop, shows)),
        Then(Assign("y", BigLit(1)), Then(Assign("i", NumLit(0)), Then(loop, shows)));
    var env0: Env := map[];
    var env1 := env0["x" := BigV(0)];
    var env2 := env1["y" := BigV(1)];
    var env3 := env2["i" := NumV(Int(0))];
    Assigns("x", BigLit(0), env0, [], fuel, host);
    InTurn(Assign("x", BigLit(0)), s1, env0, [], fuel, host);
    Assigns("y", BigLit(1), env1, [], fuel, host);
    InTurn(Assign("y", BigLit(1)), s2, env1, [], fuel, host);
    Assigns("i", NumLit(0), env2, [], fuel, host);
    InTurn(Assign("i", NumLit(0)), Then(loop, shows), env2, [], fuel, host);
    FibonacciRound(env3, [], 0, n, fuel, host);
    InTurn(loop, shows, env3, [], fuel, host);
    AsTextVar("x", Exec(loop, env3, [], fuel, host).env, [], fuel, host);
  }

  function DividesTest(): Expr {
    Bin(Same, Bin(Percent, Var("n"), Var("i")), NumLit(0))
  }

  lemma {:induction false} DividesTestDoes(env: Env, n: int, i: int, host: Host)
    requires "n" in env && "i" in env && env["n"] == NumV(Int(n)) && env["i"] == NumV(Int(i)) && n >= 2 && i >= 2
    ensures Eval(DividesTest(), env, host) == Some(BoolV(n % i == 0))
  {
    BinVars(Percent, "n", "i", env, host);
    assert JsRem(Int(n), Int(i)) == Int(n % i);
    assert Eval(Bin(Percent, Var("n"), Var("i")), env, host) == Some(NumV(Int(n % i)));
    assert Eval(NumLit(0), env, host) == Some(NumV(Int(0)));
  }

  lemma {:induction false} IsPrimeBodyDoes(env: Env, out: seq<string>, n: int, i: int, fuel: nat, host: Host)
    requires "n" in env && "i" in env && env["n"] == NumV(Int(n)) && env["i"] == NumV(Int(i)) && n >= 2 && i >= 2
    ensures Exec(IsPrimeBody(), env, out, fuel, host)
         == if n % i == 0 then Broke(env["p" := BoolV(false)], out) else Done(env["i" := NumV(Int(i + 1))], out)
  {
    var found := Then(Assign("p", BoolLit(false)), Break);
    var test := If(DividesTest(), found, Skip);
    var next := Assign("i", Bin(Plus, Var("i"), NumLit(1)));
    DividesTestDoes(env, n, i, host);
    Assigns("p", BoolLit(false), env, out, fuel, host);
    InTurn(Assign("p", BoolLit(false)), Break, env, out, fuel, host);
    BinLit(Plus, "i", 1, env, host);
    Assigns("i", Bin(Plus, Var("i"), NumLit(1)), env, out, fuel, host);
    assert Exec(test, env, out, fuel, host)
        == if n % i == 0 then Exec(found, env, out, fuel, host) else Done(env, out);
    InTurn(test, next, env, out, fuel, host);
  }

  function RootTest(): Expr {
    Bin(AtMostOp, Var("i"), Sqrt(Var("n")))
  }

  lemma {:induction false} RootTestDoes(env: Env, n: int, i: int, host: Host)
    requires "n" in env && "i" in env && env["n"] == NumV(Int(n)) && env["i"] == NumV(Int(i))
    ensures Eval(RootTest(), env, host) == Some(BoolV(AtMost(i, host.root(Int(n)))))
  {
    assert Eval(Var("n"), env, host) == Some(env["n"]) && Eval(Var("i"), env, host) == Some(env["i"]);
    assert Eval(Sqrt(Var("n")), env, host) == Some(NumV(host.root(Int(n))));
  }

  lemma {:induction false} IsPrimeRound(env: Env, out: seq<string>, i: int, n: int, fuel: nat, host: Host)
    requires RootBounds(host, n) && n >= 2 && 2 <= i && (forall k :: 2 <= k < i ==> n % k != 0)
    requires "n" in env && "i" in env && "p" in env
    requires env["n"] == NumV(Int(n)) && env["i"] == NumV(Int(i)) && env["p"] == BoolV(true)
    requires i <= n && fuel >= n - i
    ensures var r := Exec(While(RootTest(), IsPrimeBody()), env, out, fuel, host);
            r.Done? && r.out == out && "p" in r.env && r.env["p"] == BoolV(Prime(n))
    decreases n - i
  {
    RootTestDoes(env, n, i, host);
    if AtMost(i, host.root(Int(n))) {
      IsPrimeBodyDoes(env, out, n, i, fuel, host);
      if n % i == 0 {
        LoopStops(RootTest(), IsPrimeBody(), env, out, fuel, host);
      } else {
        var env1 := env["i" := NumV(Int(i + 1))];
        LoopGoesOn(RootTest(), IsPrimeBody(), env, out, fuel, host, env1, out);
        IsPrimeRound(env1, out, i + 1, n, fuel - 1, host);
      }
    } else {
      LoopStops(RootTest(), IsPrimeBody(), env, out, fuel, host);
      NoSmallDivisor(n, i, host);
    }
  }

  lemma {:induction false} IsPrimePrints(n: int, host: Host, fuel: nat)
    requires RootBounds(host, n) && fuel >= n
    ensures PrintsLine(IsPrimeScript(n), host, BoolText(Prime(n)), fuel)
  {
    var loop := While(RootTest(), IsPrimeBody());
    var shows := Log(AsText(Var("p")));
    var s3 := Then(Assign("i", NumLit(2)), Then(loop, shows));
    var s2 := Then(Assign("p", BoolLit(true)), s3);
    var small := Bin(Less, Var("n"), NumLit(2));
    var choice := If(small, Log(TextLit("false")), s2);
    var env0: Env := map[];
    var env1 := env0["n" := NumV(Int(n))];
    var env2 := env1["p" := BoolV(true)];
    var env3 := env2["i" := NumV(Int(2))];
    Assigns("n", NumLit(n), env0, [], fuel, host);
    InTurn(Assign("n", NumLit(n)), choice, env0, [], fuel, host);
    BinLit(Less, "n", 2, env1, host);
    if n < 2 {
      assert Exec(choice, env1, [], fuel, host) == Exec(Log(TextLit("false")), env1, [], fuel, host);
    } else {
      assert Exec(choice, env1, [], fuel, host) == Exec(s2, env1, [], fuel, host);
      Assigns("p", BoolLit(true), env1, [], fuel, host);
      InTurn(Assign("p", BoolLit(true)), s3, env1, [], fuel, host);
      Assigns("i", NumLit(2), env2, [], fuel, host);
      InTurn(Assign("i", NumLit(2)), Then(loop, shows), env2, [], fuel, host);
      IsPrimeRound(env3, [], 2, n, fuel, host);
      InTurn(loop, shows, env3, [], fuel, host);
      AsTextVar("p", Exec(loop, env3, [], fuel, host).env, [], fuel, host);
    }
  }

  lemma {:induction false} GcdBodyDoes(env: Env, out: seq<string>, x: nat, y: nat, fuel: nat, host: Host)
    requires "x" in env && "y" in env && env["x"] == NumV(Int(x)) && env["y"] == NumV(Int(y)) && y > 0
    ensures Exec(GcdBody(), env, out, fuel, host)
         == Done(env["t" := NumV(Int(y))]["y" := NumV(Int(x % y))]["x" := NumV(Int(y))], out)
  {
    var env1 := env["t" := NumV(Int(y))];
    var env2 := env1["y" := NumV(Int(x % y))];
    var s3 := Assign("x", Var("t"));
    var s2 := Then(Assign("y", Bin(Percent, Var("x"), Var("y"))), s3);
    Assigns("t", Var("y"), env, out, fuel, host);
    InTurn(Assign("t", Var("y")), s2, env, out, fuel, host);
    BinVars(Percent, "x", "y", env1, host);
    assert JsRem(Int(x), Int(y)) == Int(x % y);
    Assigns("y", Bin(Percent, Var("x"), Var("y")), env1, out, fuel, host);
    InTurn(Assign("y", Bin(Percent, Var("x"), Var("y"))), s3, env1, out, fuel, host);
    Assigns("x", Var("t"), env2, out, fuel, host);
  }

  lemma {:induction false} GcdRound(env: Env, out: seq<string>, x: nat, y: nat, fuel: nat, host: Host)
    requires "x" in env && "y" in env && env["x"] == NumV(Int(x)) && env["y"] == NumV(Int(y)) && fuel >= y
    ensures var r := Exec(While(Var("y"), GcdBody()), env, out, fuel, host);
            r.Done? && r.out == out && "x" in r.env && r.env["x"] == NumV(Int(Gcd(x, y)))
    decreases y
  {
    assert Eval(Var("y"), env, host) == Some(env["y"]);
    if y > 0 {
      GcdBodyDoes(env, out, x, y, fuel, host);
      var env1 := Exec(GcdBody(), env, out, fuel, host).env;
      LoopGoesOn(Var("y"), GcdBody(), env, out, fuel, host, env1, out);
      GcdRound(env1, out, y, x % y, fuel - 1, host);
    } else {
      LoopStops(Var("y"), GcdBody(), env, out, fuel, host);
    }
  }

  lemma {:induction false} GcdPrints(x: nat, y: nat, host: Host, fuel: nat)
    requires fuel >= y
    ensures PrintsLine(GcdScript(x, y), host, Decimal(Gcd(x, y)), fuel)
  {
    var loop, shows := While(Var("y"), GcdBody()), Log(Var("x"));
    var env0: Env := map[];
    var env1 := env0["x" := NumV(Int(x))];
    var env2 := env1["y" := NumV(Int(y))];
    Assigns("x", NumLit(x), env0, [], fuel, host);
    InTurn(Assign("x", NumLit(x)), Then(Assign("y", NumLit(y)), Then(loop, shows)), env0, [], fuel, host);
    Assigns("y", NumLit(y), env1, [], fuel, host);
    InTurn(Assign("y", NumLit(y)), Then(loop, shows), env1, [], fuel, host);
    GcdRound(env2, [], x, y, fuel, host);
    InTurn(loop, shows, env2, [], fuel, host);
    var env3 := Exec(loop, env2, [], fuel, host).env;
    assert Eval(Var("x"), env3, host) == Some(NumV(Int(Gcd(x, y))));
  }
}
