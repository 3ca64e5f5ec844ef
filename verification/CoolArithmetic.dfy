/** What the operators of Cool compute, in terms of the numbers that their operands evaluate to. */
module CoolArithmetic {
  import opened CoolNames
  import opened CoolSyntax
  import opened CoolSemantics
  import opened SemanticsEquations

  /** The numbers of 32 bits. */
  predicate Fits(n: int) {
    -2147483648 <= n <= 2147483647
  }

  /** The sum: in either order, with unit 0, one more with either operand; a trap when it does not fit. */
  lemma AddLaws(a: int, b: int)
    ensures ArithValue(OpAdd, a, b) == ArithValue(OpAdd, b, a)
    ensures ArithValue(OpAdd, a, 0) == if Fits(a) then Number(a) else Trap
    ensures forall n :: ArithValue(OpAdd, a, b) == Number(n) && Fits(n + 1) ==>
      ArithValue(OpAdd, a + 1, b) == Number(n + 1) && ArithValue(OpAdd, a, b + 1) == Number(n + 1)
    ensures ArithValue(OpAdd, a, b) == if Fits(a + b) then Number(a + b) else Trap
  {
  }

  /** The difference is what has to be added to b to give a. */
  lemma SubLaws(a: int, b: int)
    requires Fits(a)
    ensures forall n :: ArithValue(OpSub, a, b) == Number(n) ==> ArithValue(OpAdd, b, n) == Number(a)
    ensures ArithValue(OpSub, a, b) == if Fits(a - b) then Number(a - b) else Trap
  {
  }

  /** The product modulo 2^32. */
  predicate IsProduct(a: int, b: int, n: int) {
    Fits(n) && (n - a * b) % 4294967296 == 0
  }

  lemma MulLaws(a: int, b: int)
    ensures ArithValue(OpMul, a, b).Number? && IsProduct(a, b, ArithValue(OpMul, a, b).n)
    ensures forall n :: IsProduct(a, b, n) ==> ArithValue(OpMul, a, b) == Number(n)
    ensures ArithValue(OpMul, a, b) == ArithValue(OpMul, b, a)
    ensures Fits(a * b) ==> ArithValue(OpMul, a, b) == Number(a * b)
  {
    OneProduct(a, b, a * b);
    forall n | IsProduct(a, b, n) ensures ArithValue(OpMul, a, b) == Number(n) {
      OneProduct(a, b, n);
    }
  }

  lemma OneProduct(a: int, b: int, n: int)
    ensures IsProduct(a, b, n) ==> Wrap(a * b) == n
  {
    var p, w := a * b, Wrap(a * b);
    if IsProduct(a, b, n) {
      var j, k := (n - p) / 4294967296, (w - p) / 4294967296;
      assert n - p == 4294967296 * j && w - p == 4294967296 * k;
      assert n - w == 4294967296 * (j - k);
    }
  }

  /** The quotient, truncated toward zero: the remainder is smaller than the divisor and has the sign of the dividend. */
  predicate IsQuotient(a: int, b: int, q: int) {
    var r := a - q * b;
    (if b > 0 then -b < r < b else b < r < -b) && (r < 0 ==> a < 0) && (r > 0 ==> a > 0)
  }

  /** The quotient and remainder of Dafny, where the remainder is never negative. */
  lemma Remainder(x: int, b: int) returns (k: int)
    requires b != 0
    ensures k == x / b && 0 <= x - k * b && (x - k * b < b || x - k * b < -b)
  {
    k := x / b;
    assert x == b * k + x % b;
  }

  lemma QuotientExact(a: int, b: int)
    requires b != 0
    ensures IsQuotient(a, b, Quot(a, b))
  {
    if a >= 0 {
      var k := Remainder(a, b);
      Truncated(a, b, k);
    } else {
      var k := Remainder(-a, b);
      Truncated(-a, b, k);
      assert (-k) * b == -(k * b);
    }
  }

  lemma Truncated(x: int, b: int, k: int)
    requires x >= 0 && b != 0 && 0 <= x - k * b && (x - k * b < b || x - k * b < -b)
    ensures IsQuotient(x, b, k) && x - k * b <= x
  {
    Multiples(k, b);
  }

  /** A multiple that is not 0 is at least as large as the divisor. */
  lemma Multiples(d: int, b: int)
    ensures d >= 1 && b > 0 ==> d * b >= b
    ensures d >= 1 && b < 0 ==> d * b <= b
    ensures d <= -1 && b > 0 ==> d * b <= -b
    ensures d <= -1 && b < 0 ==> d * b >= -b
  {
    assert (d - 1) * b == d * b - b && (d + 1) * b == d * b + b;
  }

  /** No other number is the quotient. */
  lemma OneQuotient(a: int, b: int, q: int, q': int)
    requires b != 0
    ensures IsQuotient(a, b, q) && IsQuotient(a, b, q') ==> q == q'
  {
    Multiples(q - q', b);
    assert (q - q') * b == q * b - q' * b;
  }

  /** Division: a fault exactly on zero, and one quotient does not fit. */
  lemma DivLaws(a: int, b: int)
    requires Fits(a) && Fits(b)
    ensures ArithValue(OpDiv, a, b).Trap? <==> b == 0
    ensures forall q :: b != 0 && IsQuotient(a, b, q) ==>
      ArithValue(OpDiv, a, b) == Number(if a == -2147483648 && b == -1 then -2147483648 else q)
    ensures b != 0 ==> exists q :: IsQuotient(a, b, q)
  {
    if b != 0 {
      QuotientExact(a, b);
      QuotientSize(a, b);
      forall q | IsQuotient(a, b, q) ensures q == Quot(a, b) {
        OneQuotient(a, b, q, Quot(a, b));
      }
    }
  }

  lemma QuotientSize(a: int, b: int)
    requires Fits(a) && Fits(b) && b != 0
    ensures Wrap(Quot(a, b)) == if a == -2147483648 && b == -1 then -2147483648 else Quot(a, b)
  {
    hide Quot;
    QuotientExact(a, b);
    if b != 1 && b != -1 {
      SmallQuotient(a, b, Quot(a, b));
    } else {
      OneQuotient(a, b, Quot(a, b), if b == 1 then a else -a);
    }
    WrapFits(Quot(a, b));
  }

  lemma WrapFits(q: int)
    ensures Fits(q) ==> Wrap(q) == q
    ensures Wrap(2147483648) == -2147483648
  {
  }

  lemma SmallQuotient(a: int, b: int, q: int)
    requires Fits(a) && b != 0 && b != 1 && b != -1 && IsQuotient(a, b, q)
    ensures Fits(q)
  {
    var r := a - q * b;
    if b > 1 {
      Multiples(b - 1, q);
      assert (b - 1) * q == q * b - q;
    } else {
      Multiples(-b - 1, q);
      assert (-b - 1) * q == -(q * b) - q;
    }
  }

  lemma CompareLaws(a: int, b: int)
    ensures CompareValue(Lt, a, b) <==> b - a > 0
    ensures CompareValue(Leq, a, b) <==> CompareValue(Lt, a, b) || a == b
    ensures CompareValue(Leq, a, b) <==> !CompareValue(Lt, b, a)
  {
  }

  // ---------------------------------------------------------------------------------------------
  // Expressions.

  /** `e1` evaluates to the number m, and then `e2` to n. */
  ghost predicate Operands(P: Program, fuel: nat, cls: ClassName, self: Value, env: Env, st: Store, e1: Expr, e2: Expr, m: int, n: int, env2: Env, st2: Store)
    requires Hierarchy(P)
  {
    var o := Eval(P, fuel, cls, self, env, st, e1);
    o.Val? && o.v == VInt(m) && Eval(P, fuel, cls, self, o.env, o.st, e2) == Val(VInt(n), env2, st2)
  }

  /** The value of an arithmetic expression, or the fault. */
  lemma ArithMeans(P: Program, fuel: nat, cls: ClassName, self: Value, env: Env, st: Store, op: ArithOp, e1: Expr, e2: Expr, m: int, n: int, env2: Env, st2: Store)
    requires Hierarchy(P) && Operands(P, fuel, cls, self, env, st, e1, e2, m, n, env2, st2) && Fits(m) && Fits(n)
    ensures var o := Eval(P, fuel, cls, self, env, st, Arith(op, e1, e2));
      match op
      case OpAdd => o == if Fits(m + n) then Val(VInt(m + n), env2, st2) else Abort(ArithFault, st2.out)
      case OpSub => o == if Fits(m - n) then Val(VInt(m - n), env2, st2) else Abort(ArithFault, st2.out)
      case OpMul => exists k :: IsProduct(m, n, k) && o == Val(VInt(k), env2, st2)
      case OpDiv =>
        if n == 0 then o == Abort(ArithFault, st2.out)
        else exists q :: IsQuotient(m, n, q) && o == Val(VInt(if m == -2147483648 && n == -1 then -2147483648 else q), env2, st2)
  {
    hide Hierarchy, Eval, ArithValue, IsProduct, IsQuotient;
    EvalArith(P, fuel, cls, self, env, st, Arith(op, e1, e2));
    match op
    case OpAdd => AddLaws(m, n);
    case OpSub => SubLaws(m, n);
    case OpMul => MulLaws(m, n);
    case OpDiv => DivLaws(m, n);
  }

  lemma CompareMeans(P: Program, fuel: nat, cls: ClassName, self: Value, env: Env, st: Store, cmp: CmpOp, e1: Expr, e2: Expr, m: int, n: int, env2: Env, st2: Store)
    requires Hierarchy(P) && Operands(P, fuel, cls, self, env, st, e1, e2, m, n, env2, st2)
    ensures Eval(P, fuel, cls, self, env, st, Compare(cmp, e1, e2)) == Val(VBool(n - m > 0 || (cmp.Leq? && m == n)), env2, st2)
  {
    hide Hierarchy, Eval, CompareValue;
    EvalCompare(P, fuel, cls, self, env, st, Compare(cmp, e1, e2));
    CompareLaws(m, n);
  }

  lemma UnaryMeans(P: Program, fuel: nat, cls: ClassName, self: Value, env: Env, st: Store, e: Expr)
    requires Hierarchy(P) && Eval(P, fuel, cls, self, env, st, e).Val?
    ensures var o := Eval(P, fuel, cls, self, env, st, e);
      && (o.v.VInt? && Fits(o.v.n) ==>
            Eval(P, fuel, cls, self, env, st, Neg(e)) == (if Fits(-o.v.n) then Val(VInt(-o.v.n), o.env, o.st) else Abort(ArithFault, o.st.out)))
      && (o.v.VBool? ==> Eval(P, fuel, cls, self, env, st, Comp(e)) == Val(VBool(!o.v.b), o.env, o.st))
  {
    hide Hierarchy, Eval, ArithValue;
    var o := Eval(P, fuel, cls, self, env, st, e);
    EvalNeg(P, fuel, cls, self, env, st, Neg(e));
    EvalComp(P, fuel, cls, self, env, st, Comp(e));
    if o.v.VInt? {
      SubLaws(0, o.v.n);
    }
  }
}
