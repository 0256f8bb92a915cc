/** What values expressions come to, told by what operators undo and keep of one another (expression.rs). */
module ExpressionLaws {
  import opened Expressions
  import opened ExpressionValues
  import Parsers = ExpressionParsers

  predicate Safe(n: int) {
    -MAX_SAFE_INTEGER <= n <= MAX_SAFE_INTEGER
  }

  /** Whether an expression comes to an integer, which a column or a result is only if JavaScript holds it exactly. */
  predicate IsInt(w: World, e: Expression, n: int) {
    Evaluate(w, e) == Ok(Int(n)) && Safe(n)
  }

  const ZERO := Literal(Int(0))
  const ONE := Literal(Int(1))

  /** A column is the row's, and one of `EXCLUDED` the proposed row's. */
  lemma ColumnsAre(w: World, column: Column, name: Name)
    ensures Evaluate(w, Stored(column)) == Ok(w.stored(column))
    ensures Evaluate(w, Excluded(name)) == Ok(w.excluded(name))
  {
  }

  /** A failure of the left side comes first, and NULL on either side gives NULL. */
  lemma SidesFirst(w: World, operator: Operator, left: Expression, right: Expression)
    ensures var l, r, result := Evaluate(w, left), Evaluate(w, right), Evaluate(w, Binary(operator, left, right));
            && (l.Err? ==> result == l) && (l.Ok? && r.Err? ==> result == r)
            && (l.Ok? && r.Ok? && (l.value.Null? || r.value.Null?) ==> result == Ok(Null))
  {
  }

  /** Adding nothing changes nothing, and adding one is the next integer, if there is one. */
  lemma AddSteps(w: World, e: Expression, n: int)
    requires IsInt(w, e, n)
    ensures Evaluate(w, Binary(Add, e, ZERO)) == Evaluate(w, Binary(Add, ZERO, e)) == Evaluate(w, e)
    ensures Evaluate(w, Binary(Add, e, ONE)) == if n < MAX_SAFE_INTEGER then Ok(Int(n + 1)) else Err(Overflow)
    ensures Evaluate(w, Binary(Subtract, e, ONE)) == if n > -MAX_SAFE_INTEGER then Ok(Int(n - 1)) else Err(Overflow)
  {
  }

  /** A sum may be grouped as one likes, where none of its parts overflows, and taken in either order. */
  lemma AddGroups(w: World, a: Expression, b: Expression, c: Expression)
    requires exists i, j, k :: IsInt(w, a, i) && IsInt(w, b, j) && IsInt(w, c, k)
    ensures Evaluate(w, Binary(Add, a, b)) == Evaluate(w, Binary(Add, b, a))
    ensures var ab, bc := Binary(Add, a, b), Binary(Add, b, c);
            Evaluate(w, ab).Ok? && Evaluate(w, bc).Ok? ==>
              Evaluate(w, Binary(Add, ab, c)) == Evaluate(w, Binary(Add, a, bc))
  {
  }

  /** Subtraction undoes addition and addition subtraction, and a negation is what adds to nothing. */
  lemma SubtractUndoes(w: World, a: Expression, b: Expression, i: int, j: int)
    requires IsInt(w, a, i) && IsInt(w, b, j)
    ensures var less := Binary(Subtract, a, b);
            Evaluate(w, less).Ok? ==> Evaluate(w, Binary(Add, less, b)) == Evaluate(w, a)
    ensures var more := Binary(Add, a, b);
            Evaluate(w, more).Ok? ==> Evaluate(w, Binary(Subtract, more, b)) == Evaluate(w, a)
    ensures Evaluate(w, Negate(b)).Ok? && Evaluate(w, Binary(Add, b, Negate(b))) == Ok(Int(0))
    ensures Evaluate(w, Binary(Add, a, Negate(b))) == Evaluate(w, Binary(Subtract, a, b))
  {
  }

  /** Multiplication has one for its unit and distributes over addition, where no part overflows. */
  lemma MultiplyDistributes(w: World, a: Expression, b: Expression, c: Expression, i: int, j: int, k: int)
    requires IsInt(w, a, i) && IsInt(w, b, j) && IsInt(w, c, k)
    ensures Evaluate(w, Binary(Multiply, a, ONE)) == Evaluate(w, a)
    ensures Evaluate(w, Binary(Multiply, a, b)) == Evaluate(w, Binary(Multiply, b, a))
    ensures var (ab, ac, bc) := (Binary(Multiply, a, b), Binary(Multiply, a, c), Binary(Add, b, c));
            Evaluate(w, ab).Ok? && Evaluate(w, ac).Ok? && Evaluate(w, bc).Ok? ==>
              Evaluate(w, Binary(Multiply, a, bc)) == Evaluate(w, Binary(Add, ab, ac))
  {
    assert i * j == j * i;
    assert i * (j + k) == i * j + i * k;
  }

  /** A quotient times its divisor, and the remainder, are the dividend. Neither ever overflows, and both fail exactly
      where the divisor is zero. */
  lemma DivideUndone(w: World, a: Expression, b: Expression, i: int, j: int)
    requires IsInt(w, a, i) && IsInt(w, b, j)
    ensures var (quotient, rest) := (Binary(Divide, a, b), Binary(Remainder, a, b));
            if j == 0 then Evaluate(w, quotient) == Evaluate(w, rest) == Err(DivisionByZero)
            else
              && Evaluate(w, quotient).Ok? && Evaluate(w, rest).Ok? && Evaluate(w, rest).value.Int?
              && (if i >= 0 then 0 <= Evaluate(w, rest).value.n else Evaluate(w, rest).value.n <= 0)
              && -(if j > 0 then j else -j) < Evaluate(w, rest).value.n < (if j > 0 then j else -j)
              && Evaluate(w, Binary(Add, Binary(Multiply, quotient, b), rest)) == Evaluate(w, a)
  {
    if j != 0 {
      var q := Quotient(i, j);
      QuotientSmall(i, j);
      assert j * q == q * j;
      assert Evaluate(w, Binary(Divide, a, b)) == Ok(Int(q));
      assert Evaluate(w, Binary(Remainder, a, b)) == Ok(Int(i - j * q));
    }
  }

  /** Neither the quotient nor its product with the divisor is further from zero than the dividend. */
  lemma QuotientSmall(a: int, b: int)
    requires b != 0 && Safe(a) && Safe(b)
    ensures Safe(Quotient(a, b)) && Safe(b * Quotient(a, b)) && Safe(a - b * Quotient(a, b))
  {
    var (m, n) := (if a >= 0 then a else -a, if b > 0 then b else -b);
    Divided(m, n);
    var q, k := Quotient(a, b), m / n;
    assert q == k || q == -k;
    Bounded(m, n, k);
    Signs(b, q, n, k);
  }

  lemma Bounded(m: nat, n: nat, k: int)
    requires n > 0 && 0 <= m - n * k < n
    ensures 0 <= k <= n * k <= m
  {
    assert k < 0 ==> n * k <= n * -1;
    assert k >= 0 ==> k <= n * k;
  }

  lemma Signs(b: int, q: int, n: int, k: int)
    requires (b == n || b == -n) && (q == k || q == -k)
    ensures b * q == n * k || b * q == -(n * k)
  {
    assert -n * k == -(n * k) && n * -k == -(n * k) && -n * -k == n * k;
  }

  /** Sums, differences and products overflow exactly where JavaScript does not hold them exactly. */
  lemma OverflowsExactly(w: World, a: Expression, b: Expression, i: int, j: int)
    requires IsInt(w, a, i) && IsInt(w, b, j)
    ensures Evaluate(w, Binary(Add, a, b)) == Err(Overflow) <==> !Safe(i + j)
    ensures Evaluate(w, Binary(Subtract, a, b)) == Err(Overflow) <==> !Safe(i - j)
    ensures Evaluate(w, Binary(Multiply, a, b)) == Err(Overflow) <==> !Safe(i * j)
    ensures forall operator :: operator in {Add, Subtract, Multiply} ==>
              Evaluate(w, Binary(operator, a, b)).Ok? || Evaluate(w, Binary(operator, a, b)) == Err(Overflow)
  {
  }

  /** Texts join one after the other, or are too long together. */
  lemma Concatenates(w: World, a: Expression, b: Expression)
    requires Evaluate(w, a).Ok? && Evaluate(w, a).value.Text? && Evaluate(w, b).Ok? && Evaluate(w, b).value.Text?
    ensures var (s, t, result) := (Evaluate(w, a).value.bytes, Evaluate(w, b).value.bytes,
                                   Evaluate(w, Binary(Concatenate, a, b)));
            if |s| + |t| > MAX_LOGICAL_VALUE_BYTES then result == Err(TooLong)
            else result.Ok? && result.value.Text? && |result.value.bytes| == |s| + |t| &&
                 s <= result.value.bytes && result.value.bytes[|s|..] == t
  {
  }

  /** With a float, an operator but `%` gives what it makes of the two numbers as they stand. */
  lemma FloatsAsGiven(w: World, operator: Operator, a: Expression, b: Expression)
    requires Evaluate(w, a).Ok? && Evaluate(w, b).Ok? && operator != Concatenate && operator != Remainder
    requires (Evaluate(w, a).value.Float? && (Evaluate(w, b).value.Float? || Evaluate(w, b).value.Int?)) ||
             (Evaluate(w, a).value.Int? && Evaluate(w, b).value.Float?)
    ensures Evaluate(w, Binary(operator, a, b)) == w.float(operator, Evaluate(w, a).value, Evaluate(w, b).value)
  {
  }

  /** The types of two values are refused exactly where an operator cannot take the values. */
  lemma RefusedExactly(w: World, operator: Operator, a: Value, b: Value)
    requires Typed(w) && !a.Null? && !b.Null?
    ensures OperandTypes(operator, TypeOf(a), TypeOf(b)).Err? <==>
            Evaluate(w, Binary(operator, Literal(a), Literal(b))) == Err(Mismatch)
  {
    if !(a.Int? && b.Int?) && (a.Int? || a.Float?) && (b.Int? || b.Float?) {
      assert match w.float(operator, a, b)
        case Ok(v) => v.Float?
        case Err(error) => error == Overflow || error == DivisionByZero;
    }
  }

  /** The token of each operator, and how tightly it binds. */
  predicate Means(token: Token, operator: Operator, level: nat) {
    (token, operator, level) in [(Concat, Concatenate, 0), (Plus, Add, 1), (Minus, Subtract, 1),
                                 (Star, Multiply, 2), (Slash, Divide, 2), (Percent, Remainder, 2)]
  }

  /** Three literals and two operators, the tighter nearer, or the first where they are as tight. */
  function Grouped(a: Value, b: Value, c: Value, f: Operator, i: nat, g: Operator, j: nat): Expression {
    var (x, y, z) := (Literal(a), Literal(b), Literal(c));
    if i >= j then Binary(g, Binary(f, x, y), z) else Binary(f, x, Binary(g, y, z))
  }

  /** What is read of three constants with operators between them: the tighter one's operands are its neighbours, and of
      two as tight, the first one's. */
  lemma OperatorsMean(reader: Reader, a: Value, b: Value, c: Value, first: Token, f: Operator, i: nat, second: Token,
                      g: Operator, j: nat)
    requires Means(first, f, i) && Means(second, g, j)
    ensures var tokens := [Constant(Some(a)), first, Constant(Some(b)), second, Constant(Some(c))];
            Parsers.Concatenation(reader, tokens, 0, 0) == Parsers.Done(Grouped(a, b, c, f, i, g, j), [], 5)
  {
    hide Print, Depth, Nodes, Parsers.Concatenation;
    var w := Writer(reader.names, value => None);
    var e := Grouped(a, b, c, f, i, g, j);
    PrintsTriple(w, a, b, c, f, i, g, j);
    SmallTriple(a, b, c, f, i, g, j);
    Parsers.RoundTrip(reader, w, e);
  }

  lemma PrintsTriple(w: Writer, a: Value, b: Value, c: Value, f: Operator, i: nat, g: Operator, j: nat)
    requires w.number(a) == w.number(b) == w.number(c) == None && LevelOf(f) == i && LevelOf(g) == j
    ensures Print(Grouped(a, b, c, f, i, g, j), 0, w) ==
            [Constant(Some(a)), Symbol(f), Constant(Some(b)), Symbol(g), Constant(Some(c))]
  {
    if i >= j {
      PrintsPair(w, f, a, b, j);
      assert Print(Literal(c), j + 1, w) == [Constant(Some(c))];
    } else {
      PrintsPair(w, g, b, c, i + 1);
      assert Print(Literal(a), i, w) == [Constant(Some(a))];
    }
  }

  lemma SmallTriple(a: Value, b: Value, c: Value, f: Operator, i: nat, g: Operator, j: nat)
    requires LevelOf(f) == i && LevelOf(g) == j
    ensures var e := Grouped(a, b, c, f, i, g, j); Depth(e, 0) == 0 && Nodes(e) == 5
  {
    var (first, last) := (Binary(f, Literal(a), Literal(b)), Binary(g, Literal(b), Literal(c)));
    assert i >= j ==> Depth(first, j) == 0;
    assert i < j ==> Depth(last, i + 1) == 0;
    assert Nodes(first) == 3 && Nodes(last) == 3;
  }

  lemma PrintsPair(w: Writer, operator: Operator, a: Value, b: Value, level: nat)
    requires w.number(a) == w.number(b) == None && level <= LevelOf(operator)
    ensures Print(Binary(operator, Literal(a), Literal(b)), level, w) ==
            [Constant(Some(a)), Symbol(operator), Constant(Some(b))]
  {
    assert Print(Literal(a), LevelOf(operator), w) == [Constant(Some(a))];
    assert Print(Literal(b), LevelOf(operator) + 1, w) == [Constant(Some(b))];
  }

  /** A comparison is folded exactly where one side is a column and the other is a literal, or reads no row and comes to
      a value. */
  lemma FoldsExactly(w: World, left: Expression, operator: Comparison, right: Expression)
    ensures Folded(w, left, operator, right).Some? <==>
            if left.Stored? then IsKnown(w, right) else right.Stored? && IsKnown(w, left)
  {
  }

  predicate IsKnown(w: World, e: Expression) {
    e.Literal? || (!ReadsRow(e) && ValueType(w, e).Ok? && Evaluate(w, e).Ok?)
  }
}
