/** Scalar expressions, the tokens they are written with, and how one is printed (expression.rs). */
module Expressions {
  type Name = nat

  datatype Option<+T> = None | Some(value: T)

  /** A value. Text is its UTF-8 bytes, and a float or a JSON value is known by no more than which it is. */
  datatype Value = Null | Bool(b: bool) | Int(n: int) | Float(f: nat) | Text(bytes: seq<bv8>) | Json(j: nat)

  datatype Operator = Add | Subtract | Multiply | Divide | Remainder | Concatenate

  /** A column of the row, plain or behind a qualifier, or of the row an `INSERT ... ON CONFLICT` proposed. */
  datatype Column = Plain(name: Name) | Qualified(table: Name, name: Name)

  datatype Expression =
    | Literal(value: Value)
    | Stored(column: Column)
    | Excluded(name: Name)
    | Negate(operand: Expression)
    | Binary(operator: Operator, left: Expression, right: Expression)

  /** `Constant` is a string, a parameter or a keyword that stands for a value, if it stands for one; `Number` is a
      number's text, with the sign that the lexer reads as its own; an identifier is one that may name a column or not.
      */
  datatype Token =
    | Constant(value: Option<Value>)
    | Number(negative: bool, text: nat)
    | Identifier(name: Name, valid: bool)
    | Plus | Minus | Star | Slash | Percent | Concat | Dot | LParen | RParen | Other

  /** How an expression names columns: as a row's, or in `ON CONFLICT DO UPDATE`, with the table's name. */
  datatype Names = Row | Conflict(table: Name)

  const EXCLUDED: Name := 0

  /** What names and texts of numbers stand for. */
  datatype Reader = Reader(names: Names, number: (bool, nat) -> Option<Value>)

  /** How an expression is written: its columns by `names`, and each literal as a number's text, with or without a sign,
      or as a string, a parameter or a keyword. */
  datatype Writer = Writer(names: Names, number: Value -> Option<(bool, nat)>)
  {
    function Written(value: Value): Token {
      match number(value)
      case Some((negative, text)) => Number(negative, text)
      case None => Constant(Some(value))
    }
  }

  function Symbol(operator: Operator): Token {
    match operator
    case Add => Plus
    case Subtract => Minus
    case Multiply => Star
    case Divide => Slash
    case Remainder => Percent
    case Concatenate => Concat
  }

  /** How tightly an expression binds: `||`, then `+` and `-`, then `*`, `/` and `%`, then what needs no parentheses. */
  function Level(e: Expression): nat {
    if !e.Binary? then 3 else LevelOf(e.operator)
  }

  function LevelOf(operator: Operator): nat {
    match operator
    case Concatenate => 0
    case Add | Subtract => 1
    case _ => 2
  }

  /** An expression's tokens, in parentheses where it binds more loosely than `level`. Operators associate to the left.
      */
  function Print(e: Expression, level: nat, w: Writer): (tokens: seq<Token>)
    ensures |tokens| > 0
    decreases e, if Level(e) < level then 1 else 0
  {
    if Level(e) < level then [LParen] + Print(e, 0, w) + [RParen]
    else match e
      case Literal(value) => [w.Written(value)]
      case Stored(Plain(name)) => if w.names.Row? then [Identifier(name, true)]
                                  else [Identifier(w.names.table, true), Dot, Identifier(name, true)]
      case Stored(Qualified(table, name)) => [Identifier(table, true), Dot, Identifier(name, true)]
      case Excluded(name) => [Identifier(EXCLUDED, true), Dot, Identifier(name, true)]
      case Negate(operand) => [Minus] + Print(operand, 3, w)
      case Binary(operator, left, right) =>
        Print(left, LevelOf(operator), w) + [Symbol(operator)] + Print(right, LevelOf(operator) + 1, w)
  }

  /** Whether each column can be named: by itself in a row, and in a conflict by `EXCLUDED` or the table's name. */
  predicate Nameable(e: Expression, names: Names) {
    match e
    case Literal(_) => true
    case Stored(Plain(_)) => names.Row? || names.table != EXCLUDED
    case Stored(Qualified(table, _)) => names.Row? || (table != EXCLUDED && table != names.table)
    case Excluded(_) => names.Conflict?
    case Negate(operand) => Nameable(operand, names)
    case Binary(_, left, right) => Nameable(left, names) && Nameable(right, names)
  }

  /** Whether the text of each number that is written stands for it, sign and all. */
  predicate Readable(e: Expression, w: Writer, r: Reader) {
    match e
    case Literal(value) =>
      (match w.number(value)
       case Some((negative, text)) => r.number(negative, text) == Some(value)
       case None => true)
    case Negate(operand) => Readable(operand, w, r)
    case Binary(_, left, right) => Readable(left, w, r) && Readable(right, w, r)
    case _ => true
  }

  /** Whether what is written of an expression can be read. */
  predicate Legible(e: Expression, w: Writer, r: Reader) {
    w.names == r.names && Nameable(e, r.names) && Readable(e, w, r)
  }

  function Nodes(e: Expression): nat {
    match e
    case Negate(operand) => Nodes(operand) + 1
    case Binary(_, left, right) => Nodes(left) + Nodes(right) + 1
    case _ => 1
  }

  /** How deep in signs and parentheses the print of an expression is. */
  function Depth(e: Expression, level: nat): nat
    decreases e, if Level(e) < level then 1 else 0
  {
    if Level(e) < level then Depth(e, 0) + 1
    else match e
      case Negate(operand) => Depth(operand, 3) + 1
      case Binary(operator, left, right) =>
        var (l, r) := (Depth(left, LevelOf(operator)), Depth(right, LevelOf(operator) + 1));
        if l > r then l else r
      case _ => 0
  }
}

/** How an expression is parsed (expression.rs). */
module ExpressionParsers {
  import opened Expressions

  const MAX_EXPRESSION_NODES := 256
  const MAX_EXPRESSION_DEPTH := 32

  /** What is parsed of some tokens: an expression, the tokens after it, and the terms counted so far. */
  datatype Parsed = Done(expression: Expression, rest: seq<Token>, nodes: nat) | Failed

  function Counted(expression: Expression, rest: seq<Token>, nodes: nat): Parsed {
    if nodes + 1 > MAX_EXPRESSION_NODES then Failed else Done(expression, rest, nodes + 1)
  }

  predicate Starts(tokens: seq<Token>, token: Token) {
    tokens != [] && tokens[0] == token
  }

  function Concatenation(r: Reader, tokens: seq<Token>, depth: nat, nodes: nat): (result: Parsed)
    ensures result.Done? ==> |result.rest| < |tokens|
    decreases |tokens|, 4
  {
    match Additive(r, tokens, depth, nodes)
    case Failed => Failed
    case Done(left, rest, count) => ConcatenationFrom(r, left, rest, depth, count)
  }

  function ConcatenationFrom(r: Reader, left: Expression, tokens: seq<Token>, depth: nat, nodes: nat): (result: Parsed)
    ensures result.Done? ==> |result.rest| <= |tokens|
    decreases |tokens|, 0
  {
    if !Starts(tokens, Concat) then Done(left, tokens, nodes)
    else match Additive(r, tokens[1..], depth, nodes)
      case Failed => Failed
      case Done(right, rest, count) => match Counted(Binary(Concatenate, left, right), rest, count)
        case Failed => Failed
        case Done(joined, _, more) => ConcatenationFrom(r, joined, rest, depth, more)
  }

  function Additive(r: Reader, tokens: seq<Token>, depth: nat, nodes: nat): (result: Parsed)
    ensures result.Done? ==> |result.rest| < |tokens|
    decreases |tokens|, 3
  {
    match Multiplicative(r, tokens, depth, nodes)
    case Failed => Failed
    case Done(left, rest, count) => AdditiveFrom(r, left, rest, depth, count)
  }

  /** The operand after `+` or `-`. A number with a sign of its own is subtracted without it. */
  function Addend(r: Reader, tokens: seq<Token>, depth: nat, nodes: nat): (result: Option<(Operator, Parsed)>)
    ensures result.Some? && result.value.1.Done? ==> |result.value.1.rest| < |tokens|
    decreases |tokens|, 2
  {
    if Starts(tokens, Plus) then Some((Add, Multiplicative(r, tokens[1..], depth, nodes)))
    else if Starts(tokens, Minus) then Some((Subtract, Multiplicative(r, tokens[1..], depth, nodes)))
    else if tokens != [] && tokens[0].Number? && tokens[0].negative then
      match r.number(false, tokens[0].text)
      case None => Some((Subtract, Failed))
      case Some(value) => match Counted(Literal(value), tokens[1..], nodes)
        case Failed => Some((Subtract, Failed))
        case Done(first, _, count) => Some((Subtract, MultiplicativeFrom(r, first, tokens[1..], depth, count)))
    else None
  }

  function AdditiveFrom(r: Reader, left: Expression, tokens: seq<Token>, depth: nat, nodes: nat): (result: Parsed)
    ensures result.Done? ==> |result.rest| <= |tokens|
    decreases |tokens|, 3
  {
    match Addend(r, tokens, depth, nodes)
    case None => Done(left, tokens, nodes)
    case Some((_, Failed)) => Failed
    case Some((operator, Done(right, rest, count))) => match Counted(Binary(operator, left, right), rest, count)
      case Failed => Failed
      case Done(joined, _, more) => AdditiveFrom(r, joined, rest, depth, more)
  }

  function Multiplicative(r: Reader, tokens: seq<Token>, depth: nat, nodes: nat): (result: Parsed)
    ensures result.Done? ==> |result.rest| < |tokens|
    decreases |tokens|, 2
  {
    match Unary(r, tokens, depth, nodes)
    case Failed => Failed
    case Done(left, rest, count) => MultiplicativeFrom(r, left, rest, depth, count)
  }

  function Factor(tokens: seq<Token>): Option<Operator> {
    if Starts(tokens, Star) then Some(Multiply)
    else if Starts(tokens, Slash) then Some(Divide)
    else if Starts(tokens, Percent) then Some(Remainder)
    else None
  }

  function MultiplicativeFrom(r: Reader, left: Expression, tokens: seq<Token>, depth: nat, nodes: nat): (result: Parsed)
    ensures result.Done? ==> |result.rest| <= |tokens|
    decreases |tokens|, 1
  {
    match Factor(tokens)
    case None => Done(left, tokens, nodes)
    case Some(operator) => match Unary(r, tokens[1..], depth, nodes)
      case Failed => Failed
      case Done(right, rest, count) => match Counted(Binary(operator, left, right), rest, count)
        case Failed => Failed
        case Done(joined, _, more) => MultiplicativeFrom(r, joined, rest, depth, more)
  }

  function Unary(r: Reader, tokens: seq<Token>, depth: nat, nodes: nat): (result: Parsed)
    ensures result.Done? ==> |result.rest| < |tokens|
    decreases |tokens|, 1
  {
    if depth > MAX_EXPRESSION_DEPTH || tokens == [] then Failed
    else match tokens[0]
      case Minus => (match Unary(r, tokens[1..], depth + 1, nodes)
        case Failed => Failed
        case Done(operand, rest, count) => Counted(Negate(operand), rest, count))
      case Constant(value) => if value.Some? then Counted(Literal(value.value), tokens[1..], nodes) else Failed
      case Number(negative, text) =>
        var value := r.number(negative, text);
        if value.Some? then Counted(Literal(value.value), tokens[1..], nodes) else Failed
      case LParen => (match Concatenation(r, tokens[1..], depth + 1, nodes)
        case Failed => Failed
        case Done(inner, rest, count) => if Starts(rest, RParen) then Done(inner, rest[1..], count) else Failed)
      case Identifier(_, _) => ColumnName(r, tokens, nodes)
      case _ => Failed
  }

  function ColumnName(r: Reader, tokens: seq<Token>, nodes: nat): (result: Parsed)
    requires tokens != [] && tokens[0].Identifier?
    ensures result.Done? ==> |result.rest| < |tokens|
  {
    var first := tokens[0].name;
    if !tokens[0].valid || Starts(tokens[1..], LParen) then Failed
    else if !Starts(tokens[1..], Dot) then
      if r.names.Row? then Counted(Stored(Plain(first)), tokens[1..], nodes) else Failed
    else if |tokens| < 3 || !tokens[2].Identifier? || !tokens[2].valid || Starts(tokens[3..], Dot) then Failed
    else
      var second := tokens[2].name;
      var column :=
        if r.names.Conflict? && first == EXCLUDED then Excluded(second)
        else if r.names.Conflict? && first == r.names.table then Stored(Plain(second))
        else Stored(Qualified(first, second));
      Counted(column, tokens[3..], nodes)
  }

  /** Whether nothing after an expression goes on with it, at a level or one that binds more tightly. */
  predicate Ends(rest: seq<Token>, level: nat) {
    && !Starts(rest, Dot) && !Starts(rest, LParen)
    && (level <= 2 ==> Factor(rest).None?)
    && (level <= 1 ==>
          !Starts(rest, Plus) && !Starts(rest, Minus) && (rest != [] ==> !(rest[0].Number? && rest[0].negative)))
    && (level <= 0 ==> !Starts(rest, Concat))
  }

  /** The parse of one level, from its start and from after a left operand. */
  function Parse(r: Reader, level: nat, tokens: seq<Token>, depth: nat, nodes: nat): Parsed {
    if level == 0 then Concatenation(r, tokens, depth, nodes)
    else if level == 1 then Additive(r, tokens, depth, nodes)
    else if level == 2 then Multiplicative(r, tokens, depth, nodes)
    else Unary(r, tokens, depth, nodes)
  }

  function ParseFrom(r: Reader, level: nat, left: Expression, tokens: seq<Token>, depth: nat, nodes: nat): Parsed {
    if level == 0 then ConcatenationFrom(r, left, tokens, depth, nodes)
    else if level == 1 then AdditiveFrom(r, left, tokens, depth, nodes)
    else if level == 2 then MultiplicativeFrom(r, left, tokens, depth, nodes)
    else Done(left, tokens, nodes)
  }

  predicate Fits(e: Expression, level: nat, depth: nat, nodes: nat) {
    depth + Depth(e, level) <= MAX_EXPRESSION_DEPTH && nodes + Nodes(e) <= MAX_EXPRESSION_NODES
  }

  /** What parsing a print, and then going on from it, comes to: nothing, where it is too deep or has too many terms. */
  function Expected(r: Reader, e: Expression, level: nat, rest: seq<Token>, depth: nat, nodes: nat): Parsed {
    if Fits(e, level, depth, nodes) then ParseFrom(r, level, e, rest, depth, nodes + Nodes(e)) else Failed
  }

  lemma EndsDone(r: Reader, e: Expression, level: nat, rest: seq<Token>, depth: nat, nodes: nat)
    requires Ends(rest, level)
    ensures ParseFrom(r, level, e, rest, depth, nodes) == Done(e, rest, nodes)
  {
    if level == 0 {
      assert ConcatenationFrom(r, e, rest, depth, nodes) == Done(e, rest, nodes);
    } else if level == 1 {
      assert Addend(r, rest, depth, nodes) == None;
      assert AdditiveFrom(r, e, rest, depth, nodes) == Done(e, rest, nodes);
    } else if level == 2 {
      assert MultiplicativeFrom(r, e, rest, depth, nodes) == Done(e, rest, nodes);
    }
  }

  /** Parsing a print, whatever follows it that no tighter level goes on with, is going on from its expression. */
  lemma {:induction false} ParsePrint(r: Reader, w: Writer, e: Expression, level: nat, rest: seq<Token>, depth: nat,
                                      nodes: nat)
    requires level <= 3 && Legible(e, w, r) && Ends(rest, if level < 3 then level + 1 else 3)
    ensures Parse(r, level, Print(e, level, w) + rest, depth, nodes) == Expected(r, e, level, rest, depth, nodes)
    decreases e, if Level(e) < level then 1 else 0, 3 - level
  {
    hide Expected, Parse, Print;
    if level < 3 && Level(e) != level {
      ParsePrint(r, w, e, level + 1, rest, depth, nodes);
      Looser(r, w, e, level, rest, depth, nodes);
    } else if level < 3 {
      var after := [Symbol(e.operator)] + Print(e.right, level + 1, w) + rest;
      SymbolEnds(e.operator, Print(e.right, level + 1, w) + rest);
      assert after == [Symbol(e.operator)] + (Print(e.right, level + 1, w) + rest);
      ParsePrint(r, w, e.left, level, after, depth, nodes);
      ParsePrint(r, w, e.right, level + 1, rest, depth, nodes + Nodes(e.left));
      Joins(r, w, e, level, rest, depth, nodes);
    } else if Level(e) < 3 {
      ParsePrint(r, w, e, 0, [RParen] + rest, depth + 1, nodes);
      Encloses(r, w, e, rest, depth, nodes);
    } else if e.Negate? {
      ParsePrint(r, w, e.operand, 3, rest, depth + 1, nodes);
      Negates(r, w, e, rest, depth, nodes);
    } else {
      Atoms(r, w, e, rest, depth, nodes);
    }
  }

  lemma SymbolEnds(operator: Operator, rest: seq<Token>)
    ensures Ends([Symbol(operator)] + rest, LevelOf(operator) + 1)
  {
  }

  /** A level that the expression does not join goes on from the next, which stopped. */
  lemma Looser(r: Reader, w: Writer, e: Expression, level: nat, rest: seq<Token>, depth: nat, nodes: nat)
    requires level < 3 && Level(e) != level && Ends(rest, level + 1)
    requires Parse(r, level + 1, Print(e, level + 1, w) + rest, depth, nodes) ==
             Expected(r, e, level + 1, rest, depth, nodes)
    ensures Parse(r, level, Print(e, level, w) + rest, depth, nodes) == Expected(r, e, level, rest, depth, nodes)
  {
    hide Print, Depth, Unary, Ends, Nodes, Level;
    SamePrint(e, level, w);
    EndsDone(r, e, level + 1, rest, depth, nodes + Nodes(e));
  }

  lemma SamePrint(e: Expression, level: nat, w: Writer)
    requires level < 3 && Level(e) != level
    ensures Print(e, level, w) == Print(e, level + 1, w) && Depth(e, level) == Depth(e, level + 1)
  {
  }

  /** A loop takes an operator of its level, an operand of the next, and goes on. */
  function Going(r: Reader, operator: Operator, left: Expression, operand: Parsed, depth: nat): Parsed {
    match operand
    case Failed => Failed
    case Done(right, rest, count) =>
      if count + 1 > MAX_EXPRESSION_NODES then Failed
      else ParseFrom(r, LevelOf(operator), Binary(operator, left, right), rest, depth, count + 1)
  }

  lemma FromConcat(r: Reader, left: Expression, right: seq<Token>, depth: nat, nodes: nat)
    ensures ConcatenationFrom(r, left, [Concat] + right, depth, nodes) ==
            Going(r, Concatenate, left, Additive(r, right, depth, nodes), depth)
  {
    assert ([Concat] + right)[1..] == right;
  }

  lemma FromAddend(r: Reader, operator: Operator, left: Expression, right: seq<Token>, depth: nat, nodes: nat)
    requires LevelOf(operator) == 1
    ensures AdditiveFrom(r, left, [Symbol(operator)] + right, depth, nodes) ==
            Going(r, operator, left, Multiplicative(r, right, depth, nodes), depth)
  {
    var tokens := [Symbol(operator)] + right;
    assert tokens[1..] == right && tokens[0] == Symbol(operator);
    assert Addend(r, tokens, depth, nodes) == Some((operator, Multiplicative(r, right, depth, nodes)));
  }

  lemma FromFactor(r: Reader, operator: Operator, left: Expression, right: seq<Token>, depth: nat, nodes: nat)
    requires LevelOf(operator) == 2
    ensures MultiplicativeFrom(r, left, [Symbol(operator)] + right, depth, nodes) ==
            Going(r, operator, left, Unary(r, right, depth, nodes), depth)
  {
    var tokens := [Symbol(operator)] + right;
    assert tokens[1..] == right && tokens[0] == Symbol(operator);
  }

  lemma FromOperator(r: Reader, operator: Operator, left: Expression, right: seq<Token>, depth: nat, nodes: nat)
    ensures var level := LevelOf(operator);
            ParseFrom(r, level, left, [Symbol(operator)] + right, depth, nodes) ==
            Going(r, operator, left, Parse(r, level + 1, right, depth, nodes), depth)
  {
    hide Going, ConcatenationFrom, AdditiveFrom, MultiplicativeFrom, Unary, Multiplicative, Additive;
    match operator
    case Concatenate => FromConcat(r, left, right, depth, nodes);
    case Add | Subtract => FromAddend(r, operator, left, right, depth, nodes);
    case _ => FromFactor(r, operator, left, right, depth, nodes);
  }

  lemma FitsBinary(e: Expression, level: nat, depth: nat, nodes: nat)
    requires level < 3 && Level(e) == level
    ensures Nodes(e) == Nodes(e.left) + Nodes(e.right) + 1
    ensures Fits(e, level, depth, nodes) <==>
            && Fits(e.left, level, depth, nodes) && Fits(e.right, level + 1, depth, nodes + Nodes(e.left))
            && nodes + Nodes(e) <= MAX_EXPRESSION_NODES
  {
  }

  lemma PrintBinary(e: Expression, level: nat, w: Writer, rest: seq<Token>)
    requires level < 3 && Level(e) == level
    ensures Print(e, level, w) + rest ==
            Print(e.left, level, w) + ([Symbol(e.operator)] + (Print(e.right, level + 1, w) + rest))
  {
  }

  lemma Joins(r: Reader, w: Writer, e: Expression, level: nat, rest: seq<Token>, depth: nat, nodes: nat)
    requires level < 3 && Level(e) == level && Ends(rest, level + 1)
    requires var after := [Symbol(e.operator)] + (Print(e.right, level + 1, w) + rest);
             Parse(r, level, Print(e.left, level, w) + after, depth, nodes) ==
             Expected(r, e.left, level, after, depth, nodes)
    requires Parse(r, level + 1, Print(e.right, level + 1, w) + rest, depth, nodes + Nodes(e.left)) ==
             Expected(r, e.right, level + 1, rest, depth, nodes + Nodes(e.left))
    ensures Parse(r, level, Print(e, level, w) + rest, depth, nodes) == Expected(r, e, level, rest, depth, nodes)
  {
    hide Parse, ParseFrom, Print, Ends, Nodes, Fits;
    PrintBinary(e, level, w, rest);
    FitsBinary(e, level, depth, nodes);
    var right := Print(e.right, level + 1, w) + rest;
    FromOperator(r, e.operator, e.left, right, depth, nodes + Nodes(e.left));
    EndsDone(r, e.right, level + 1, rest, depth, nodes + Nodes(e.left) + Nodes(e.right));
  }

  lemma Encloses(r: Reader, w: Writer, e: Expression, rest: seq<Token>, depth: nat, nodes: nat)
    requires Level(e) < 3
    requires Parse(r, 0, Print(e, 0, w) + ([RParen] + rest), depth + 1, nodes) ==
             Expected(r, e, 0, [RParen] + rest, depth + 1, nodes)
    ensures Parse(r, 3, Print(e, 3, w) + rest, depth, nodes) == Expected(r, e, 3, rest, depth, nodes)
  {
    hide Print, Nodes, Depth, Concatenation, ConcatenationFrom, Unary;
    var inner := Print(e, 0, w) + ([RParen] + rest);
    Parenthesized(e, w, rest);
    UnaryParenthesis(r, inner, depth, nodes);
    EndsDone(r, e, 0, [RParen] + rest, depth + 1, nodes + Nodes(e));
    assert ([RParen] + rest)[1..] == rest;
  }

  lemma Parenthesized(e: Expression, w: Writer, rest: seq<Token>)
    requires Level(e) < 3
    ensures Print(e, 3, w) + rest == [LParen] + (Print(e, 0, w) + ([RParen] + rest))
    ensures Depth(e, 3) == Depth(e, 0) + 1
  {
  }

  lemma UnaryParenthesis(r: Reader, inner: seq<Token>, depth: nat, nodes: nat)
    ensures Unary(r, [LParen] + inner, depth, nodes) ==
            if depth > MAX_EXPRESSION_DEPTH then Failed
            else match Concatenation(r, inner, depth + 1, nodes)
              case Failed => Failed
              case Done(e, rest, count) => if Starts(rest, RParen) then Done(e, rest[1..], count) else Failed
  {
    assert ([LParen] + inner)[1..] == inner;
  }

  lemma Negates(r: Reader, w: Writer, e: Expression, rest: seq<Token>, depth: nat, nodes: nat)
    requires e.Negate?
    requires Parse(r, 3, Print(e.operand, 3, w) + rest, depth + 1, nodes) ==
             Expected(r, e.operand, 3, rest, depth + 1, nodes)
    ensures Parse(r, 3, Print(e, 3, w) + rest, depth, nodes) == Expected(r, e, 3, rest, depth, nodes)
  {
    var tokens := Print(e, 3, w) + rest;
    assert tokens == [Minus] + (Print(e.operand, 3, w) + rest);
    assert tokens[1..] == Print(e.operand, 3, w) + rest;
    hide Print;
  }

  lemma Atoms(r: Reader, w: Writer, e: Expression, rest: seq<Token>, depth: nat, nodes: nat)
    requires !e.Binary? && !e.Negate? && Legible(e, w, r) && Ends(rest, 3)
    ensures Parse(r, 3, Print(e, 3, w) + rest, depth, nodes) == Expected(r, e, 3, rest, depth, nodes)
  {
    var printed := Print(e, 3, w);
    var tokens := printed + rest;
    assert tokens[0] == printed[0];
    assert tokens[|printed|..] == rest;
    if |printed| == 3 {
      assert tokens[1..][0] == Dot && tokens[2] == printed[2] && tokens[3..] == rest;
    } else {
      assert tokens[1..] == rest;
    }
  }

  /** The whole of a print that fits parses back to the expression; a print that does not fit is refused. */
  lemma RoundTrip(r: Reader, w: Writer, e: Expression)
    requires Legible(e, w, r)
    ensures Concatenation(r, Print(e, 0, w), 0, 0) ==
            if Fits(e, 0, 0, 0) then Done(e, [], Nodes(e)) else Failed
  {
    ParsePrint(r, w, e, 0, [], 0, 0);
    assert Print(e, 0, w) + [] == Print(e, 0, w);
  }

  /** `a -1` subtracts 1, as `a - 1` does, whatever follows, though the lexer reads `-1` as one number. */
  lemma SignSubtracts(r: Reader, w: Writer, e: Expression, text: nat, rest: seq<Token>, depth: nat, nodes: nat)
    requires Legible(e, w, r)
    ensures Additive(r, Print(e, 1, w) + ([Number(true, text)] + rest), depth, nodes) ==
            Additive(r, Print(e, 1, w) + ([Minus, Number(false, text)] + rest), depth, nodes)
  {
    ParsePrint(r, w, e, 1, [Number(true, text)] + rest, depth, nodes);
    ParsePrint(r, w, e, 1, [Minus, Number(false, text)] + rest, depth, nodes);
    if depth <= MAX_EXPRESSION_DEPTH {
      SignedFrom(r, e, text, rest, depth, nodes + Nodes(e));
    }
    hide Print, AdditiveFrom;
  }

  lemma SignedFrom(r: Reader, e: Expression, text: nat, rest: seq<Token>, depth: nat, nodes: nat)
    requires depth <= MAX_EXPRESSION_DEPTH
    ensures AdditiveFrom(r, e, [Number(true, text)] + rest, depth, nodes) ==
            AdditiveFrom(r, e, [Minus, Number(false, text)] + rest, depth, nodes)
  {
    var signed, spaced := [Number(true, text)] + rest, [Minus, Number(false, text)] + rest;
    assert signed[1..] == rest && spaced[1..] == [Number(false, text)] + rest &&
           ([Number(false, text)] + rest)[1..] == rest;
    assert Unary(r, spaced[1..], depth, nodes) ==
           match r.number(false, text)
           case None => Failed
           case Some(value) => Counted(Literal(value), rest, nodes);
    hide Unary, MultiplicativeFrom;
    assert Addend(r, signed, depth, nodes) == Addend(r, spaced, depth, nodes);
    hide Addend;
  }
}

/** The parser as it runs: a position among the tokens and a count of terms, moved on by each of its methods
    (expression.rs). */
module ExpressionParser {
  import opened Expressions
  import opened ExpressionParsers

  class Parser {
    const tokens: seq<Token>
    const reader: Reader
    var position: nat
    var nodes: nat

    constructor (tokens: seq<Token>, position: nat, reader: Reader)
      ensures this.tokens == tokens && this.position == position && this.reader == reader && nodes == 0
    {
      this.tokens, this.position, this.reader, nodes := tokens, position, reader, 0;
    }

    ghost function Rest(): seq<Token>
      requires position <= |tokens|
      reads this
    {
      tokens[position..]
    }

    /** Whether what was parsed, and where the parser now is, are what `parsed` says. */
    ghost predicate Came(parsed: Parsed, ok: bool, e: Expression)
      reads this
    {
      if ok then position <= |tokens| && parsed == Done(e, Rest(), nodes) else parsed == Failed
    }

    method Consume(token: Token) returns (found: bool)
      requires position <= |tokens|
      modifies this`position
      ensures found == Starts(old(Rest()), token) && position == old(position) + (if found then 1 else 0) <= |tokens|
    {
      found := position < |tokens| && tokens[position] == token;
      if found {
        position := position + 1;
      }
    }

    /** Counts a term, within the limit. */
    method Node() returns (ok: bool)
      modifies this`nodes
      ensures ok == (nodes <= MAX_EXPRESSION_NODES) && nodes == old(nodes) + 1
    {
      nodes := nodes + 1;
      ok := nodes <= MAX_EXPRESSION_NODES;
    }

    method ParseConcatenation(depth: nat) returns (ok: bool, e: Expression)
      requires position <= |tokens|
      modifies this
      ensures Came(Concatenation(reader, old(Rest()), depth, old(nodes)), ok, e)
      decreases |tokens| - position, 5
    {
      ghost var result := Concatenation(reader, Rest(), depth, nodes);
      ok, e := ParseAdditive(depth);
      while ok
        invariant ok ==> position <= |tokens| && old(position) < position
        invariant result == if ok then ConcatenationFrom(reader, e, Rest(), depth, nodes) else Failed
        decreases ok, |tokens| - position
      {
        var found := Consume(Concat);
        if !found {
          return;
        }
        var right;
        ok, right := ParseAdditive(depth);
        if ok {
          ok := Node();
          e := Binary(Concatenate, e, right);
        }
      }
    }

    method ParseAdditive(depth: nat) returns (ok: bool, e: Expression)
      requires position <= |tokens|
      modifies this
      ensures Came(Additive(reader, old(Rest()), depth, old(nodes)), ok, e)
      ensures ok ==> old(position) < position
      decreases |tokens| - position, 4
    {
      hide Addend, Multiplicative;
      ghost var result := Additive(reader, Rest(), depth, nodes);
      ok, e := ParseMultiplicative(depth);
      while ok
        invariant ok ==> position <= |tokens| && old(position) < position
        invariant result == if ok then AdditiveFrom(reader, e, Rest(), depth, nodes) else Failed
        decreases ok, |tokens| - position
      {
        var found, operator, right;
        found, ok, operator, right := ParseAddend(depth);
        if !found {
          return;
        }
        if ok {
          ok := Node();
          e := Binary(operator, e, right);
        }
      }
    }

    method ParseAddend(depth: nat) returns (found: bool, ok: bool, operator: Operator, right: Expression)
      requires position <= |tokens|
      modifies this
      ensures var addend := Addend(reader, old(Rest()), depth, old(nodes));
              && found == addend.Some?
              && (!found ==> ok && position == old(position) && nodes == old(nodes))
              && (found ==> operator == addend.value.0 && Came(addend.value.1, ok, right) &&
                            (ok ==> old(position) < position))
      decreases |tokens| - position, 3
    {
      ok, operator, right := true, Subtract, Literal(Null);
      found := position < |tokens| &&
               (tokens[position] == Plus || tokens[position] == Minus ||
                (tokens[position].Number? && tokens[position].negative));
      if !found {
        return;
      }
      ghost var rest := Rest();
      var token := tokens[position];
      position := position + 1;
      assert Rest() == rest[1..];
      if token.Number? {
        // The lexer reads `a -1` as `a` and the number `-1`, which here subtracts `1`.
        var value := reader.number(false, token.text);
        if value.None? {
          ok := false;
          return;
        }
        ok := Node();
        if ok {
          ok, right := ParseMultiplicativeFrom(Literal(value.value), depth);
        }
      } else {
        operator := if token == Plus then Add else Subtract;
        ok, right := ParseMultiplicative(depth);
      }
    }

    method ParseMultiplicative(depth: nat) returns (ok: bool, e: Expression)
      requires position <= |tokens|
      modifies this
      ensures Came(Multiplicative(reader, old(Rest()), depth, old(nodes)), ok, e)
      ensures ok ==> old(position) < position
      decreases |tokens| - position, 2
    {
      ok, e := ParseUnary(depth);
      if ok {
        ok, e := ParseMultiplicativeFrom(e, depth);
      }
    }

    method ParseMultiplicativeFrom(left: Expression, depth: nat) returns (ok: bool, e: Expression)
      requires position <= |tokens|
      modifies this
      ensures Came(MultiplicativeFrom(reader, left, old(Rest()), depth, old(nodes)), ok, e)
      ensures ok ==> old(position) <= position
      decreases |tokens| - position, 1
    {
      hide Unary;
      ghost var result := MultiplicativeFrom(reader, left, Rest(), depth, nodes);
      ok, e := true, left;
      while ok
        invariant ok ==> position <= |tokens| && old(position) <= position
        invariant result == if ok then MultiplicativeFrom(reader, e, Rest(), depth, nodes) else Failed
        decreases ok, |tokens| - position
      {
        ghost var rest := Rest();
        var operator := Factor(tokens[position..]);
        if operator.None? {
          return;
        }
        position := position + 1;
        assert Rest() == rest[1..];
        var right;
        ok, right := ParseUnary(depth);
        if ok {
          ok := Node();
          e := Binary(operator.value, e, right);
        }
      }
    }

    method ParseUnary(depth: nat) returns (ok: bool, e: Expression)
      requires position <= |tokens|
      modifies this
      ensures Came(Unary(reader, old(Rest()), depth, old(nodes)), ok, e)
      ensures ok ==> old(position) < position
      decreases |tokens| - position, 1
    {
      e := Literal(Null);
      if depth > MAX_EXPRESSION_DEPTH || position == |tokens| {
        return false, e;
      }
      ghost var rest := Rest();
      var token := tokens[position];
      if token.Identifier? {
        ok, e := ParseColumn();
        return;
      }
      position := position + 1;
      assert Rest() == rest[1..];
      if token.Constant? || token.Number? {
        var value := if token.Constant? then token.value else reader.number(token.negative, token.text);
        if value.None? {
          return false, e;
        }
        ok := Node();
        e := Literal(value.value);
        return;
      }
      match token
      case Minus =>
        ok, e := ParseUnary(depth + 1);
        if ok {
          ok := Node();
          e := Negate(e);
        }
      case LParen =>
        ok, e := ParseConcatenation(depth + 1);
        if ok {
          ok := Consume(RParen);
        }
      case _ =>
        ok := false;
    }

    method ParseColumn() returns (ok: bool, e: Expression)
      requires position < |tokens| && tokens[position].Identifier?
      modifies this
      ensures Came(ColumnName(reader, old(Rest()), old(nodes)), ok, e)
      ensures ok ==> old(position) < position
    {
      ghost var rest := Rest();
      assert rest[1..] == tokens[position + 1..];
      assert |rest| >= 3 ==> rest[2] == tokens[position + 2] && rest[3..] == tokens[position + 3..];
      var first, names := tokens[position], reader.names;
      e := Stored(Plain(first.name));
      if !first.valid || (position + 1 < |tokens| && tokens[position + 1] == LParen) {
        return false, e;
      }
      position := position + 1;
      var dot := Consume(Dot);
      if dot {
        if position >= |tokens| || !tokens[position].Identifier? || !tokens[position].valid {
          return false, e;
        }
        var second := tokens[position].name;
        position := position + 1;
        if position < |tokens| && tokens[position] == Dot {
          return false, e;
        }
        e := if names.Conflict? && first.name == EXCLUDED then Excluded(second)
             else if names.Conflict? && first.name == names.table then Stored(Plain(second))
             else Stored(Qualified(first.name, second));
      } else if names.Conflict? {
        return false, e;
      }
      ok := Node();
    }
  }

  /** Parses the expression at a position, and says where it ends: what a print parses back to is `RoundTrip`'s. */
  method ParseExpressionAt(tokens: seq<Token>, position: nat, reader: Reader)
    returns (ok: bool, e: Expression, after: nat)
    requires position <= |tokens|
    ensures ok ==>
              after <= |tokens| &&
              exists nodes :: Concatenation(reader, tokens[position..], 0, 0) == Done(e, tokens[after..], nodes)
    ensures !ok ==> Concatenation(reader, tokens[position..], 0, 0) == Failed
  {
    var parser := new Parser(tokens, position, reader);
    ok, e := parser.ParseConcatenation(0);
    after := parser.position;
  }
}

/** What types an expression is given, and what values it then comes to (expression.rs). */
module ExpressionValues {
  import opened Expressions

  const MAX_SAFE_INTEGER := 9_007_199_254_740_991
  const MAX_LOGICAL_VALUE_BYTES := 1024 * 1024

  datatype Type = Boolean | Integer | Double | String | Document

  datatype Error = NoColumn | Mismatch | Overflow | DivisionByZero | TooLong

  datatype Outcome<+T> = Ok(value: T) | Err(error: Error)

  /** A row and the one proposed in its place, with the types of their columns, and what an operator makes of floats. */
  datatype World = World(
    stored: Column -> Value,
    excluded: Name -> Value,
    storedType: Column -> Option<Type>,
    excludedType: Name -> Option<Type>,
    float: (Operator, Value, Value) -> Outcome<Value>)

  /** The type of a value, but for NULL. */
  function TypeOf(v: Value): Option<Type> {
    match v
    case Null => None
    case Bool(_) => Some(Boolean)
    case Int(_) => Some(Integer)
    case Float(_) => Some(Double)
    case Text(_) => Some(String)
    case Json(_) => Some(Document)
  }

  predicate Takes(operator: Operator, operand: Option<Type>) {
    || operand == None
    || match operator
       case Concatenate => operand == Some(String)
       case Remainder => operand == Some(Integer)
       case _ => operand == Some(Integer) || operand == Some(Double)
  }

  function OperandTypes(operator: Operator, left: Option<Type>, right: Option<Type>): Outcome<Option<Type>> {
    if !Takes(operator, left) || !Takes(operator, right) then Err(Mismatch)
    else if left == Some(Double) || right == Some(Double) then Ok(Some(Double))
    else Ok(if left.Some? then left else right)
  }

  /** The type an expression gives, or none where it gives only NULL. */
  function ValueType(w: World, e: Expression): Outcome<Option<Type>> {
    match e
    case Literal(value) => Ok(TypeOf(value))
    case Stored(column) => if w.storedType(column).Some? then Ok(w.storedType(column)) else Err(NoColumn)
    case Excluded(name) => if w.excludedType(name).Some? then Ok(w.excludedType(name)) else Err(NoColumn)
    case Negate(operand) => (match ValueType(w, operand)
      case Err(error) => Err(error)
      case Ok(given) => OperandTypes(Subtract, given, None))
    case Binary(operator, left, right) => (match ValueType(w, left)
      case Err(error) => Err(error)
      case Ok(l) => match ValueType(w, right)
        case Err(error) => Err(error)
        case Ok(r) => OperandTypes(operator, l, r))
  }

  /** Division that drops the fraction, whatever the signs. */
  function Quotient(a: int, b: int): (q: int)
    requires b != 0
    ensures var rest := a - b * q;
            (if a >= 0 then 0 <= rest else rest <= 0) && -(if b > 0 then b else -b) < rest < (if b > 0 then b else -b)
  {
    var (m, n) := (if a >= 0 then a else -a, if b > 0 then b else -b);
    Divided(m, n);
    if (a >= 0) == (b > 0) then m / n else -(m / n)
  }

  lemma Divided(m: nat, n: nat)
    requires n > 0
    ensures 0 <= m - n * (m / n) < n
  {
    assert m == n * (m / n) + m % n;
  }

  function Arithmetic(operator: Operator, a: int, b: int): Outcome<int>
    requires operator != Concatenate
  {
    if operator in {Divide, Remainder} && b == 0 then Err(DivisionByZero)
    else
      var result :=
        if operator == Add then a + b
        else if operator == Subtract then a - b
        else if operator == Multiply then a * b
        else
          assert operator == Divide || operator == Remainder;
          if operator == Divide then Quotient(a, b) else a - b * Quotient(a, b);
      if -MAX_SAFE_INTEGER <= result <= MAX_SAFE_INTEGER then Ok(result) else Err(Overflow)
  }

  function Apply(w: World, operator: Operator, left: Value, right: Value): Outcome<Value> {
    if left.Null? || right.Null? then Ok(Null)
    else if operator == Concatenate then
      if !left.Text? || !right.Text? then Err(Mismatch)
      else if |left.bytes| + |right.bytes| > MAX_LOGICAL_VALUE_BYTES then Err(TooLong)
      else Ok(Text(left.bytes + right.bytes))
    else if left.Int? && right.Int? then
      match Arithmetic(operator, left.n, right.n)
      case Ok(n) => Ok(Int(n))
      case Err(error) => Err(error)
    else if !(left.Int? || left.Float?) || !(right.Int? || right.Float?) || operator == Remainder then Err(Mismatch)
    else w.float(operator, left, right)
  }

  function Evaluate(w: World, e: Expression): Outcome<Value> {
    match e
    case Literal(value) => Ok(value)
    case Stored(column) => Ok(w.stored(column))
    case Excluded(name) => Ok(w.excluded(name))
    case Negate(operand) => (match Evaluate(w, operand)
      case Err(error) => Err(error)
      case Ok(value) => Apply(w, Subtract, Int(0), value))
    case Binary(operator, left, right) => (match Evaluate(w, left)
      case Err(error) => Err(error)
      case Ok(l) => match Evaluate(w, right)
        case Err(error) => Err(error)
        case Ok(r) => Apply(w, operator, l, r))
  }

  /** Whether a value is of a type, as NULL is of any, and an integer is in the range that JavaScript holds exactly. */
  predicate Gives(v: Value, given: Option<Type>) {
    (v.Null? || TypeOf(v) == given) && (v.Int? ==> -MAX_SAFE_INTEGER <= v.n <= MAX_SAFE_INTEGER)
  }

  /** Columns hold values of their types, and floats give a float or fail for a cause of their own. */
  ghost predicate Typed(w: World) {
    && (forall column :: w.storedType(column).Some? ==> Gives(w.stored(column), w.storedType(column)))
    && (forall name :: w.excludedType(name).Some? ==> Gives(w.excluded(name), w.excludedType(name)))
    && (forall operator, a, b :: match w.float(operator, a, b)
          case Ok(v) => v.Float?
          case Err(error) => error == Overflow || error == DivisionByZero)
  }

  predicate Literals(e: Expression) {
    match e
    case Literal(value) => Gives(value, TypeOf(value))
    case Negate(operand) => Literals(operand)
    case Binary(_, left, right) => Literals(left) && Literals(right)
    case _ => true
  }

  ghost predicate Comes(result: Outcome<Value>, given: Option<Type>) {
    match result
    case Ok(v) => Gives(v, given)
    case Err(error) => error in {Overflow, DivisionByZero, TooLong}
  }

  lemma ApplySound(w: World, operator: Operator, left: Value, right: Value, l: Option<Type>, r: Option<Type>)
    requires Typed(w) && Gives(left, l) && Gives(right, r) && OperandTypes(operator, l, r).Ok?
    ensures Comes(Apply(w, operator, left, right), OperandTypes(operator, l, r).value)
  {
  }

  /** An expression whose types are accepted comes to NULL, a value of its type, or one of three failures: never to a
      mismatch of types. */
  lemma {:induction false} TypeSound(w: World, e: Expression)
    requires Typed(w) && Literals(e) && ValueType(w, e).Ok?
    ensures Comes(Evaluate(w, e), ValueType(w, e).value)
  {
    match e
    case Negate(operand) =>
      TypeSound(w, operand);
      if Evaluate(w, operand).Ok? {
        NegateSound(w, Evaluate(w, operand).value, ValueType(w, operand).value);
      }
    case Binary(operator, left, right) =>
      TypeSound(w, left);
      TypeSound(w, right);
      if Evaluate(w, left).Ok? && Evaluate(w, right).Ok? {
        ApplySound(w, operator, Evaluate(w, left).value, Evaluate(w, right).value, ValueType(w, left).value,
                   ValueType(w, right).value);
      }
    case _ =>
  }

  lemma NegateSound(w: World, value: Value, given: Option<Type>)
    requires Typed(w) && Gives(value, given) && OperandTypes(Subtract, given, None).Ok?
    ensures Comes(Apply(w, Subtract, Int(0), value), OperandTypes(Subtract, given, None).value)
  {
    if given.Some? {
      ApplySound(w, Subtract, Int(0), value, Some(Integer), given);
    }
  }

  /** Whether a value of some type may be assigned to a column. */
  predicate Fits(given: Option<Type>, target: Type) {
    || given == None || target == Document || given == Some(target) || (target == Double && given == Some(Integer))
  }

  /** An accepted assignment gives a column NULL or a value it takes, or fails. */
  lemma AssignmentSound(w: World, e: Expression, target: Type)
    requires Typed(w) && Literals(e) && ValueType(w, e).Ok? && Fits(ValueType(w, e).value, target)
    ensures Evaluate(w, e).Ok? ==> Fits(TypeOf(Evaluate(w, e).value), target)
  {
    TypeSound(w, e);
  }

  predicate ReadsRow(e: Expression) {
    match e
    case Literal(_) => false
    case Stored(_) | Excluded(_) => true
    case Negate(operand) => ReadsRow(operand)
    case Binary(_, left, right) => ReadsRow(left) || ReadsRow(right)
  }

  lemma {:induction false} ConstantSame(w: World, other: World, e: Expression)
    requires !ReadsRow(e) && w.float == other.float
    ensures Evaluate(w, e) == Evaluate(other, e) && ValueType(w, e) == ValueType(other, e)
  {
    match e
    case Negate(operand) => ConstantSame(w, other, operand);
    case Binary(_, left, right) =>
      ConstantSame(w, other, left);
      ConstantSame(w, other, right);
    case _ =>
  }

  datatype Comparison = Eq | Neq | Lt | Lte | Gt | Gte

  function Flipped(operator: Comparison): Comparison {
    match operator
    case Lt => Gt
    case Lte => Gte
    case Gt => Lt
    case Gte => Lte
    case _ => operator
  }

  /** What a comparison says of two values, where NULL leaves it unknown. `order` is how values compare. */
  function Compares(order: (Value, Value) -> int, operator: Comparison, a: Value, b: Value): Option<bool> {
    if a.Null? || b.Null? then None
    else Some(match operator
      case Eq => order(a, b) == 0
      case Neq => order(a, b) != 0
      case Lt => order(a, b) < 0
      case Lte => order(a, b) <= 0
      case Gt => order(a, b) > 0
      case Gte => order(a, b) >= 0)
  }

  /** The value of a side that reads no row. */
  function Known(w: World, e: Expression): Option<Value> {
    if e.Literal? then Some(e.value)
    else if ReadsRow(e) || ValueType(w, e).Err? || Evaluate(w, e).Err? then None
    else Some(Evaluate(w, e).value)
  }

  /** A comparison of two expressions as one of a column with a known value, if it can be one. */
  function Folded(w: World, left: Expression, operator: Comparison, right: Expression):
    Option<(Column, Comparison, Value)>
  {
    if left.Stored? then
      var value := Known(w, right);
      if value.Some? then Some((left.column, operator, value.value)) else None
    else if right.Stored? then
      var value := Known(w, left);
      if value.Some? then Some((right.column, Flipped(operator), value.value)) else None
    else None
  }

  /** A folded comparison says of every row what the comparison it stands for says. */
  lemma FoldedSame(w: World, row: World, order: (Value, Value) -> int, left: Expression, operator: Comparison,
                   right: Expression)
    requires w.float == row.float && forall a, b :: order(a, b) == -order(b, a)
    requires Folded(w, left, operator, right).Some?
    ensures Evaluate(row, left).Ok? && Evaluate(row, right).Ok?
    ensures var (column, folded, value) := Folded(w, left, operator, right).value;
            Compares(order, folded, row.stored(column), value) ==
            Compares(order, operator, Evaluate(row, left).value, Evaluate(row, right).value)
  {
    if !ReadsRow(left) {
      ConstantSame(w, row, left);
    }
    if !ReadsRow(right) {
      ConstantSame(w, row, right);
    }
  }
}
