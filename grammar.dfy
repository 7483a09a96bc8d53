/** The recursive-descent grammar of `Parser` (src/parser/index.ts), as
    functions over a token sequence and a read position. The class keeps
    the unread tokens in a queue and shifts from its front; here the queue
    is `ts[i..]`, so `at(k)` is `ts[i + k]` and `eat()` moves `i` on by one.

    Every function returns the node it builds and the position after the
    last token it consumed. A read of `at().type` on an empty queue is the
    host's TypeError, `ReadOfUndefined`; reads written `at()?.type` are
    guarded and take the other branch instead. A `match` whose front token
    is already known to be accepted is written as a step past it. */
module Grammar {
  import opened Wrappers
  import opened Host
  import opened TokenKinds
  import opened Ast
  import opened Literals

  /** Why a parse stops. `Raised` is an error stack the parser throws with
      the given message; `UnexpectedTokenJson` and `InfiniteLoopToMatch`
      are the same with a message that embeds `JSON.stringify(token)`. */
  datatype ParseError =
    | Raised(message: string)
    | UnexpectedTokenJson(token: Token)
    | InfiniteLoopToMatch(tag: TokenType, token: Token)
    | ReadOfUndefined

  datatype Matched = Matched(token: Token, next: nat)
  datatype Parsed = Parsed(node: Node, next: nat)
  datatype ParsedList = ParsedList(nodes: seq<Node>, next: nat)

  /** "Unexpected token: <kind>", the kind printed as its number. */
  function UnexpectedTag(k: TokenType): ParseError
  {
    Raised("Unexpected token: " + NatToString(Ordinal(k)))
  }

  /** `at(k)`: the token `k` places after the read position, if any. */
  function At(ts: seq<Token>, i: nat, k: nat): (r: Option<Token>)
    ensures r.Some? <==> i + k < |ts|
    ensures r.Some? ==> r.value == ts[i + k]
  {
    if i + k < |ts| then Some(ts[i + k]) else None
  }

  /** The front token, if any, has this kind. */
  predicate FrontIs(ts: seq<Token>, i: nat, kind: TokenType)
  {
    i < |ts| && ts[i].kind == kind
  }

  /** The front token, if any, holds exactly this text. */
  predicate FrontText(ts: seq<Token>, i: nat, text: string)
  {
    i < |ts| && ts[i].value == Str(text)
  }

  /** The front token is an operator holding exactly this text. */
  predicate FrontOperator(ts: seq<Token>, i: nat, text: string)
  {
    FrontIs(ts, i, Operator) && FrontText(ts, i, text)
  }

  /** A token `match` accepts: the tag, and the text when one is given. */
  predicate Accepts(t: Token, kind: TokenType, value: Option<string>)
  {
    t.kind == kind && (value.None? || t.value == Str(value.value))
  }

  /** `match(tag, value)`. On an empty queue it throws "Unexpected token:
      <tag>". Otherwise it retries the same front token, which it never
      consumes unless accepted, until its iteration bound runs out and it
      throws "Infinite loop to Match"; so a front token it does not accept
      ends in that error. */
  function Match(ts: seq<Token>, i: nat, kind: TokenType, value: Option<string>): (r: Result<Matched, ParseError>)
    requires i <= |ts|
    ensures r.Success? <==> i < |ts| && Accepts(ts[i], kind, value)
    ensures r.Success? ==> r.value == Matched(ts[i], i + 1)
    ensures i == |ts| ==> r == Failure(UnexpectedTag(kind))
    ensures i < |ts| && !Accepts(ts[i], kind, value) ==> r == Failure(InfiniteLoopToMatch(kind, ts[i]))
  {
    if i == |ts| then Failure(UnexpectedTag(kind))
    else if Accepts(ts[i], kind, value) then Success(Matched(ts[i], i + 1))
    else Failure(InfiniteLoopToMatch(kind, ts[i]))
  }

  /** `eat()`: `shift()` on the queue, which gives `undefined` when empty. */
  function Eat(ts: seq<Token>, i: nat): (r: (Option<Token>, nat))
    requires i <= |ts|
    ensures r.0 == At(ts, i, 0)
    ensures r.1 == if i < |ts| then i + 1 else i
  {
    if i < |ts| then (Some(ts[i]), i + 1) else (None, i)
  }

  /** `parseIdentifier`: an identifier token, wrapped in a Literal. */
  function Identifier(ts: seq<Token>, i: nat): (r: Result<Parsed, ParseError>)
    requires i <= |ts|
    ensures r.Success? <==> FrontIs(ts, i, TokenKinds.Identifier)
    ensures r.Success? ==> r.value == Parsed(Literal(ts[i]), i + 1)
  {
    var m :- Match(ts, i, TokenKinds.Identifier, None);
    Success(Parsed(Literal(m.token), m.next))
  }

  /** `parseString`: a string token, wrapped in a Literal. */
  function StringLiteral(ts: seq<Token>, i: nat): (r: Result<Parsed, ParseError>)
    requires i <= |ts|
    ensures r.Success? <==> FrontIs(ts, i, String)
    ensures r.Success? ==> r.value == Parsed(Literal(ts[i]), i + 1)
    ensures i < |ts| && ts[i].kind != String ==> r == Failure(UnexpectedTag(ts[i].kind))
  {
    if i == |ts| then Failure(ReadOfUndefined)
    else if ts[i].kind != String then Failure(UnexpectedTag(ts[i].kind))
    else Success(Parsed(Literal(ts[i]), i + 1))
  }

  // ---------------------------------------------------------------------
  // `use` declarations (no recursion into statements)
  // ---------------------------------------------------------------------

  /** `parseDefaultAs`: `as name`. */
  function DefaultAs(ts: seq<Token>, i: nat): (r: Result<ParsedList, ParseError>)
    requires i < |ts| && ts[i].kind == As
    ensures r.Success? ==> i < r.value.next <= |ts| && |r.value.nodes| == 1
  {
    var local :- Identifier(ts, i + 1);
    Success(ParsedList([UseDefaultSpecifier(local.node)], local.next))
  }

  /** One item of `parseAs`'s loop: `name [as remote]`, then a comma if
      there is one. */
  function SpecifierItem(ts: seq<Token>, i: nat): (r: Result<Parsed, ParseError>)
    requires i <= |ts|
    ensures r.Success? ==> i < r.value.next <= |ts| && r.value.node.UseSpecifier?
  {
    var local :- Identifier(ts, i);
    var j := local.next;
    if j == |ts| then Failure(ReadOfUndefined)
    else
      var remote :- if ts[j].kind == As then
          var n :- Identifier(ts, j + 1);
          Success((Some(n.node), n.next))
        else Success((None, j));
      var k := remote.1;
      if k == |ts| then Failure(ReadOfUndefined)
      else Success(Parsed(UseSpecifier(local.node, remote.0), if ts[k].kind == Comma then k + 1 else k))
  }

  /** The loop of `parseAs`: items up to a parenthesis, which must close
      the list. */
  function Specifiers(ts: seq<Token>, i: nat, acc: seq<Node>): (r: Result<ParsedList, ParseError>)
    requires i <= |ts|
    ensures r.Success? ==> i < r.value.next <= |ts| && |r.value.nodes| >= |acc|
    decreases |ts| - i
  {
    if i == |ts| then Failure(ReadOfUndefined)
    else if ts[i].kind == Paren then
      var close :- Match(ts, i, Paren, Some(")"));
      Success(ParsedList(acc, close.next))
    else
      var item :- SpecifierItem(ts, i);
      Specifiers(ts, item.next, acc + [item.node])
  }

  /** `parseAs`: `(`, the specifier list and `)`. */
  function AsList(ts: seq<Token>, i: nat): (r: Result<ParsedList, ParseError>)
    requires i <= |ts|
    ensures r.Success? ==> i < r.value.next <= |ts|
  {
    var open :- Match(ts, i, Paren, Some("("));
    Specifiers(ts, open.next, [])
  }

  /** `parseUse`: `use "source" [as name] [pick (...)]`. */
  function UseDecl(ts: seq<Token>, i: nat): (r: Result<Parsed, ParseError>)
    requires i < |ts|
    ensures r.Success? ==> i < r.value.next <= |ts|
  {
    var source :- StringLiteral(ts, i + 1);
    var j := source.next;
    if j == |ts| then Failure(ReadOfUndefined)
    else if ts[j].kind == As then
      var dflt :- DefaultAs(ts, j);
      UsePick(ts, dflt.next, ts[i], source.node, dflt.nodes)
    else UsePick(ts, j, ts[i], source.node, [])
  }

  /** The `pick` clause of `use`, after the source and the optional
      default import. */
  function UsePick(ts: seq<Token>, i: nat, id: Token, source: Node, dflt: seq<Node>): (r: Result<Parsed, ParseError>)
    requires i <= |ts|
    ensures r.Success? ==> i <= r.value.next <= |ts|
  {
    if i == |ts| then Failure(ReadOfUndefined)
    else if ts[i].kind == Pick then
      var picked :- AsList(ts, i + 1);
      Success(Parsed(UseDeclaration(source, dflt + picked.nodes, Some(id)), picked.next))
    else Success(Parsed(UseDeclaration(source, dflt, Some(id)), i))
  }

  // ---------------------------------------------------------------------
  // Statements and expressions, one mutually recursive group. Each
  // function decreases the unread length, then a rank that orders the
  // calls made without consuming a token.
  // ---------------------------------------------------------------------

  /** `parse`'s loop: statements until the queue is empty. */
  function Statements(ts: seq<Token>, i: nat, acc: seq<Node>): (r: Result<ParsedList, ParseError>)
    requires i <= |ts|
    ensures r.Success? ==> r.value.next == |ts| && |r.value.nodes| >= |acc|
    decreases |ts| - i, 50
  {
    if i == |ts| then Success(ParsedList(acc, i))
    else
      var s :- Statement(ts, i);
      Statements(ts, s.next, acc + [s.node])
  }

  /** `parseStatement`: dispatch on the front token's kind. */
  function Statement(ts: seq<Token>, i: nat): (r: Result<Parsed, ParseError>)
    requires i <= |ts|
    ensures r.Success? ==> i < r.value.next <= |ts|
    decreases |ts| - i, 40
  {
    if i == |ts| then Failure(ReadOfUndefined)
    else
      match ts[i].kind
      case EmptyLine => Success(Parsed(Node.EmptyLine(Some(ts[i])), i + 1))
      case Use => UseDecl(ts, i)
      case Comment => Success(Parsed(CommentStatement(Some(ts[i])), i + 1))
      case Task => TaskStmt(ts, i)
      case Let => VariableDecl(ts, i)
      case Cst => VariableDecl(ts, i)
      case If => IfStmt(ts, i)
      case Fn => FunctionDecl(ts, i)
      case For => ForStmt(ts, i)
      case Switch => SwitchStmt(ts, i)
      case Return => ReturnStmt(ts, i)
      case Expose => ExposeStmt(ts, i)
      case Run => RunStmt(ts, i)
      case Wait => WaitStmt(ts, i)
      case _ => Expression(ts, i)
  }

  /** `parseTask`: the keyword, then a function declaration. */
  function TaskStmt(ts: seq<Token>, i: nat): (r: Result<Parsed, ParseError>)
    requires i < |ts|
    ensures r.Success? ==> i < r.value.next <= |ts|
    decreases |ts| - i, 30
  {
    var fn :- FunctionDecl(ts, i + 1);
    Success(Parsed(TaskStatement(fn.node, Some(ts[i])), fn.next))
  }

  /** `parseExpose`: the keyword, then any statement. */
  function ExposeStmt(ts: seq<Token>, i: nat): (r: Result<Parsed, ParseError>)
    requires i < |ts|
    ensures r.Success? ==> i < r.value.next <= |ts|
    decreases |ts| - i, 30
  {
    var body :- Statement(ts, i + 1);
    Success(Parsed(ExposeStatement(body.node, Some(ts[i])), body.next))
  }

  /** `parseReturn`: the keyword, then an expression. */
  function ReturnStmt(ts: seq<Token>, i: nat): (r: Result<Parsed, ParseError>)
    requires i < |ts|
    ensures r.Success? ==> i < r.value.next <= |ts|
    decreases |ts| - i, 30
  {
    var value :- Expression(ts, i + 1);
    Success(Parsed(ReturnStatement(value.node, Some(ts[i])), value.next))
  }

  /** `parseVariable`: `let` or `cst`, a name, `=` and an expression. */
  function VariableDecl(ts: seq<Token>, i: nat): (r: Result<Parsed, ParseError>)
    requires i < |ts|
    ensures r.Success? ==> i < r.value.next <= |ts|
    decreases |ts| - i, 30
  {
    var name :- Identifier(ts, i + 1);
    var j := name.next;
    if j == |ts| then Failure(ReadOfUndefined)
    else if FrontOperator(ts, j, "=") then
      var value :- Expression(ts, j + 1);
      Success(Parsed(VariableDeclaration(name.node, value.node, ts[i].kind == Cst, Some(ts[i])), value.next))
    else Failure(UnexpectedTag(ts[j].kind))
  }

  /** `parseIf`: the keyword, a condition, a block without `end`, then
      either `else` and a block with `end`, or `end`. */
  function IfStmt(ts: seq<Token>, i: nat): (r: Result<Parsed, ParseError>)
    requires i < |ts|
    ensures r.Success? ==> i < r.value.next <= |ts|
    decreases |ts| - i, 30
  {
    var test :- Expression(ts, i + 1);
    var consequent :- Block(ts, test.next, true);
    IfTail(ts, consequent.next, ts[i], test.node, consequent.node)
  }

  /** What follows the consequent of `parseIf`: `else` and the alternate
      block, or `end` and an empty alternate. */
  function IfTail(ts: seq<Token>, i: nat, id: Token, test: Node, consequent: Node): (r: Result<Parsed, ParseError>)
    requires i <= |ts|
    ensures r.Success? ==> i < r.value.next <= |ts|
    decreases |ts| - i, 0
  {
    if i == |ts| then Failure(ReadOfUndefined)
    else if ts[i].kind == Else then
      var alternate :- Block(ts, i + 1, false);
      Success(Parsed(IfStatement(test, consequent, alternate.node, Some(id)), alternate.next))
    else
      var end :- Match(ts, i, End, None);
      Success(Parsed(IfStatement(test, consequent, BlockStatement([], None), Some(id)), end.next))
  }

  /** `parseFunction`: a leading token, a name, arguments and a block. */
  function FunctionDecl(ts: seq<Token>, i: nat): (r: Result<Parsed, ParseError>)
    requires i <= |ts|
    ensures r.Success? ==> i < r.value.next <= |ts|
    decreases |ts| - i, 30
  {
    var (preId, j) := Eat(ts, i);
    var name :- Identifier(ts, j);
    var args :- Args(ts, name.next);
    var body :- Block(ts, args.next, false);
    Success(Parsed(FunctionDeclaration(name.node, args.nodes, body.node, preId), body.next))
  }

  /** `parseFor`: `for name [, item] in range` and a block; the update is
      the literal 1. */
  function ForStmt(ts: seq<Token>, i: nat): (r: Result<Parsed, ParseError>)
    requires i < |ts|
    ensures r.Success? ==> i < r.value.next <= |ts|
    decreases |ts| - i, 30
  {
    var init :- Identifier(ts, i + 1);
    ForItem(ts, init.next, ts[i], init.node)
  }

  /** The optional `, value` of `parseFor`, after the first identifier. */
  function ForItem(ts: seq<Token>, i: nat, id: Token, init: Node): (r: Result<Parsed, ParseError>)
    requires i <= |ts|
    ensures r.Success? ==> i < r.value.next <= |ts|
    decreases |ts| - i, 1
  {
    if i == |ts| then Failure(ReadOfUndefined)
    else if ts[i].kind == Comma then
      var v :- Identifier(ts, i + 1);
      ForIn(ts, v.next, id, init, Some(v.node))
    else ForIn(ts, i, id, init, None)
  }

  /** The rest of `parseFor` from `in`: the range expression and the body;
      the update is always the literal 1. */
  function ForIn(ts: seq<Token>, i: nat, id: Token, init: Node, item: Option<Node>): (r: Result<Parsed, ParseError>)
    requires i <= |ts|
    ensures r.Success? ==> i < r.value.next <= |ts|
    decreases |ts| - i, 0
  {
    var m :- Match(ts, i, In, None);
    var range :- Expression(ts, m.next);
    var body :- Block(ts, range.next, false);
    Success(Parsed(ForStatement(init, item, range.node, body.node, LiteralOf(Num(Int(1))), Some(id)), body.next))
  }

  /** `parseSwitch`: the keyword, a subject, `:`, cases up to `end`. */
  function SwitchStmt(ts: seq<Token>, i: nat): (r: Result<Parsed, ParseError>)
    requires i < |ts|
    ensures r.Success? ==> i < r.value.next <= |ts|
    decreases |ts| - i, 30
  {
    var test :- Expression(ts, i + 1);
    var colon :- Match(ts, test.next, Colon, None);
    var cases :- SwitchCases(ts, colon.next, []);
    Success(Parsed(SwitchStatement(test.node, cases.nodes, Some(ts[i])), cases.next + 1))
  }

  /** The loop of `parseSwitch`: cases while the front is not `end`. */
  function SwitchCases(ts: seq<Token>, i: nat, acc: seq<Node>): (r: Result<ParsedList, ParseError>)
    requires i <= |ts|
    ensures r.Success? ==> i <= r.value.next < |ts| && ts[r.value.next].kind == End
    decreases |ts| - i, 3
  {
    if i == |ts| then Failure(ReadOfUndefined)
    else if ts[i].kind == End then Success(ParsedList(acc, i))
    else
      var c :- SwitchCase(ts, i);
      SwitchCases(ts, c.next, acc + [c.node])
  }

  /** Where a case body stops. */
  predicate EndsCaseBody(t: Token)
  {
    t.kind == Break || t.kind == Case || t.kind == Default || t.kind == End
  }

  /** `parseSwitchCase`: `case test :` or `default :`, a body, and `break`
      unless the body ends with a return. As written, a `case` arm is the
      one marked default, and a `default` arm has no test. */
  function SwitchCase(ts: seq<Token>, i: nat): (r: Result<Parsed, ParseError>)
    requires i <= |ts|
    ensures r.Success? ==> i < r.value.next <= |ts|
    decreases |ts| - i, 2
  {
    if i == |ts| then Failure(ReadOfUndefined)
    else if ts[i].kind == Case then
      var test :- Expression(ts, i + 1);
      CaseArm(ts, test.next, Case, Some(test.node))
    else if ts[i].kind == Default then CaseArm(ts, i + 1, Default, None)
    else Failure(Raised("Unexpected case token: " + NatToString(Ordinal(ts[i].kind))))
  }

  /** A `case` or `default` arm of `parseSwitchCase` from its colon on:
      the body, then its end. */
  function CaseArm(ts: seq<Token>, i: nat, kind: TokenType, test: Option<Node>): (r: Result<Parsed, ParseError>)
    requires i <= |ts|
    ensures r.Success? ==> i < r.value.next <= |ts|
    decreases |ts| - i, 0
  {
    var colon :- Match(ts, i, Colon, Some(":"));
    var body :- CaseBody(ts, colon.next, []);
    CaseEnd(ts, body.next, kind, test, body.nodes)
  }

  /** The end of a `case` or `default` arm: the last statement of the
      body is read even when there is none, and a `break` is demanded
      unless that statement is a `return`. A `case` arm is built as a
      DefaultCaseBlockStatement and a `default` arm as a
      CaseBlockStatement, as the source's `isDefault` flag has it. */
  function CaseEnd(ts: seq<Token>, i: nat, kind: TokenType, test: Option<Node>, body: seq<Node>): (r: Result<Parsed, ParseError>)
    requires i <= |ts|
    ensures r.Success? ==> i <= r.value.next <= |ts|
  {
    if |body| == 0 then Failure(ReadOfUndefined)
    else
      var block := BlockStatement(body, None);
      var node := if kind == Case then DefaultCaseBlockStatement(test, block) else CaseBlockStatement(test, block);
      if body[|body| - 1].ReturnStatement? then Success(Parsed(node, i))
      else
        var b :- Match(ts, i, Break, None);
        Success(Parsed(node, b.next))
  }

  /** The body loop of `parseSwitchCase`. */
  function CaseBody(ts: seq<Token>, i: nat, acc: seq<Node>): (r: Result<ParsedList, ParseError>)
    requires i <= |ts|
    ensures r.Success? ==> i <= r.value.next <= |ts| && |r.value.nodes| >= |acc|
    ensures r.Success? && r.value.next < |ts| ==> EndsCaseBody(ts[r.value.next])
    decreases |ts| - i, 41
  {
    if i == |ts| || EndsCaseBody(ts[i]) then Success(ParsedList(acc, i))
    else
      var s :- Statement(ts, i);
      CaseBody(ts, s.next, acc + [s.node])
  }

  /** `parseRun`: a leading token, a callee, then `to` stages and `end`
      when the next token is `to`. On an empty queue the callee's first
      read fails. */
  function RunStmt(ts: seq<Token>, i: nat): (r: Result<Parsed, ParseError>)
    requires i <= |ts|
    ensures r.Success? ==> i < r.value.next <= |ts|
    decreases |ts| - i, 2
  {
    if i == |ts| then Failure(ReadOfUndefined)
    else
      var callee :- Call(ts, i + 1);
      var k := callee.next;
      if k == |ts| then Failure(ReadOfUndefined)
      else if ts[k].kind == To then
        var stages :- ToStages(ts, k, []);
        var end :- Match(ts, stages.next, End, None);
        Success(Parsed(RunStatement(callee.node, stages.nodes, Some(ts[i])), end.next))
      else Success(Parsed(RunStatement(callee.node, [], Some(ts[i])), k))
  }

  /** The loop of `parseRun`: stages while the front is `to`. */
  function ToStages(ts: seq<Token>, i: nat, acc: seq<Node>): (r: Result<ParsedList, ParseError>)
    requires i <= |ts|
    ensures r.Success? ==> i <= r.value.next <= |ts| && |r.value.nodes| >= |acc|
    decreases |ts| - i, 1
  {
    if i == |ts| then Failure(ReadOfUndefined)
    else if ts[i].kind == To then
      var stage :- ToExpr(ts, i);
      ToStages(ts, stage.next, acc + [stage.node])
    else Success(ParsedList(acc, i))
  }

  /** `parseTo`: `to`, arguments and a block without `end`. */
  function ToExpr(ts: seq<Token>, i: nat): (r: Result<Parsed, ParseError>)
    requires i <= |ts|
    ensures r.Success? ==> i < r.value.next <= |ts|
    decreases |ts| - i, 0
  {
    var m :- Match(ts, i, To, None);
    var args :- Args(ts, m.next);
    var body :- Block(ts, args.next, true);
    Success(Parsed(ToExpression(args.nodes, body.node), body.next))
  }

  /** `parseWait`: the keyword, then a run statement. */
  function WaitStmt(ts: seq<Token>, i: nat): (r: Result<Parsed, ParseError>)
    requires i < |ts|
    ensures r.Success? ==> i < r.value.next <= |ts|
    decreases |ts| - i, 2
  {
    var run :- RunStmt(ts, i + 1);
    Success(Parsed(WaitStatement(run.node, Some(ts[i])), run.next))
  }

  /** `parseBlock(noEnd)`: a leading token of any kind, statements up to
      `end` or `else`, then `end` unless `noEnd`. */
  function Block(ts: seq<Token>, i: nat, noEnd: bool): (r: Result<Parsed, ParseError>)
    requires i <= |ts|
    ensures r.Success? ==> i <= r.value.next <= |ts| && r.value.node.BlockStatement?
    ensures r.Success? && !noEnd ==> i < r.value.next
    decreases |ts| - i, 42
  {
    var (id, j) := Eat(ts, i);
    var body :- BlockBody(ts, j, []);
    var next :- if noEnd then Success(body.next)
      else
        var end :- Match(ts, body.next, End, None);
        Success(end.next);
    Success(Parsed(BlockStatement(body.nodes, id), next))
  }

  /** The loop of `parseBlock`. */
  function BlockBody(ts: seq<Token>, i: nat, acc: seq<Node>): (r: Result<ParsedList, ParseError>)
    requires i <= |ts|
    ensures r.Success? ==> i <= r.value.next <= |ts| && |r.value.nodes| >= |acc|
    ensures r.Success? && r.value.next < |ts| ==> ts[r.value.next].kind in {End, Else}
    decreases |ts| - i, 41
  {
    if i == |ts| || ts[i].kind == End || ts[i].kind == Else then Success(ParsedList(acc, i))
    else
      var s :- Statement(ts, i);
      BlockBody(ts, s.next, acc + [s.node])
  }

  /** `parseArgs`: nothing before a colon, otherwise a parenthesised list
      of expressions, commas optional. */
  function Args(ts: seq<Token>, i: nat): (r: Result<ParsedList, ParseError>)
    requires i <= |ts|
    ensures r.Success? ==> i <= r.value.next <= |ts|
    ensures FrontIs(ts, i, Colon) ==> r == Success(ParsedList([], i))
    decreases |ts| - i, 0
  {
    if i == |ts| then Failure(ReadOfUndefined)
    else if ts[i].kind == Colon then Success(ParsedList([], i))
    else
      var open :- Match(ts, i, Paren, Some("("));
      var j := open.next;
      if j == |ts| then Failure(ReadOfUndefined)
      else if ts[j].value == Str(")") then Success(ParsedList([], j + 1))
      else ArgList(ts, j, [])
  }

  /** The loop of `parseArgs`, with the closing parenthesis. */
  function ArgList(ts: seq<Token>, i: nat, acc: seq<Node>): (r: Result<ParsedList, ParseError>)
    requires i <= |ts|
    ensures r.Success? ==> i < r.value.next <= |ts|
    decreases |ts| - i, 22
  {
    if i == |ts| || ts[i].kind == Paren then
      var close :- Match(ts, i, Paren, Some(")"));
      Success(ParsedList(acc, close.next))
    else
      var e :- Item(ts, i);
      ArgList(ts, e.next, acc + [e.node])
  }

  /** One pass of the argument and array loops: an expression, then a
      comma if there is one. */
  function Item(ts: seq<Token>, i: nat): (r: Result<Parsed, ParseError>)
    requires i <= |ts|
    ensures r.Success? ==> i < r.value.next <= |ts|
    decreases |ts| - i, 21
  {
    var e :- Expression(ts, i);
    var k := e.next;
    if k == |ts| then Failure(ReadOfUndefined)
    else Success(Parsed(e.node, if ts[k].kind == Comma then k + 1 else k))
  }

  /** `parseExpression`. */
  function Expression(ts: seq<Token>, i: nat): (r: Result<Parsed, ParseError>)
    requires i <= |ts|
    ensures r.Success? ==> i < r.value.next <= |ts|
    decreases |ts| - i, 20
  {
    Ternary(ts, i)
  }

  /** `parseTernay`: `cond ? a : b`, both branches full expressions. */
  function Ternary(ts: seq<Token>, i: nat): (r: Result<Parsed, ParseError>)
    requires i <= |ts|
    ensures r.Success? ==> i < r.value.next <= |ts|
    decreases |ts| - i, 19
  {
    var left :- Comparison(ts, i);
    var j := left.next;
    if FrontIs(ts, j, Question) then Conditional(ts, j, left.node)
    else Success(left)
  }

  /** The `?` branch of `parseTernary`: the consequent, a colon and the
      alternate. */
  function Conditional(ts: seq<Token>, i: nat, test: Node): (r: Result<Parsed, ParseError>)
    requires i < |ts| && ts[i].kind == Question
    ensures r.Success? ==> i < r.value.next <= |ts| && r.value.node.TernaryExpression?
    decreases |ts| - i, 0
  {
    var consequent :- Expression(ts, i + 1);
    var colon :- Match(ts, consequent.next, Colon, None);
    var alternate :- Expression(ts, colon.next);
    Success(Parsed(TernaryExpression(test, consequent.node, alternate.node), alternate.next))
  }

  /** A comparison operator token: its text is exactly `<` or `>`. */
  predicate IsComparison(t: Token)
  {
    t.kind == Operator && (t.value == Str("<") || t.value == Str(">"))
  }

  /** `parseComparisonExpr`: `<` or `>`, fused with a following `=`, and a
      right operand parsed at the same level. */
  function Comparison(ts: seq<Token>, i: nat): (r: Result<Parsed, ParseError>)
    requires i <= |ts|
    ensures r.Success? ==> i < r.value.next <= |ts|
    decreases |ts| - i, 18
  {
    var left :- ObjectLiteral(ts, i);
    var j := left.next;
    if j < |ts| && IsComparison(ts[j]) then ComparisonTail(ts, j, left.node)
    else Success(left)
  }

  /** The operator branch of `parseComparisonExpr`: a following `=` token
      fuses into the operator, and the right side nests to the right. */
  function ComparisonTail(ts: seq<Token>, i: nat, left: Node): (r: Result<Parsed, ParseError>)
    requires i < |ts| && IsComparison(ts[i])
    ensures r.Success? ==> i < r.value.next <= |ts|
    decreases |ts| - i, 0
  {
    var op := ts[i];
    if i + 1 == |ts| then Failure(ReadOfUndefined)
    else
      var fused := FrontOperator(ts, i + 1, "=");
      var op' := if fused then op.(value := Str(op.value.s + "=")) else op;
      var right :- Comparison(ts, if fused then i + 2 else i + 1);
      Success(Parsed(CompareExpression(left, op', right.node), right.next))
  }

  /** `parseObjectLiteral`: a braced property list, or the next level down
      when the front is not a brace. */
  function ObjectLiteral(ts: seq<Token>, i: nat): (r: Result<Parsed, ParseError>)
    requires i <= |ts|
    ensures r.Success? ==> i < r.value.next <= |ts|
    decreases |ts| - i, if FrontIs(ts, i, Curly) then 1 else 17
  {
    if i == |ts| then Failure(ReadOfUndefined)
    else if ts[i].kind != Curly then ArrayLiteral(ts, i)
    else
      var open :- Match(ts, i, Curly, Some("{"));
      Properties(ts, open.next, [])
  }

  /** Where the loop of `parseObjectLiteral` stops: a brace token or the
      text "}". */
  predicate EndsProperties(t: Token)
  {
    t.kind == Curly || t.value == Str("}")
  }

  /** The loop of `parseObjectLiteral`, with the closing brace. */
  function Properties(ts: seq<Token>, i: nat, acc: seq<Node>): (r: Result<Parsed, ParseError>)
    requires i <= |ts|
    ensures r.Success? ==> i < r.value.next <= |ts| && r.value.node.ObjectExpression?
    decreases |ts| - i, 5
  {
    if i == |ts| then Failure(ReadOfUndefined)
    else if EndsProperties(ts[i]) then
      var close :- Match(ts, i, Curly, Some("}"));
      Success(Parsed(ObjectExpression(acc), close.next))
    else
      var p :- PropertyItem(ts, i);
      Properties(ts, p.next, acc + [p.node])
  }

  /** One pass of that loop: a key, then `,` (shorthand), a brace followed
      by the text "}" (shorthand; the brace is left for the loop), or `:`,
      a value and an optional comma. */
  function PropertyItem(ts: seq<Token>, i: nat): (r: Result<Parsed, ParseError>)
    requires i <= |ts|
    ensures r.Success? ==> i < r.value.next <= |ts| && r.value.node.Property?
    decreases |ts| - i, 4
  {
    var key :- Identifier(ts, i);
    var j := key.next;
    if j == |ts| then Failure(ReadOfUndefined)
    else if ts[j].kind == Comma then Success(Parsed(Property(key.node, key.node), j + 1))
    else if ts[j].kind == Curly && j + 1 == |ts| then Failure(ReadOfUndefined)
    else if ts[j].kind == Curly && ts[j + 1].value == Str("}") then Success(Parsed(Property(key.node, key.node), j))
    else PropertyValue(ts, j, key.node)
  }

  /** `key: value` and an optional comma. */
  function PropertyValue(ts: seq<Token>, i: nat, key: Node): (r: Result<Parsed, ParseError>)
    requires i <= |ts|
    ensures r.Success? ==> i < r.value.next <= |ts| && r.value.node.Property?
    decreases |ts| - i, 0
  {
    var colon :- Match(ts, i, Colon, None);
    var value :- Expression(ts, colon.next);
    var k := value.next;
    if k == |ts| then Failure(ReadOfUndefined)
    else Success(Parsed(Property(key, value.node), if ts[k].kind == Comma then k + 1 else k))
  }

  /** `parseArrayLiteral`: a bracketed item list, each item a Property
      keyed by its position, or the next level down when the front is not
      a bracket. */
  function ArrayLiteral(ts: seq<Token>, i: nat): (r: Result<Parsed, ParseError>)
    requires i <= |ts|
    ensures r.Success? ==> i < r.value.next <= |ts|
    decreases |ts| - i, if FrontIs(ts, i, Bracket) then 1 else 16
  {
    if i == |ts| then Failure(ReadOfUndefined)
    else if ts[i].kind != Bracket then Equal(ts, i)
    else
      var open :- Match(ts, i, Bracket, Some("["));
      var j := open.next;
      if j == |ts| then Failure(ReadOfUndefined)
      else if ts[j].value == Str("]") then Success(Parsed(ArrayExpression([]), j + 1))
      else ArrayItems(ts, j, 0, [])
  }

  /** The key the array item at `index` gets. */
  function IndexKey(index: nat): Node
  {
    LiteralOf(Num(Int(index)))
  }

  /** The loop of `parseArrayLiteral`, with the closing bracket. */
  function ArrayItems(ts: seq<Token>, i: nat, index: nat, acc: seq<Node>): (r: Result<Parsed, ParseError>)
    requires i <= |ts|
    ensures r.Success? ==> i < r.value.next <= |ts| && r.value.node.ArrayExpression?
    decreases |ts| - i, 22
  {
    if i == |ts| || ts[i].value == Str("]") then
      var close :- Match(ts, i, Bracket, Some("]"));
      Success(Parsed(ArrayExpression(acc), close.next))
    else
      var e :- Item(ts, i);
      ArrayItems(ts, e.next, index + 1, acc + [Property(IndexKey(index), e.node)])
  }

  /** An operator whose text is exactly `=` or `!`. */
  predicate IsEqualOrBang(t: Token)
  {
    t.kind == Operator && (t.value == Str("=") || t.value == Str("!"))
  }

  /** `parseEqualExpr`: `=`/`!` followed by `=` is an equality test,
      otherwise an assignment; the right side is parsed at the same level. */
  function Equal(ts: seq<Token>, i: nat): (r: Result<Parsed, ParseError>)
    requires i <= |ts|
    ensures r.Success? ==> i < r.value.next <= |ts|
    decreases |ts| - i, 15
  {
    var left :- Call(ts, i);
    var j := left.next;
    if j < |ts| && IsEqualOrBang(ts[j]) then EqualTail(ts, j, left.node)
    else Success(left)
  }

  /** The operator branch of `parseEqualExpr`: `=` or `!` and a second `=`
      make an EqualExpression with the fused operator, a lone one an
      AssignmentExpression; the right side nests to the right. */
  function EqualTail(ts: seq<Token>, i: nat, left: Node): (r: Result<Parsed, ParseError>)
    requires i < |ts| && IsEqualOrBang(ts[i])
    ensures r.Success? ==> i < r.value.next <= |ts|
    decreases |ts| - i, 0
  {
    var op := ts[i];
    if i + 1 == |ts| then Failure(ReadOfUndefined)
    else if FrontOperator(ts, i + 1, "=") then
      var right :- Equal(ts, i + 2);
      Success(Parsed(EqualExpression(left, op.(value := Str(op.value.s + "=")), right.node), right.next))
    else
      var right :- Equal(ts, i + 1);
      Success(Parsed(AssignmentExpression(left, op, right.node), right.next))
  }

  /** `parseCall`: an operand followed by an opening parenthesis is
      called with the arguments that follow. */
  function Call(ts: seq<Token>, i: nat): (r: Result<Parsed, ParseError>)
    requires i <= |ts|
    ensures r.Success? ==> i < r.value.next <= |ts|
    decreases |ts| - i, 14
  {
    var left :- Binary(ts, i);
    var j := left.next;
    if FrontIs(ts, j, Paren) && FrontText(ts, j, "(") then
      var args :- Args(ts, j);
      Success(Parsed(CallExpression(left.node, args.nodes), args.next))
    else Success(left)
  }

  /** An arithmetic operator token. */
  predicate IsArithmetic(t: Token)
  {
    t.kind == Operator &&
    (t.value == Str("+") || t.value == Str("-") || t.value == Str("*") || t.value == Str("/"))
  }

  /** `parseBinaryExpr`: `+ - * /` all at one level, nested to the right. */
  function Binary(ts: seq<Token>, i: nat): (r: Result<Parsed, ParseError>)
    requires i <= |ts|
    ensures r.Success? ==> i < r.value.next <= |ts|
    decreases |ts| - i, 13
  {
    var left :- Member(ts, i);
    var j := left.next;
    if j < |ts| && IsArithmetic(ts[j]) then
      var right :- Binary(ts, j + 1);
      Success(Parsed(BinaryExpression(left.node, ts[j], right.node), right.next))
    else Success(left)
  }

  /** `parseMemberExpr`: two dots after an operand make a range whose step
      token reads ".."; otherwise `.name` and `[expr]` accessors. */
  function Member(ts: seq<Token>, i: nat): (r: Result<Parsed, ParseError>)
    requires i <= |ts|
    ensures r.Success? ==> i < r.value.next <= |ts|
    decreases |ts| - i, 12
  {
    var obj :- Primary(ts, i);
    var j := obj.next;
    if FrontIs(ts, j, Dot) && FrontIs(ts, j + 1, Dot) then RangeTail(ts, j, obj.node)
    else MemberTail(ts, j, obj.node)
  }

  /** The range branch of `parseMemberExpr`: two dots, then the end, which
      is itself a member expression; the first dot, its text changed to
      "..", is the step. */
  function RangeTail(ts: seq<Token>, i: nat, start: Node): (r: Result<Parsed, ParseError>)
    requires i + 1 < |ts| && ts[i].kind == Dot && ts[i + 1].kind == Dot
    ensures r.Success? ==> i + 2 < r.value.next <= |ts| && r.value.node.RangeExpression?
    decreases |ts| - i, 0
  {
    var end :- Member(ts, i + 2);
    Success(Parsed(RangeExpression(start, ts[i].(value := Str("..")), end.node), end.next))
  }

  /** Where the accessor loop of `parseMemberExpr` continues: the text "["
      or a dot token. */
  predicate StartsAccessor(ts: seq<Token>, i: nat)
  {
    FrontText(ts, i, "[") || FrontIs(ts, i, Dot)
  }

  /** The accessor loop of `parseMemberExpr`. */
  function MemberTail(ts: seq<Token>, i: nat, obj: Node): (r: Result<Parsed, ParseError>)
    requires i <= |ts|
    ensures r.Success? ==> i <= r.value.next <= |ts|
    decreases |ts| - i, 5
  {
    if StartsAccessor(ts, i) then
      var m :- Accessor(ts, i, obj);
      MemberTail(ts, m.next, m.node)
    else Success(Parsed(obj, i))
  }

  /** One pass of that loop: `.name`, `[expr]`, or an error for the text
      "[" in a token that is not a bracket. */
  function Accessor(ts: seq<Token>, i: nat, obj: Node): (r: Result<Parsed, ParseError>)
    requires i < |ts|
    ensures r.Success? ==> i < r.value.next <= |ts| && r.value.node.MemberExpression?
    decreases |ts| - i, 4
  {
    if ts[i].kind == Dot then
      var property :- Identifier(ts, i + 1);
      Success(Parsed(MemberExpression(obj, property.node, false), property.next))
    else if ts[i].kind == Bracket then
      var property :- Expression(ts, i + 1);
      var close :- Match(ts, property.next, Bracket, Some("]"));
      Success(Parsed(MemberExpression(obj, property.node, true), close.next))
    else Failure(UnexpectedTokenJson(ts[i]))
  }

  /** A parenthesised expression of `parsePrimary`, after the `(`. */
  function Grouped(ts: seq<Token>, i: nat): (r: Result<Parsed, ParseError>)
    requires i <= |ts|
    ensures r.Success? ==> i < r.value.next <= |ts|
    decreases |ts| - i, 21
  {
    var e :- Expression(ts, i);
    var close :- Match(ts, e.next, Paren, Some(")"));
    Success(Parsed(e.node, close.next))
  }

  /** An anonymous `fn`'s arguments and body, after the `fn`. */
  function Lambda(ts: seq<Token>, i: nat): (r: Result<Parsed, ParseError>)
    requires i <= |ts|
    ensures r.Success? ==> i <= r.value.next <= |ts| && r.value.node.LambdaFunctionDecl?
    decreases |ts| - i, 43
  {
    var args :- Args(ts, i);
    var body :- Block(ts, args.next, false);
    Success(Parsed(LambdaFunctionDecl(args.nodes, body.node), body.next))
  }

  /** The kinds `parsePrimary` turns into a Literal or a template. */
  predicate IsLiteralKind(k: TokenType)
  {
    k == Number || k == TokenKinds.Identifier || k == String || k == Boolean || k == NaN || k == Nil
  }

  /** `parsePrimary`. */
  function Primary(ts: seq<Token>, i: nat): (r: Result<Parsed, ParseError>)
    requires i <= |ts|
    ensures r.Success? ==> i < r.value.next <= |ts|
    decreases |ts| - i, 11
  {
    if i == |ts| then Failure(ReadOfUndefined)
    else
      var t := ts[i];
      if IsLiteralKind(t.kind) then
        Success(Parsed(if HasTemplate(ToStr(t.value)) then TemplateString(t) else Literal(t), i + 1))
      else
        match t.kind
        case Paren => Grouped(ts, i + 1)
        case Curly => ObjectLiteral(ts, i)
        case Bracket => ArrayLiteral(ts, i)
        case Fn => Lambda(ts, i + 1)
        case Run => RunStmt(ts, i)
        case Wait => WaitStmt(ts, i)
        case Default => SwitchCase(ts, i)
        case Case => SwitchCase(ts, i)
        case EmptyLine => Primary(ts, i + 1)
        case _ => Failure(UnexpectedTokenJson(t))
  }

  /** `parse`: the whole token sequence as a Program. */
  function Parse(ts: seq<Token>): (r: Result<Node, ParseError>)
    ensures r.Success? ==> r.value.Program?
    ensures ts == [] ==> r == Success(Program([]))
  {
    var body :- Statements(ts, 0, []);
    Success(Program(body.nodes))
  }

  // ---------------------------------------------------------------------
  // `parseTemplateString`: the pattern `{{ name }}` inside a literal's
  // text, as the regular expression /\{\{([^\}]+)\}\}/g finds it.
  // ---------------------------------------------------------------------

  /** The end of the run of characters other than `}` that starts at `j`. */
  function RunEnd(s: string, j: nat): (e: nat)
    requires j <= |s|
    ensures j <= e <= |s|
    ensures forall k :: j <= k < e ==> s[k] != '}'
    ensures e < |s| ==> s[e] == '}'
    decreases |s| - j
  {
    if j == |s| || s[j] == '}' then j else RunEnd(s, j + 1)
  }

  /** The pattern matches at `p`: "{{", at least one character other than
      `}`, then "}}". Since the run is greedy and stops only before a `}`,
      the match ends exactly at the end of the run. */
  predicate MatchAt(s: string, p: nat)
  {
    p + 2 <= |s| && s[p] == '{' && s[p + 1] == '{' &&
    var e := RunEnd(s, p + 2); e > p + 2 && e + 1 < |s| && s[e + 1] == '}'
  }

  /** The leftmost match at or after `from`, as `exec` finds it. */
  function FindMatch(s: string, from: nat): (r: Option<nat>)
    requires from <= |s|
    ensures r.Some? ==> from <= r.value < |s| && MatchAt(s, r.value)
    ensures r.Some? ==> forall p :: from <= p < r.value ==> !MatchAt(s, p)
    ensures r.None? ==> forall p :: from <= p <= |s| ==> !MatchAt(s, p)
    decreases |s| - from
  {
    if from == |s| then None
    else if MatchAt(s, from) then Some(from)
    else FindMatch(s, from + 1)
  }

  /** The pattern's `test`. */
  predicate HasTemplate(s: string)
  {
    FindMatch(s, 0).Some?
  }

  /** A template element: the token with a new column, kind and text; the
      line stays the token's. */
  function Segment(t: Token, column: nat, kind: TokenType, text: string): Node
  {
    TemplateElement(Literal(t.(column := column, kind := kind, value := Str(text))))
  }

  /** The loop of `parseTemplateString` from `last`: text before each match
      (when there is any) as a string element, the name between the braces
      as an identifier element, both at the match's column, and the
      trailing text as a string element at its own column. */
  function TemplateParts(t: Token, s: string, last: nat, acc: seq<Node>): (r: seq<Node>)
    requires last <= |s|
    ensures |r| >= |acc| && r[..|acc|] == acc
    decreases |s| - last
  {
    match FindMatch(s, last)
    case None =>
      if last < |s| then acc + [Segment(t, last, String, s[last..])] else acc
    case Some(p) =>
      var (more, next) := TemplateMatch(t, s, last, p);
      TemplateParts(t, s, next, acc + more)
  }

  /** One pass of that loop, for the match at `p`: the elements it adds
      and the index the search resumes from, just past the closing
      braces. */
  function TemplateMatch(t: Token, s: string, last: nat, p: nat): (r: (seq<Node>, nat))
    requires last <= p && MatchAt(s, p)
    ensures p + 4 < r.1 <= |s|
    ensures |r.0| == if p > last then 2 else 1
    ensures r.0[|r.0| - 1] == Segment(t, p, TokenKinds.Identifier, s[p + 2..r.1 - 2])
  {
    var e := RunEnd(s, p + 2);
    var before := if p > last then [Segment(t, p, String, s[last..p])] else [];
    (before + [Segment(t, p, TokenKinds.Identifier, s[p + 2..e])], e + 2)
  }

  /** `parseTemplateString(token)`. */
  function TemplateString(t: Token): (r: Node)
    ensures r.TemplateLiteralExpression?
  {
    TemplateLiteralExpression(TemplateParts(t, ToStr(t.value), 0, []))
  }
}
