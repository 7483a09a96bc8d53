/** The `Parser` class of src/parser/index.ts: a token queue that every
    parse method shifts from. Each method is proved to build the node the
    grammar function of the same name describes and to leave the queue at
    the position that function reports; `all` and `pos` are the tokens the
    current parse started from and how many of them are gone. */
module Parsing {
  import opened Wrappers
  import opened Host
  import opened TokenKinds
  import opened Ast
  import opened Literals
  import opened Grammar

  class Parser {
    /** The unread tokens. */
    var tokens: seq<Token>
    ghost var all: seq<Token>
    ghost var pos: nat

    ghost predicate Valid()
      reads this
    {
      pos <= |all| && tokens == all[pos..]
    }

    /** The front of the queue is the token at the read position. */
    lemma FrontAt()
      requires Valid()
      ensures |tokens| > 0 ==> pos < |all| && tokens[0] == all[pos]
      ensures |tokens| > 1 ==> tokens[1] == all[pos + 1]
    {
    }

    /** The method's result agrees with the grammar's, and the queue is
        where the grammar says the parse stopped. */
    ghost predicate Yields(r: Result<Node, ParseError>, s: Result<Parsed, ParseError>)
      reads this
    {
      (r.Success? <==> s.Success?) &&
      (s.Success? ==> r.value == s.value.node && pos == s.value.next) &&
      (s.Failure? ==> r.error == s.error)
    }

    ghost predicate YieldsList(r: Result<seq<Node>, ParseError>, s: Result<ParsedList, ParseError>)
      reads this
    {
      (r.Success? <==> s.Success?) &&
      (s.Success? ==> r.value == s.value.nodes && pos == s.value.next) &&
      (s.Failure? ==> r.error == s.error)
    }

    /** A new parser; the queue starts empty. */
    constructor ()
      ensures Valid() && tokens == [] && all == [] && pos == 0
    {
      tokens := [];
      all := [];
      pos := 0;
    }

    /** `pushStack(tokens)`: append to the queue. */
    method PushStack(more: seq<Token>)
      requires Valid()
      modifies this
      ensures Valid() && tokens == old(tokens) + more
      ensures all == old(all) + more && pos == old(pos)
    {
      tokens := tokens + more;
      all := all + more;
    }

    /** `at(k)`. */
    method At(k: nat) returns (t: Option<Token>)
      requires Valid()
      ensures t == Grammar.At(all, pos, k)
    {
      t := if k < |tokens| then Some(tokens[k]) else None;
    }

    /** `eat()`. */
    method Eat() returns (t: Option<Token>)
      requires Valid()
      modifies this
      ensures Valid() && all == old(all)
      ensures (t, pos) == Grammar.Eat(all, old(pos))
    {
      if |tokens| > 0 {
        t := Some(tokens[0]);
        tokens := tokens[1..];
        pos := pos + 1;
      } else {
        t := None;
      }
    }

    /** `match(tag, value)`: retries the front token up to its iteration
        bound without consuming it, then throws. */
    method Match(kind: TokenType, value: Option<string>) returns (r: Result<Token, ParseError>)
      requires Valid()
      modifies this
      ensures Valid() && all == old(all)
      ensures var m := Grammar.Match(all, old(pos), kind, value);
        (r.Success? <==> m.Success?) &&
        (m.Success? ==> r.value == m.value.token && pos == m.value.next) &&
        (m.Failure? ==> r.error == m.error && pos == old(pos))
    {
      var count := 0;
      while |tokens| > 0
        invariant Valid() && all == old(all) && pos == old(pos)
        invariant count <= 1000001
        invariant |tokens| > 0 ==> !Accepts(tokens[0], kind, value) || count == 0
        decreases 1000001 - count
      {
        var token := tokens[0];
        if Accepts(token, kind, value) {
          var t := Eat();
          return Success(token);
        }
        count := count + 1;
        if count > 1000000 {
          return Failure(InfiniteLoopToMatch(kind, token));
        }
      }
      return Failure(UnexpectedTag(kind));
    }

    /** `parseIdentifier`. */
    method ParseIdentifier() returns (r: Result<Node, ParseError>)
      requires Valid()
      modifies this
      ensures Valid() && all == old(all)
      ensures Yields(r, Grammar.Identifier(all, old(pos)))
    {
      var m := Match(TokenKinds.Identifier, None);
      if m.Failure? {
        return Failure(m.error);
      }
      return Success(Literal(m.value));
    }

    /** `parseString`. */
    method ParseString() returns (r: Result<Node, ParseError>)
      requires Valid()
      modifies this
      ensures Valid() && all == old(all)
      ensures Yields(r, StringLiteral(all, old(pos)))
    {
      if |tokens| == 0 {
        return Failure(ReadOfUndefined);
      }
      if tokens[0].kind != String {
        return Failure(UnexpectedTag(tokens[0].kind));
      }
      var t := Eat();
      return Success(Literal(t.value));
    }

    /** `parseDefaultAs`. */
    method ParseDefaultAs() returns (r: Result<Node, ParseError>)
      requires Valid() && pos < |all| && all[pos].kind == As
      modifies this
      ensures Valid() && all == old(all)
      ensures var s := DefaultAs(all, old(pos));
        (r.Success? <==> s.Success?) &&
        (s.Success? ==> [r.value] == s.value.nodes && pos == s.value.next) &&
        (s.Failure? ==> r.error == s.error)
    {
      var m := Match(As, None);
      assert m.Success?;
      var local := ParseIdentifier();
      if local.Failure? {
        return Failure(local.error);
      }
      return Success(UseDefaultSpecifier(local.value));
    }

    /** `parseAs`. */
    method ParseAs() returns (r: Result<seq<Node>, ParseError>)
      requires Valid()
      modifies this
      ensures Valid() && all == old(all)
      ensures YieldsList(r, AsList(all, old(pos)))
    {
      var open := Match(Paren, Some("("));
      if open.Failure? {
        return Failure(open.error);
      }
      ghost var start := pos;
      var specifiers: seq<Node> := [];
      while true
        invariant Valid() && all == old(all) && start <= pos
        invariant AsList(all, old(pos)) == Specifiers(all, pos, specifiers)
        decreases |all| - pos
      {
        if |tokens| == 0 {
          return Failure(ReadOfUndefined);
        }
        if tokens[0].kind == Paren {
          break;
        }
        var item := ParseSpecifier();
        if item.Failure? {
          return Failure(item.error);
        }
        specifiers := specifiers + [item.value];
      }
      var close := Match(Paren, Some(")"));
      if close.Failure? {
        return Failure(close.error);
      }
      return Success(specifiers);
    }

    /** One item of `parseAs`'s loop. */
    method ParseSpecifier() returns (r: Result<Node, ParseError>)
      requires Valid()
      modifies this
      ensures Valid() && all == old(all)
      ensures Yields(r, SpecifierItem(all, old(pos)))
    {
      var local := ParseIdentifier();
      if local.Failure? {
        return Failure(local.error);
      }
      if |tokens| == 0 {
        return Failure(ReadOfUndefined);
      }
      var remote: Option<Node> := None;
      if tokens[0].kind == As {
        var m := Match(As, None);
        assert m.Success?;
        var name := ParseIdentifier();
        if name.Failure? {
          return Failure(name.error);
        }
        remote := Some(name.value);
      }
      if |tokens| == 0 {
        return Failure(ReadOfUndefined);
      }
      if tokens[0].kind == Comma {
        var comma := Eat();
      }
      return Success(UseSpecifier(local.value, remote));
    }

    /** `parseUse`. */
    method ParseUse() returns (r: Result<Node, ParseError>)
      requires Valid() && pos < |all|
      modifies this
      ensures Valid() && all == old(all)
      ensures Yields(r, UseDecl(all, old(pos)))
    {
      FrontAt();
      var id := Eat();
      var source := ParseString();
      if source.Failure? {
        return Failure(source.error);
      }
      if |tokens| == 0 {
        return Failure(ReadOfUndefined);
      }
      FrontAt();
      if tokens[0].kind == As {
        var local := ParseDefaultAs();
        if local.Failure? {
          return Failure(local.error);
        }
        r := ParseUsePick(id.value, source.value, [local.value]);
      } else {
        r := ParseUsePick(id.value, source.value, []);
      }
    }

    /** The optional `pick` clause. */
    method ParseUsePick(id: Token, source: Node, dflt: seq<Node>) returns (r: Result<Node, ParseError>)
      requires Valid()
      modifies this
      ensures Valid() && all == old(all)
      ensures Yields(r, UsePick(all, old(pos), id, source, dflt))
    {
      if |tokens| == 0 {
        return Failure(ReadOfUndefined);
      }
      FrontAt();
      if tokens[0].kind == Pick {
        var m := Match(Pick, None);
        assert m.Success?;
        var picked := ParseAs();
        if picked.Failure? {
          return Failure(picked.error);
        }
        return Success(UseDeclaration(source, dflt + picked.value, Some(id)));
      }
      return Success(UseDeclaration(source, dflt, Some(id)));
    }

    /** `parse(tokens?)`: a new queue when one is given, then statements
        until the queue is empty. */
    method Parse(input: Option<seq<Token>>) returns (r: Result<Node, ParseError>)
      requires Valid()
      modifies this
      ensures Valid()
      ensures all == if input.Some? then input.value else old(tokens)
      ensures r == Grammar.Parse(all)
      ensures r.Success? ==> tokens == []
    {
      if input.Some? {
        tokens := input.value;
      }
      all := tokens;
      pos := 0;
      ghost var source := all;
      var body: seq<Node> := [];
      while |tokens| > 0
        invariant Valid() && all == source
        invariant Statements(all, 0, []) == Statements(all, pos, body)
        decreases |all| - pos
      {
        var s := ParseStatement();
        if s.Failure? {
          return Failure(s.error);
        }
        body := body + [s.value];
      }
      return Success(Program(body));
    }

    /** `parseStatement`. */
    method ParseStatement() returns (r: Result<Node, ParseError>)
      requires Valid()
      modifies this
      ensures Valid() && all == old(all)
      ensures Yields(r, Statement(all, old(pos)))
      decreases |all| - pos, 40
    {
      if |tokens| == 0 {
        return Failure(ReadOfUndefined);
      }
      match tokens[0].kind
      case EmptyLine =>
        var id := Eat();
        r := Success(Node.EmptyLine(id));
      case Use =>
        r := ParseUse();
      case Comment =>
        var id := Eat();
        r := Success(CommentStatement(id));
      case Task =>
        r := ParseTask();
      case Let =>
        r := ParseVariable();
      case Cst =>
        r := ParseVariable();
      case If =>
        r := ParseIf();
      case Fn =>
        r := ParseFunction();
      case For =>
        r := ParseFor();
      case Switch =>
        r := ParseSwitch();
      case Return =>
        r := ParseReturn();
      case Expose =>
        r := ParseExpose();
      case Run =>
        r := ParseRun();
      case Wait =>
        r := ParseWait();
      case _ =>
        r := ParseExpression();
    }

    /** `parseTask`. */
    method ParseTask() returns (r: Result<Node, ParseError>)
      requires Valid() && pos < |all|
      modifies this
      ensures Valid() && all == old(all)
      ensures Yields(r, TaskStmt(all, old(pos)))
      decreases |all| - pos, 30
    {
      var id := Eat();
      var fn := ParseFunction();
      if fn.Failure? {
        return Failure(fn.error);
      }
      return Success(TaskStatement(fn.value, id));
    }

    /** `parseExpose`. */
    method ParseExpose() returns (r: Result<Node, ParseError>)
      requires Valid() && pos < |all|
      modifies this
      ensures Valid() && all == old(all)
      ensures Yields(r, ExposeStmt(all, old(pos)))
      decreases |all| - pos, 30
    {
      var id := Eat();
      var body := ParseStatement();
      if body.Failure? {
        return Failure(body.error);
      }
      return Success(ExposeStatement(body.value, id));
    }

    /** `parseReturn`. */
    method ParseReturn() returns (r: Result<Node, ParseError>)
      requires Valid() && pos < |all|
      modifies this
      ensures Valid() && all == old(all)
      ensures Yields(r, ReturnStmt(all, old(pos)))
      decreases |all| - pos, 30
    {
      var id := Eat();
      var value := ParseExpression();
      if value.Failure? {
        return Failure(value.error);
      }
      return Success(ReturnStatement(value.value, id));
    }

    /** `parseVariable`. */
    method ParseVariable() returns (r: Result<Node, ParseError>)
      requires Valid() && pos < |all|
      modifies this
      ensures Valid() && all == old(all)
      ensures Yields(r, VariableDecl(all, old(pos)))
      decreases |all| - pos, 30
    {
      var isConst := tokens[0].kind == Cst;
      var preId := Eat();
      var name := ParseIdentifier();
      if name.Failure? {
        return Failure(name.error);
      }
      if |tokens| == 0 {
        return Failure(ReadOfUndefined);
      }
      if tokens[0].kind == Operator && tokens[0].value == Str("=") {
        var eq := Eat();
        var value := ParseExpression();
        if value.Failure? {
          return Failure(value.error);
        }
        return Success(VariableDeclaration(name.value, value.value, isConst, preId));
      }
      return Failure(UnexpectedTag(tokens[0].kind));
    }

    /** `parseIf`. */
    method ParseIf() returns (r: Result<Node, ParseError>)
      requires Valid() && pos < |all|
      modifies this
      ensures Valid() && all == old(all)
      ensures Yields(r, IfStmt(all, old(pos)))
      decreases |all| - pos, 30
    {
      FrontAt();
      var id := Eat();
      var test := ParseExpression();
      if test.Failure? {
        return Failure(test.error);
      }
      var consequent := ParseBlock(true);
      if consequent.Failure? {
        return Failure(consequent.error);
      }
      r := ParseIfTail(id.value, test.value, consequent.value);
    }

    /** `else` and the alternate, or `end`. */
    method ParseIfTail(id: Token, test: Node, consequent: Node) returns (r: Result<Node, ParseError>)
      requires Valid()
      modifies this
      ensures Valid() && all == old(all)
      ensures Yields(r, IfTail(all, old(pos), id, test, consequent))
      decreases |all| - pos, 0
    {
      if |tokens| == 0 {
        return Failure(ReadOfUndefined);
      }
      FrontAt();
      if tokens[0].kind == Else {
        var m := Match(Else, None);
        assert m.Success?;
        var alternate := ParseBlock(false);
        if alternate.Failure? {
          return Failure(alternate.error);
        }
        return Success(IfStatement(test, consequent, alternate.value, Some(id)));
      }
      var end := Match(End, None);
      if end.Failure? {
        return Failure(end.error);
      }
      return Success(IfStatement(test, consequent, BlockStatement([], None), Some(id)));
    }

    /** `parseFunction`. */
    method ParseFunction() returns (r: Result<Node, ParseError>)
      requires Valid()
      modifies this
      ensures Valid() && all == old(all)
      ensures Yields(r, FunctionDecl(all, old(pos)))
      decreases |all| - pos, 30
    {
      var preId := Eat();
      var name := ParseIdentifier();
      if name.Failure? {
        return Failure(name.error);
      }
      var args := ParseArgs();
      if args.Failure? {
        return Failure(args.error);
      }
      var body := ParseBlock(false);
      if body.Failure? {
        return Failure(body.error);
      }
      return Success(FunctionDeclaration(name.value, args.value, body.value, preId));
    }

    /** `parseFor`. */
    method ParseFor() returns (r: Result<Node, ParseError>)
      requires Valid() && pos < |all|
      modifies this
      ensures Valid() && all == old(all)
      ensures Yields(r, ForStmt(all, old(pos)))
      decreases |all| - pos, 30
    {
      FrontAt();
      var id := Eat();
      var init := ParseIdentifier();
      if init.Failure? {
        return Failure(init.error);
      }
      r := ParseForItem(id.value, init.value);
    }

    /** The optional `, value`. */
    method ParseForItem(id: Token, init: Node) returns (r: Result<Node, ParseError>)
      requires Valid()
      modifies this
      ensures Valid() && all == old(all)
      ensures Yields(r, ForItem(all, old(pos), id, init))
      decreases |all| - pos, 1
    {
      if |tokens| == 0 {
        return Failure(ReadOfUndefined);
      }
      FrontAt();
      ghost var start := pos;
      if tokens[0].kind == Comma {
        var comma := Match(Comma, None);
        assert comma.Success?;
        var v := ParseIdentifier();
        if v.Failure? {
          return Failure(v.error);
        }
        assert ForItem(all, start, id, init) == ForIn(all, pos, id, init, Some(v.value));
        r := ParseForIn(id, init, Some(v.value));
      } else {
        r := ParseForIn(id, init, None);
      }
    }

    /** `in`, the range expression and the body. */
    method ParseForIn(id: Token, init: Node, item: Option<Node>) returns (r: Result<Node, ParseError>)
      requires Valid()
      modifies this
      ensures Valid() && all == old(all)
      ensures Yields(r, ForIn(all, old(pos), id, init, item))
      decreases |all| - pos, 0
    {
      var m := Match(In, None);
      if m.Failure? {
        return Failure(m.error);
      }
      var range := ParseExpression();
      if range.Failure? {
        return Failure(range.error);
      }
      var body := ParseBlock(false);
      if body.Failure? {
        return Failure(body.error);
      }
      return Success(ForStatement(init, item, range.value, body.value, LiteralOf(Num(Int(1))), Some(id)));
    }

    /** `parseSwitch`. */
    method ParseSwitch() returns (r: Result<Node, ParseError>)
      requires Valid() && pos < |all|
      modifies this
      ensures Valid() && all == old(all)
      ensures Yields(r, SwitchStmt(all, old(pos)))
      decreases |all| - pos, 30
    {
      var id := Eat();
      var test := ParseExpression();
      if test.Failure? {
        return Failure(test.error);
      }
      var colon := Match(Colon, None);
      if colon.Failure? {
        return Failure(colon.error);
      }
      ghost var start := pos;
      var cases: seq<Node> := [];
      while true
        invariant Valid() && all == old(all) && start <= pos
        invariant SwitchCases(all, start, []) == SwitchCases(all, pos, cases)
        decreases |all| - pos
      {
        if |tokens| == 0 {
          return Failure(ReadOfUndefined);
        }
        if tokens[0].kind == End {
          break;
        }
        var c := ParseSwitchCase();
        if c.Failure? {
          return Failure(c.error);
        }
        cases := cases + [c.value];
      }
      var end := Match(End, None);
      assert end.Success?;
      return Success(SwitchStatement(test.value, cases, id));
    }

    /** `parseSwitchCase`. */
    method ParseSwitchCase() returns (r: Result<Node, ParseError>)
      requires Valid()
      modifies this
      ensures Valid() && all == old(all)
      ensures Yields(r, SwitchCase(all, old(pos)))
      decreases |all| - pos, 2
    {
      if |tokens| == 0 {
        return Failure(ReadOfUndefined);
      }
      var kind := tokens[0].kind;
      var token := Eat();
      if kind == Case {
        var test := ParseExpression();
        if test.Failure? {
          return Failure(test.error);
        }
        r := ParseCaseArm(Case, Some(test.value));
      } else if kind == Default {
        r := ParseCaseArm(Default, None);
      } else {
        r := Failure(Raised("Unexpected case token: " + NatToString(Ordinal(kind))));
      }
    }

    /** A `case` or `default` arm from its colon on. */
    method ParseCaseArm(kind: TokenType, test: Option<Node>) returns (r: Result<Node, ParseError>)
      requires Valid()
      modifies this
      ensures Valid() && all == old(all)
      ensures Yields(r, CaseArm(all, old(pos), kind, test))
      decreases |all| - pos, 0
    {
      var colon := Match(Colon, Some(":"));
      if colon.Failure? {
        return Failure(colon.error);
      }
      ghost var start := pos;
      var body: seq<Node> := [];
      FrontAt();
      while |tokens| > 0 && !EndsCaseBody(tokens[0])
        invariant Valid() && all == old(all) && start <= pos
        invariant CaseBody(all, start, []) == CaseBody(all, pos, body)
        decreases |all| - pos
      {
        var s := ParseStatement();
        if s.Failure? {
          return Failure(s.error);
        }
        body := body + [s.value];
        FrontAt();
      }
      r := ParseCaseEnd(kind, test, body);
    }

    /** The end of an arm: the `break` unless the body ends in `return`. */
    method ParseCaseEnd(kind: TokenType, test: Option<Node>, body: seq<Node>) returns (r: Result<Node, ParseError>)
      requires Valid()
      modifies this
      ensures Valid() && all == old(all)
      ensures Yields(r, CaseEnd(all, old(pos), kind, test, body))
    {
      if |body| == 0 {
        return Failure(ReadOfUndefined);
      }
      if !body[|body| - 1].ReturnStatement? {
        var b := Match(Break, None);
        if b.Failure? {
          return Failure(b.error);
        }
      }
      var block := BlockStatement(body, None);
      return Success(if kind == Case then DefaultCaseBlockStatement(test, block) else CaseBlockStatement(test, block));
    }

    /** `parseRun`. On an empty queue the callee's first read fails, which
        is checked before the call. */
    method ParseRun() returns (r: Result<Node, ParseError>)
      requires Valid()
      modifies this
      ensures Valid() && all == old(all)
      ensures Yields(r, RunStmt(all, old(pos)))
      decreases |all| - pos, 2
    {
      if |tokens| == 0 {
        return Failure(ReadOfUndefined);
      }
      var id := Eat();
      var callee := ParseCall();
      if callee.Failure? {
        return Failure(callee.error);
      }
      if |tokens| == 0 {
        return Failure(ReadOfUndefined);
      }
      var stages: seq<Node> := [];
      if tokens[0].kind == To {
        ghost var start := pos;
        while true
          invariant Valid() && all == old(all) && start <= pos
          invariant ToStages(all, start, []) == ToStages(all, pos, stages)
          decreases |all| - pos
        {
          if |tokens| == 0 {
            return Failure(ReadOfUndefined);
          }
          if tokens[0].kind != To {
            break;
          }
          var stage := ParseTo();
          if stage.Failure? {
            return Failure(stage.error);
          }
          stages := stages + [stage.value];
        }
        var end := Match(End, None);
        if end.Failure? {
          return Failure(end.error);
        }
      }
      return Success(RunStatement(callee.value, stages, id));
    }

    /** `parseTo`. */
    method ParseTo() returns (r: Result<Node, ParseError>)
      requires Valid()
      modifies this
      ensures Valid() && all == old(all)
      ensures Yields(r, ToExpr(all, old(pos)))
      decreases |all| - pos, 0
    {
      var m := Match(To, None);
      if m.Failure? {
        return Failure(m.error);
      }
      var args := ParseArgs();
      if args.Failure? {
        return Failure(args.error);
      }
      var body := ParseBlock(true);
      if body.Failure? {
        return Failure(body.error);
      }
      return Success(ToExpression(args.value, body.value));
    }

    /** `parseWait`. */
    method ParseWait() returns (r: Result<Node, ParseError>)
      requires Valid() && pos < |all|
      modifies this
      ensures Valid() && all == old(all)
      ensures Yields(r, WaitStmt(all, old(pos)))
      decreases |all| - pos, 2
    {
      var id := Eat();
      var run := ParseRun();
      if run.Failure? {
        return Failure(run.error);
      }
      return Success(WaitStatement(run.value, id));
    }

    /** `parseBlock(noEnd)`. */
    method ParseBlock(noEnd: bool) returns (r: Result<Node, ParseError>)
      requires Valid()
      modifies this
      ensures Valid() && all == old(all)
      ensures Yields(r, Block(all, old(pos), noEnd))
      decreases |all| - pos, 42
    {
      var id := Eat();
      ghost var start := pos;
      var body: seq<Node> := [];
      while |tokens| > 0 && tokens[0].kind != End && tokens[0].kind != Else
        invariant Valid() && all == old(all) && start <= pos
        invariant BlockBody(all, start, []) == BlockBody(all, pos, body)
        decreases |all| - pos
      {
        var s := ParseStatement();
        if s.Failure? {
          return Failure(s.error);
        }
        body := body + [s.value];
      }
      if !noEnd {
        var end := Match(End, None);
        if end.Failure? {
          return Failure(end.error);
        }
      }
      return Success(BlockStatement(body, id));
    }

    /** `parseArgs`. */
    method ParseArgs() returns (r: Result<seq<Node>, ParseError>)
      requires Valid()
      modifies this
      ensures Valid() && all == old(all)
      ensures YieldsList(r, Args(all, old(pos)))
      decreases |all| - pos, 0
    {
      if |tokens| == 0 {
        return Failure(ReadOfUndefined);
      }
      if tokens[0].kind == Colon {
        return Success([]);
      }
      var open := Match(Paren, Some("("));
      if open.Failure? {
        return Failure(open.error);
      }
      if |tokens| == 0 {
        return Failure(ReadOfUndefined);
      }
      if tokens[0].value == Str(")") {
        var close := Eat();
        return Success([]);
      }
      ghost var start := pos;
      var args: seq<Node> := [];
      while |tokens| > 0 && tokens[0].kind != Paren
        invariant Valid() && all == old(all) && start <= pos
        invariant ArgList(all, start, []) == ArgList(all, pos, args)
        decreases |all| - pos
      {
        var e := ParseItem();
        if e.Failure? {
          return Failure(e.error);
        }
        args := args + [e.value];
      }
      var close := Match(Paren, Some(")"));
      if close.Failure? {
        return Failure(close.error);
      }
      return Success(args);
    }

    /** `parseExpression`. */
    method ParseExpression() returns (r: Result<Node, ParseError>)
      requires Valid()
      modifies this
      ensures Valid() && all == old(all)
      ensures Yields(r, Expression(all, old(pos)))
      decreases |all| - pos, 20
    {
      r := ParseTernary();
    }

    /** `parseTernay`. */
    method ParseTernary() returns (r: Result<Node, ParseError>)
      requires Valid()
      modifies this
      ensures Valid() && all == old(all)
      ensures Yields(r, Ternary(all, old(pos)))
      decreases |all| - pos, 19
    {
      var left := ParseComparison();
      if left.Failure? {
        return left;
      }
      FrontAt();
      if |tokens| > 0 && tokens[0].kind == Question {
        r := ParseConditional(left.value);
      } else {
        r := left;
      }
    }

    /** The `?` branch: consequent, colon, alternate. */
    method ParseConditional(test: Node) returns (r: Result<Node, ParseError>)
      requires Valid() && pos < |all| && all[pos].kind == Question
      modifies this
      ensures Valid() && all == old(all)
      ensures Yields(r, Conditional(all, old(pos), test))
      decreases |all| - pos, 0
    {
      var question := Eat();
      var consequent := ParseExpression();
      if consequent.Failure? {
        return Failure(consequent.error);
      }
      var colon := Match(Colon, None);
      if colon.Failure? {
        return Failure(colon.error);
      }
      var alternate := ParseExpression();
      if alternate.Failure? {
        return Failure(alternate.error);
      }
      return Success(TernaryExpression(test, consequent.value, alternate.value));
    }

    /** `parseComparisonExpr`. */
    method ParseComparison() returns (r: Result<Node, ParseError>)
      requires Valid()
      modifies this
      ensures Valid() && all == old(all)
      ensures Yields(r, Comparison(all, old(pos)))
      decreases |all| - pos, 18
    {
      var left := ParseObjectLiteral();
      if left.Failure? {
        return left;
      }
      FrontAt();
      if |tokens| > 0 && IsComparison(tokens[0]) {
        r := ParseComparisonTail(left.value);
        return;
      }
      return left;
    }

    /** The operator branch of `parseComparisonExpr`. */
    method ParseComparisonTail(left: Node) returns (r: Result<Node, ParseError>)
      requires Valid() && pos < |all| && IsComparison(all[pos])
      modifies this
      ensures Valid() && all == old(all)
      ensures Yields(r, ComparisonTail(all, old(pos), left))
      decreases |all| - pos, 0
    {
      var op := Eat();
      FrontAt();
      if |tokens| == 0 {
        return Failure(ReadOfUndefined);
      }
      var operator := op.value;
      if tokens[0].kind == Operator && tokens[0].value == Str("=") {
        var eq := Eat();
        operator := operator.(value := Str(operator.value.s + "="));
      }
      var right := ParseComparison();
      if right.Failure? {
        return Failure(right.error);
      }
      return Success(CompareExpression(left, operator, right.value));
    }

    /** `parseObjectLiteral`. */
    method ParseObjectLiteral() returns (r: Result<Node, ParseError>)
      requires Valid()
      modifies this
      ensures Valid() && all == old(all)
      ensures Yields(r, ObjectLiteral(all, old(pos)))
      decreases |all| - pos, if FrontIs(all, pos, Curly) then 1 else 17
    {
      if |tokens| == 0 {
        return Failure(ReadOfUndefined);
      }
      if tokens[0].kind != Curly {
        r := ParseArrayLiteral();
        return;
      }
      var open := Match(Curly, Some("{"));
      if open.Failure? {
        return Failure(open.error);
      }
      ghost var start := pos;
      var properties: seq<Node> := [];
      while true
        invariant Valid() && all == old(all) && start <= pos
        invariant Properties(all, start, []) == Properties(all, pos, properties)
        decreases |all| - pos
      {
        if |tokens| == 0 {
          return Failure(ReadOfUndefined);
        }
        if EndsProperties(tokens[0]) {
          break;
        }
        var p := ParseProperty();
        if p.Failure? {
          return Failure(p.error);
        }
        properties := properties + [p.value];
      }
      var close := Match(Curly, Some("}"));
      if close.Failure? {
        return Failure(close.error);
      }
      return Success(ObjectExpression(properties));
    }

    /** One pass of `parseObjectLiteral`'s loop. */
    method ParseProperty() returns (r: Result<Node, ParseError>)
      requires Valid()
      modifies this
      ensures Valid() && all == old(all)
      ensures Yields(r, PropertyItem(all, old(pos)))
      decreases |all| - pos, 4
    {
      var key := ParseIdentifier();
      if key.Failure? {
        return Failure(key.error);
      }
      if |tokens| == 0 {
        return Failure(ReadOfUndefined);
      }
      if tokens[0].kind == Comma {
        var comma := Eat();
        return Success(Property(key.value, key.value));
      }
      if tokens[0].kind == Curly {
        if |tokens| == 1 {
          return Failure(ReadOfUndefined);
        }
        if tokens[1].value == Str("}") {
          return Success(Property(key.value, key.value));
        }
      }
      r := ParsePropertyValue(key.value);
    }

    /** `key: value` and an optional comma. */
    method ParsePropertyValue(key: Node) returns (r: Result<Node, ParseError>)
      requires Valid()
      modifies this
      ensures Valid() && all == old(all)
      ensures Yields(r, PropertyValue(all, old(pos), key))
      decreases |all| - pos, 0
    {
      var colon := Match(Colon, None);
      if colon.Failure? {
        return Failure(colon.error);
      }
      var value := ParseExpression();
      if value.Failure? {
        return Failure(value.error);
      }
      FrontAt();
      if |tokens| == 0 {
        return Failure(ReadOfUndefined);
      }
      if tokens[0].kind == Comma {
        var comma := Match(Comma, None);
        assert comma.Success?;
      }
      return Success(Property(key, value.value));
    }

    /** An expression, then a comma if there is one: one pass of the
        argument and array loops. */
    method ParseItem() returns (r: Result<Node, ParseError>)
      requires Valid()
      modifies this
      ensures Valid() && all == old(all)
      ensures Yields(r, Item(all, old(pos)))
      decreases |all| - pos, 21
    {
      var e := ParseExpression();
      if e.Failure? {
        return e;
      }
      if |tokens| == 0 {
        return Failure(ReadOfUndefined);
      }
      if tokens[0].kind == Comma {
        var comma := Eat();
      }
      return e;
    }

    /** `parseArrayLiteral`. */
    method ParseArrayLiteral() returns (r: Result<Node, ParseError>)
      requires Valid()
      modifies this
      ensures Valid() && all == old(all)
      ensures Yields(r, ArrayLiteral(all, old(pos)))
      decreases |all| - pos, if FrontIs(all, pos, Bracket) then 1 else 16
    {
      if |tokens| == 0 {
        return Failure(ReadOfUndefined);
      }
      if tokens[0].kind != Bracket {
        r := ParseEqual();
        return;
      }
      var open := Match(Bracket, Some("["));
      if open.Failure? {
        return Failure(open.error);
      }
      if |tokens| == 0 {
        return Failure(ReadOfUndefined);
      }
      if tokens[0].value == Str("]") {
        var close := Eat();
        return Success(ArrayExpression([]));
      }
      ghost var start := pos;
      var items: seq<Node> := [];
      var index := 0;
      while |tokens| > 0 && tokens[0].value != Str("]")
        invariant Valid() && all == old(all) && start <= pos
        invariant ArrayItems(all, start, 0, []) == ArrayItems(all, pos, index, items)
        decreases |all| - pos
      {
        var e := ParseItem();
        if e.Failure? {
          return Failure(e.error);
        }
        items := items + [Property(IndexKey(index), e.value)];
        index := index + 1;
      }
      var close := Match(Bracket, Some("]"));
      if close.Failure? {
        return Failure(close.error);
      }
      return Success(ArrayExpression(items));
    }

    /** `parseEqualExpr`. */
    method ParseEqual() returns (r: Result<Node, ParseError>)
      requires Valid()
      modifies this
      ensures Valid() && all == old(all)
      ensures Yields(r, Equal(all, old(pos)))
      decreases |all| - pos, 15
    {
      var left := ParseCall();
      if left.Failure? {
        return left;
      }
      FrontAt();
      if |tokens| > 0 && IsEqualOrBang(tokens[0]) {
        r := ParseEqualTail(left.value);
        return;
      }
      return left;
    }

    /** The operator branch of `parseEqualExpr`. */
    method ParseEqualTail(left: Node) returns (r: Result<Node, ParseError>)
      requires Valid() && pos < |all| && IsEqualOrBang(all[pos])
      modifies this
      ensures Valid() && all == old(all)
      ensures Yields(r, EqualTail(all, old(pos), left))
      decreases |all| - pos, 0
    {
      var op := Eat();
      FrontAt();
      if |tokens| == 0 {
        return Failure(ReadOfUndefined);
      }
      if tokens[0].kind == Operator && tokens[0].value == Str("=") {
        var eq := Eat();
        var right := ParseEqual();
        if right.Failure? {
          return Failure(right.error);
        }
        return Success(EqualExpression(left, op.value.(value := Str(op.value.value.s + "=")), right.value));
      }
      var right := ParseEqual();
      if right.Failure? {
        return Failure(right.error);
      }
      return Success(AssignmentExpression(left, op.value, right.value));
    }

    /** `parseCall`. */
    method ParseCall() returns (r: Result<Node, ParseError>)
      requires Valid()
      modifies this
      ensures Valid() && all == old(all)
      ensures Yields(r, Call(all, old(pos)))
      decreases |all| - pos, 14
    {
      var left := ParseBinary();
      if left.Failure? {
        return left;
      }
      if |tokens| > 0 && tokens[0].kind == Paren && tokens[0].value == Str("(") {
        var args := ParseArgs();
        if args.Failure? {
          return Failure(args.error);
        }
        return Success(CallExpression(left.value, args.value));
      }
      return left;
    }

    /** `parseBinaryExpr`. */
    method ParseBinary() returns (r: Result<Node, ParseError>)
      requires Valid()
      modifies this
      ensures Valid() && all == old(all)
      ensures Yields(r, Binary(all, old(pos)))
      decreases |all| - pos, 13
    {
      var left := ParseMember();
      if left.Failure? {
        return left;
      }
      if |tokens| > 0 && IsArithmetic(tokens[0]) {
        var op := Eat();
        var right := ParseBinary();
        if right.Failure? {
          return Failure(right.error);
        }
        return Success(BinaryExpression(left.value, op.value, right.value));
      }
      return left;
    }

    /** `parseMemberExpr`. */
    method ParseMember() returns (r: Result<Node, ParseError>)
      requires Valid()
      modifies this
      ensures Valid() && all == old(all)
      ensures Yields(r, Member(all, old(pos)))
      decreases |all| - pos, 12
    {
      var obj := ParsePrimary();
      if obj.Failure? {
        return obj;
      }
      FrontAt();
      if |tokens| > 1 && tokens[0].kind == Dot && tokens[1].kind == Dot {
        r := ParseRange(obj.value);
      } else {
        r := ParseMemberTail(obj.value);
      }
    }

    /** The range branch of `parseMemberExpr`. */
    method ParseRange(start: Node) returns (r: Result<Node, ParseError>)
      requires Valid() && pos + 1 < |all| && all[pos].kind == Dot && all[pos + 1].kind == Dot
      modifies this
      ensures Valid() && all == old(all)
      ensures Yields(r, RangeTail(all, old(pos), start))
      decreases |all| - pos, 0
    {
      var operator := Eat();
      var step := operator.value.(value := Str(".."));
      var second := Eat();
      var end := ParseMember();
      if end.Failure? {
        return Failure(end.error);
      }
      return Success(RangeExpression(start, step, end.value));
    }

    /** The accessor loop of `parseMemberExpr`. */
    method ParseMemberTail(obj: Node) returns (r: Result<Node, ParseError>)
      requires Valid()
      modifies this
      ensures Valid() && all == old(all)
      ensures Yields(r, MemberTail(all, old(pos), obj))
      decreases |all| - pos, 5
    {
      ghost var start := pos;
      var node := obj;
      FrontAt();
      while |tokens| > 0 && (tokens[0].value == Str("[") || tokens[0].kind == Dot)
        invariant Valid() && all == old(all) && start <= pos
        invariant MemberTail(all, start, obj) == MemberTail(all, pos, node)
        decreases |all| - pos
      {
        var m := ParseAccessor(node);
        if m.Failure? {
          return m;
        }
        node := m.value;
        FrontAt();
      }
      return Success(node);
    }

    method ParseAccessor(obj: Node) returns (r: Result<Node, ParseError>)
      requires Valid() && pos < |all|
      modifies this
      ensures Valid() && all == old(all)
      ensures Yields(r, Accessor(all, old(pos), obj))
      decreases |all| - pos, 4
    {
      if tokens[0].kind == Dot {
        var dot := Eat();
        var property := ParseIdentifier();
        if property.Failure? {
          return Failure(property.error);
        }
        return Success(MemberExpression(obj, property.value, false));
      } else if tokens[0].kind == Bracket {
        var open := Eat();
        var property := ParseExpression();
        if property.Failure? {
          return Failure(property.error);
        }
        var close := Match(Bracket, Some("]"));
        if close.Failure? {
          return Failure(close.error);
        }
        return Success(MemberExpression(obj, property.value, true));
      }
      return Failure(UnexpectedTokenJson(tokens[0]));
    }

    /** `parsePrimary`. */
    method ParsePrimary() returns (r: Result<Node, ParseError>)
      requires Valid()
      modifies this
      ensures Valid() && all == old(all)
      ensures Yields(r, Primary(all, old(pos)))
      decreases |all| - pos, 11
    {
      if |tokens| == 0 {
        return Failure(ReadOfUndefined);
      }
      var token := tokens[0];
      if IsLiteralKind(token.kind) {
        var t := Eat();
        if HasTemplate(ToStr(token.value)) {
          var template := ParseTemplateString(token);
          return Success(template);
        }
        return Success(Literal(token));
      }
      match token.kind
      case Paren =>
        var open := Eat();
        r := ParseGrouped();
      case Curly =>
        r := ParseObjectLiteral();
      case Bracket =>
        r := ParseArrayLiteral();
      case Fn =>
        var m := Match(Fn, None);
        assert m.Success?;
        r := ParseLambda();
      case Run =>
        r := ParseRun();
      case Wait =>
        r := ParseWait();
      case Default =>
        r := ParseSwitchCase();
      case Case =>
        r := ParseSwitchCase();
      case EmptyLine =>
        var skipped := Eat();
        r := ParsePrimary();
      case _ =>
        return Failure(UnexpectedTokenJson(token));
    }

    /** A parenthesised expression, after the `(`. */
    method ParseGrouped() returns (r: Result<Node, ParseError>)
      requires Valid()
      modifies this
      ensures Valid() && all == old(all)
      ensures Yields(r, Grouped(all, old(pos)))
      decreases |all| - pos, 21
    {
      var e := ParseExpression();
      if e.Failure? {
        return e;
      }
      var close := Match(Paren, Some(")"));
      if close.Failure? {
        return Failure(close.error);
      }
      return e;
    }

    /** An anonymous `fn`, after the `fn`. */
    method ParseLambda() returns (r: Result<Node, ParseError>)
      requires Valid()
      modifies this
      ensures Valid() && all == old(all)
      ensures Yields(r, Lambda(all, old(pos)))
      decreases |all| - pos, 43
    {
      var args := ParseArgs();
      if args.Failure? {
        return Failure(args.error);
      }
      var body := ParseBlock(false);
      if body.Failure? {
        return Failure(body.error);
      }
      return Success(LambdaFunctionDecl(args.value, body.value));
    }

    /** `parseTemplateString(token)`: the `exec` loop over the token's
        text. */
    method ParseTemplateString(token: Token) returns (r: Node)
      ensures r == TemplateString(token)
    {
      var text := ToStr(token.value);
      var quotes: seq<Node> := [];
      var lastIndex := 0;
      var found := FindMatch(text, lastIndex);
      while found.Some?
        invariant lastIndex <= |text|
        invariant found == FindMatch(text, lastIndex)
        invariant TemplateParts(token, text, 0, []) == TemplateParts(token, text, lastIndex, quotes)
        decreases |text| - lastIndex
      {
        var index := found.value;
        var step := TemplateMatch(token, text, lastIndex, index);
        quotes := quotes + step.0;
        lastIndex := step.1;
        found := FindMatch(text, lastIndex);
      }
      if lastIndex < |text| {
        quotes := quotes + [Segment(token, lastIndex, String, text[lastIndex..])];
      }
      return TemplateLiteralExpression(quotes);
    }
  }
}
