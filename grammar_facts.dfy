/** What the grammar of src/parser/index.ts promises about the trees it
    builds: statement order, right-nested operator chains, fused
    comparison and equality operators, ranges, array keys, the rules of a
    switch case, and the template split with its inverse. */
module GrammarFacts {
  import opened Wrappers
  import opened Host
  import opened TokenKinds
  import opened Ast
  import opened Literals
  import opened Grammar

  // ---------------------------------------------------------------------
  // `parse`
  // ---------------------------------------------------------------------

  /** The statement loop keeps what it has collected in front, and the
      next statement it adds is the one parsed at its position. */
  lemma {:induction false} StatementsInOrder(ts: seq<Token>, i: nat, acc: seq<Node>)
    requires i <= |ts| && Statements(ts, i, acc).Success?
    ensures var r := Statements(ts, i, acc).value;
      |r.nodes| >= |acc| && r.nodes[..|acc|] == acc && r.next == |ts|
    ensures i < |ts| ==>
      Statement(ts, i).Success? && Statements(ts, i, acc).value.nodes[|acc|] == Statement(ts, i).value.node
    decreases |ts| - i
  {
    if i < |ts| {
      var s := Statement(ts, i).value;
      StatementsInOrder(ts, s.next, acc + [s.node]);
      var r := Statements(ts, i, acc).value;
      assert r == Statements(ts, s.next, acc + [s.node]).value;
      assert r.nodes[..|acc| + 1] == acc + [s.node];
      assert r.nodes[..|acc|] == r.nodes[..|acc| + 1][..|acc|];
    }
  }

  /** A successful `parse` is a Program whose statements come in source
      order, the first one being the statement at the front. */
  lemma ParseKeepsOrder(ts: seq<Token>)
    requires Parse(ts).Success?
    ensures Parse(ts).value == Program(Statements(ts, 0, []).value.nodes)
    ensures |ts| > 0 ==>
      Statement(ts, 0).Success? && |Parse(ts).value.body| > 0 && Parse(ts).value.body[0] == Statement(ts, 0).value.node
  {
    StatementsInOrder(ts, 0, []);
  }

  // ---------------------------------------------------------------------
  // Operator chains
  // ---------------------------------------------------------------------

  /** A short text cannot hold a `{{name}}` pattern, which needs five
      characters. */
  lemma ShortTextHasNoTemplate(s: string)
    requires |s| < 5
    ensures !HasTemplate(s)
  {
  }

  /** A literal token whose text holds no `{{name}}` pattern, followed by
      an operator other than `[`, or by nothing, is a member expression on
      its own. */
  lemma PlainOperand(ts: seq<Token>, i: nat)
    requires i < |ts| && IsLiteralKind(ts[i].kind) && !HasTemplate(ToStr(ts[i].value))
    requires i + 1 < |ts| ==> ts[i + 1].kind == Operator && ts[i + 1].value != Str("[")
    ensures Member(ts, i) == Success(Parsed(Literal(ts[i]), i + 1))
  {
    assert Primary(ts, i) == Success(Parsed(Literal(ts[i]), i + 1));
    assert !StartsAccessor(ts, i + 1);
    assert MemberTail(ts, i + 1, Literal(ts[i])) == Success(Parsed(Literal(ts[i]), i + 1));
  }

  /** An arithmetic operator is never the `[` that opens an accessor. */
  lemma ArithmeticIsNotBracket(t: Token)
    requires IsArithmetic(t)
    ensures t.value != Str("[")
  {
    assert "+"[0] != "["[0] && "-"[0] != "["[0] && "*"[0] != "["[0] && "/"[0] != "["[0];
  }

  /** `a op1 b op2 c` is `a op1 (b op2 c)` for any two of `+ - * /`: there
      is no precedence, and a chain nests to the right. */
  lemma ArithmeticNestsRight(a: Token, op1: Token, b: Token, op2: Token, c: Token)
    requires IsLiteralKind(a.kind) && !HasTemplate(ToStr(a.value))
    requires IsLiteralKind(b.kind) && !HasTemplate(ToStr(b.value))
    requires IsLiteralKind(c.kind) && !HasTemplate(ToStr(c.value))
    requires IsArithmetic(op1) && IsArithmetic(op2)
    ensures Binary([a, op1, b, op2, c], 0) ==
      Success(Parsed(BinaryExpression(Literal(a), op1, BinaryExpression(Literal(b), op2, Literal(c))), 5))
  {
    var ts := [a, op1, b, op2, c];
    ArithmeticIsNotBracket(op1);
    ArithmeticIsNotBracket(op2);
    PlainOperand(ts, 4);
    assert Binary(ts, 4) == Success(Parsed(Literal(c), 5));
    PlainOperand(ts, 2);
    assert Binary(ts, 2) == Success(Parsed(BinaryExpression(Literal(b), op2, Literal(c)), 5));
    PlainOperand(ts, 0);
  }

  /** A comparison operator takes a following `=` token into its text, so
      `<` `=` reads `<=` and `>` `=` reads `>=`; otherwise the operator is
      the token itself. Either way the right side is a whole comparison. */
  lemma ComparisonOperator(ts: seq<Token>, i: nat, left: Node)
    requires i < |ts| && IsComparison(ts[i]) && ComparisonTail(ts, i, left).Success?
    ensures var n := ComparisonTail(ts, i, left).value.node;
      n.CompareExpression? && n.left == left &&
      (FrontOperator(ts, i + 1, "=") ==>
        n.operator == ts[i].(value := Str(if ts[i].value == Str("<") then "<=" else ">=")) &&
        n.right == Comparison(ts, i + 2).value.node) &&
      (!FrontOperator(ts, i + 1, "=") ==> n.operator == ts[i] && n.right == Comparison(ts, i + 1).value.node)
  {
    assert "<" + "=" == "<=" && ">" + "=" == ">=";
  }

  /** `=` or `!` followed by an `=` token is an equality test reading `==`
      or `!=`; a lone `=` or `!` is an assignment whose operator is that
      token. */
  lemma EqualOrAssignment(ts: seq<Token>, i: nat, left: Node)
    requires i < |ts| && IsEqualOrBang(ts[i]) && EqualTail(ts, i, left).Success?
    ensures var n := EqualTail(ts, i, left).value.node;
      (FrontOperator(ts, i + 1, "=") ==>
        n.EqualExpression? && n.left == left && n.right == Equal(ts, i + 2).value.node &&
        n.operator == ts[i].(value := Str(if ts[i].value == Str("=") then "==" else "!="))) &&
      (!FrontOperator(ts, i + 1, "=") ==>
        n.AssignmentExpression? && n.left == left && n.operator == ts[i] && n.right == Equal(ts, i + 1).value.node)
  {
    assert "=" + "=" == "==" && "!" + "=" == "!=";
  }

  /** A primary followed by two dot tokens is a range from that primary to
      the member expression after the dots, with the first dot, its text
      changed to "..", as the step. */
  lemma RangeAfterTwoDots(ts: seq<Token>, i: nat)
    requires i <= |ts| && Primary(ts, i).Success? && Member(ts, i).Success?
    requires var j := Primary(ts, i).value.next; FrontIs(ts, j, Dot) && FrontIs(ts, j + 1, Dot)
    ensures var j := Primary(ts, i).value.next;
      Member(ts, j + 2).Success? &&
      Member(ts, i).value == Parsed(RangeExpression(Primary(ts, i).value.node, ts[j].(value := Str("..")), Member(ts, j + 2).value.node), Member(ts, j + 2).value.next)
  {
    var obj := Primary(ts, i).value;
    assert Member(ts, i) == RangeTail(ts, obj.next, obj.node);
  }

  // ---------------------------------------------------------------------
  // Array literals
  // ---------------------------------------------------------------------

  /** The item loop keeps what it has collected and keys each new item by
      its position, counting on from `index`. */
  lemma {:induction false} ArrayItemsKeyed(ts: seq<Token>, i: nat, index: nat, acc: seq<Node>)
    requires i <= |ts| && ArrayItems(ts, i, index, acc).Success?
    ensures var items := ArrayItems(ts, i, index, acc).value.node.items;
      |items| >= |acc| && items[..|acc|] == acc &&
      forall k :: |acc| <= k < |items| ==> items[k].Property? && items[k].key == IndexKey(index + k - |acc|)
    decreases |ts| - i
  {
    if !(i == |ts| || ts[i].value == Str("]")) {
      var e := Item(ts, i).value;
      var acc' := acc + [Property(IndexKey(index), e.node)];
      ArrayItemsKeyed(ts, e.next, index + 1, acc');
      var items := ArrayItems(ts, i, index, acc).value.node.items;
      assert items == ArrayItems(ts, e.next, index + 1, acc').value.node.items;
      assert items[..|acc'|] == acc';
      assert items[..|acc|] == items[..|acc'|][..|acc|];
      forall k | |acc| <= k < |items|
        ensures items[k].Property? && items[k].key == IndexKey(index + k - |acc|)
      {
        if k == |acc| {
          assert items[k] == items[..|acc'|][k];
        }
      }
    }
  }

  /** `[e0, ..., en-1]` yields n items, the k-th keyed by the number k. */
  lemma ArrayKeysArePositions(ts: seq<Token>, i: nat)
    requires i < |ts| && ts[i].kind == Bracket && ArrayLiteral(ts, i).Success?
    ensures var n := ArrayLiteral(ts, i).value.node;
      n.ArrayExpression? &&
      forall k :: 0 <= k < |n.items| ==> n.items[k].Property? && n.items[k].key == IndexKey(k)
  {
    ArrayLiteralOpens(ts, i);
    if ts[i + 1].value != Str("]") {
      ArrayItemsKeyedFromZero(ts, i + 1);
    }
  }

  /** The items of a non-empty array literal, keyed from 0. */
  lemma ArrayItemsKeyedFromZero(ts: seq<Token>, j: nat)
    requires j <= |ts| && ArrayItems(ts, j, 0, []).Success?
    ensures var items := ArrayItems(ts, j, 0, []).value.node.items;
      forall k :: 0 <= k < |items| ==> items[k].Property? && items[k].key == IndexKey(k)
  {
    var acc: seq<Node> := [];
    ArrayItemsKeyed(ts, j, 0, acc);
    var items := ArrayItems(ts, j, 0, acc).value.node.items;
    forall k | 0 <= k < |items|
      ensures items[k].Property? && items[k].key == IndexKey(k)
    {
      assert 0 + k - |acc| == k;
    }
  }

  /** After its `[`, an array literal is either `[]` or its items. */
  lemma ArrayLiteralOpens(ts: seq<Token>, i: nat)
    requires i < |ts| && ts[i].kind == Bracket && ArrayLiteral(ts, i).Success?
    ensures i + 1 < |ts|
    ensures ts[i + 1].value == Str("]") ==> ArrayLiteral(ts, i).value.node == ArrayExpression([])
    ensures ts[i + 1].value != Str("]") ==> ArrayLiteral(ts, i) == ArrayItems(ts, i + 1, 0, [])
  {
    assert Match(ts, i, Bracket, Some("[")).Success?;
  }

  /** `[]` yields no items. */
  lemma EmptyArray(ts: seq<Token>, i: nat)
    requires i + 1 < |ts| && ts[i].kind == Bracket && ts[i].value == Str("[") && ts[i + 1].value == Str("]")
    ensures ArrayLiteral(ts, i) == Success(Parsed(ArrayExpression([]), i + 2))
  {
  }

  // ---------------------------------------------------------------------
  // Switch cases
  // ---------------------------------------------------------------------

  /** A case body not ending in a `return` must be followed by `break`,
      which the arm consumes; one ending in a `return` consumes nothing
      more. An empty body is never accepted. */
  lemma CaseEndRules(ts: seq<Token>, i: nat, kind: TokenType, test: Option<Node>, body: seq<Node>)
    requires i <= |ts| && CaseEnd(ts, i, kind, test, body).Success?
    ensures |body| > 0
    ensures !body[|body| - 1].ReturnStatement? ==>
      i < |ts| && ts[i].kind == Break && CaseEnd(ts, i, kind, test, body).value.next == i + 1
    ensures body[|body| - 1].ReturnStatement? ==> CaseEnd(ts, i, kind, test, body).value.next == i
    ensures CaseEnd(ts, i, kind, test, body).value.node.block == BlockStatement(body, None)
  {
  }

  /** A `default` arm has no test and is built as a CaseBlockStatement; a
      `case` arm keeps its test and is built as a
      DefaultCaseBlockStatement; any other front token is an error. */
  lemma SwitchCaseShape(ts: seq<Token>, i: nat)
    requires i < |ts|
    ensures ts[i].kind == Default && SwitchCase(ts, i).Success? ==>
      SwitchCase(ts, i).value.node.CaseBlockStatement? && SwitchCase(ts, i).value.node.caseTest.None?
    ensures ts[i].kind == Case && SwitchCase(ts, i).Success? ==>
      Expression(ts, i + 1).Success? &&
      SwitchCase(ts, i).value.node.DefaultCaseBlockStatement? &&
      SwitchCase(ts, i).value.node.caseTest == Some(Expression(ts, i + 1).value.node)
    ensures ts[i].kind != Case && ts[i].kind != Default ==>
      SwitchCase(ts, i) == Failure(Raised("Unexpected case token: " + NatToString(Ordinal(ts[i].kind))))
  {
  }

  // ---------------------------------------------------------------------
  // Template strings
  // ---------------------------------------------------------------------

  /** The text a template element stands for: an identifier element with
      its braces restored, any other element as it is. */
  function ElementText(n: Node): string
  {
    if n.TemplateElement? && n.value.Literal? && n.value.token.value.Str? then
      var text := n.value.token.value.s;
      if n.value.token.kind == TokenKinds.Identifier then "{{" + text + "}}" else text
    else ""
  }

  /** The texts of a list of elements, joined. */
  function Restore(ns: seq<Node>): (s: string)
    ensures ns == [] ==> s == ""
  {
    if ns == [] then "" else Restore(ns[..|ns| - 1]) + ElementText(ns[|ns| - 1])
  }

  /** Joining distributes over concatenation. */
  lemma {:induction false} RestoreAppend(a: seq<Node>, b: seq<Node>)
    ensures Restore(a + b) == Restore(a) + Restore(b)
    decreases |b|
  {
    if b == [] {
      assert a + b == a;
    } else {
      var b' := b[..|b| - 1];
      assert (a + b)[..|a + b| - 1] == a + b';
      assert (a + b)[|a + b| - 1] == b[|b| - 1];
      RestoreAppend(a, b');
      var x, y, z := Restore(a), Restore(b'), ElementText(b[|b| - 1]);
      calc {
        Restore(a + b);
        Restore(a + b') + z;
        (x + y) + z;
        { assert (x + y) + z == x + (y + z); }
        x + (y + z);
        x + Restore(b);
      }
    }
  }

  /** A one-element list joins to that element's text. */
  lemma RestoreSingle(n: Node)
    ensures Restore([n]) == ElementText(n)
  {
    assert [n][..0] == [];
  }

  /** A text cut around a match, with the braces on either side. */
  lemma CutAroundMatch(s: string, last: nat, p: nat, e: nat)
    requires last <= p && p + 2 <= e && e + 2 <= |s|
    requires s[p] == '{' && s[p + 1] == '{' && s[e] == '}' && s[e + 1] == '}'
    ensures s[last..] == s[last..p] + ("{{" + s[p + 2..e] + "}}") + s[e + 2..]
  {
    assert s[p..p + 2] == "{{";
    assert s[e..e + 2] == "}}";
    assert s[p..e + 2] == s[p..p + 2] + s[p + 2..e] + s[e..e + 2];
    assert s[last..] == s[last..p] + s[p..e + 2] + s[e + 2..];
  }

  /** A two-element list joins to the two texts. */
  lemma RestorePair(x: Node, y: Node)
    ensures Restore([x, y]) == ElementText(x) + ElementText(y)
  {
    assert [x, y][..1] == [x];
    RestoreSingle(x);
  }

  /** The elements for text before a match and the name inside it join
      back to the text from `last` to past the closing braces. */
  lemma MatchedTextRestores(t: Token, s: string, last: nat, p: nat, e: nat)
    requires last <= p && p + 2 <= e && e + 2 <= |s|
    requires s[p] == '{' && s[p + 1] == '{' && s[e] == '}' && s[e + 1] == '}'
    ensures var before := if p > last then [Segment(t, p, String, s[last..p])] else [];
      Restore(before + [Segment(t, p, TokenKinds.Identifier, s[p + 2..e])]) + s[e + 2..] == s[last..]
  {
    CutAroundMatch(s, last, p, e);
    var ident := Segment(t, p, TokenKinds.Identifier, s[p + 2..e]);
    assert ElementText(ident) == "{{" + s[p + 2..e] + "}}";
    if p > last {
      var before := Segment(t, p, String, s[last..p]);
      assert [before] + [ident] == [before, ident];
      RestorePair(before, ident);
      assert ElementText(before) == s[last..p];
    } else {
      assert [] + [ident] == [ident];
      RestoreSingle(ident);
      assert s[last..p] == "";
    }
  }

  /** One match's elements join back to the text from `last` up to where
      the search resumes. */
  lemma MatchRestores(t: Token, s: string, last: nat, p: nat)
    requires last <= p && MatchAt(s, p)
    ensures Restore(TemplateMatch(t, s, last, p).0) + s[TemplateMatch(t, s, last, p).1..] == s[last..]
  {
    var e := RunEnd(s, p + 2);
    assert e + 1 < |s| && s[e] == '}' && s[e + 1] == '}';
    var before := if p > last then [Segment(t, p, String, s[last..p])] else [];
    assert TemplateMatch(t, s, last, p) == (before + [Segment(t, p, TokenKinds.Identifier, s[p + 2..e])], e + 2);
    MatchedTextRestores(t, s, last, p, e);
  }

  /** The elements the template loop produces from `last` on join back to
      the text from `last` on. */
  lemma {:induction false} TemplatePartsRestore(t: Token, s: string, last: nat, acc: seq<Node>)
    requires last <= |s|
    ensures Restore(TemplateParts(t, s, last, acc)) == Restore(acc) + s[last..]
    decreases |s| - last
  {
    match FindMatch(s, last)
    case None =>
      if last < |s| {
        var seg := Segment(t, last, String, s[last..]);
        RestoreSingle(seg);
        RestoreAppend(acc, [seg]);
      }
    case Some(p) =>
      var (more, next) := TemplateMatch(t, s, last, p);
      assert TemplateParts(t, s, last, acc) == TemplateParts(t, s, next, acc + more);
      TemplatePartsRestore(t, s, next, acc + more);
      RestoreAppend(acc, more);
      MatchRestores(t, s, last, p);
      assert Restore(more) + s[next..] == s[last..];
  }

  /** Joining the elements of a template, with `{{`/`}}` restored around
      the names, gives back the literal's text. */
  lemma TemplateRestores(t: Token)
    ensures Restore(TemplateString(t).quotes) == ToStr(t.value)
  {
    TemplatePartsRestore(t, ToStr(t.value), 0, []);
    assert ToStr(t.value)[0..] == ToStr(t.value);
  }

  /** Every element of a template keeps the literal's line. */
  lemma {:induction false} TemplatePartsKeepLine(t: Token, s: string, last: nat, acc: seq<Node>)
    requires last <= |s|
    requires forall k :: 0 <= k < |acc| ==> acc[k].TemplateElement? && acc[k].value.Literal? && acc[k].value.token.line == t.line
    ensures var r := TemplateParts(t, s, last, acc);
      forall k :: 0 <= k < |r| ==> r[k].TemplateElement? && r[k].value.Literal? && r[k].value.token.line == t.line
    decreases |s| - last
  {
    match FindMatch(s, last)
    case None =>
    case Some(p) =>
      var (more, next) := TemplateMatch(t, s, last, p);
      var acc' := acc + more;
      forall k | 0 <= k < |acc'|
        ensures acc'[k].TemplateElement? && acc'[k].value.Literal? && acc'[k].value.token.line == t.line
      {
        if k >= |acc| {
          assert acc'[k] == more[k - |acc|];
        }
      }
      assert TemplateParts(t, s, last, acc) == TemplateParts(t, s, next, acc');
      TemplatePartsKeepLine(t, s, next, acc');
  }

  /** "a{{x}}b" splits into the text "a", the identifier "x" and the text
      "b"; the first two sit at the match's column, the last at its own. */
  lemma TemplateOfAxB(t: Token)
    requires t.value == Str("a{{x}}b")
    ensures TemplateString(t).quotes ==
      [Segment(t, 1, String, "a"), Segment(t, 1, TokenKinds.Identifier, "x"), Segment(t, 6, String, "b")]
  {
    var s := "a{{x}}b";
    assert !MatchAt(s, 0);
    assert RunEnd(s, 4) == 4;
    assert RunEnd(s, 3) == 4;
    assert MatchAt(s, 1);
    assert FindMatch(s, 0) == Some(1);
    assert FindMatch(s, 6) == None;
    assert s[0..1] == "a" && s[3..4] == "x" && s[6..] == "b";
  }
}
