/** `TemplateStringParser` (src/parser/template.ts): a character scanner
    that splits a literal's text into text segments and the statements of
    each `{{...}}` part, which it lexes and parses on its own. */
module Templates {
  import opened Wrappers
  import opened Host
  import opened TokenKinds
  import opened Ast
  import Grammar
  import Lexer
  import Parsing

  /** Why `parse` throws. `NotAString` is the host's TypeError for calling
      `split` on a token value that is not a string; `EscapeFailed` is an
      error raised while evaluating an escape; lexing and parsing errors
      of an embedded part pass through; `NotClosed` is "The template
      string is not closed.". */
  datatype TemplateError =
    | NotAString
    | EscapeFailed(message: string)
    | LexFailed(message: string)
    | ParseFailed(error: Grammar.ParseError)
    | NotClosed

  /** The message `NotClosed` carries. */
  const NotClosedMessage := "The template string is not closed."

  /** The scanner's state: the `index` field and the locals `strs`,
      `escape` and `quotes`. */
  datatype ScanState = ScanState(index: nat, strs: string, escape: bool, quotes: seq<Node>)

  /** `textArr[k]` as text appended to a string: the character, or
      "undefined" past the end. */
  function TextAt(text: string, k: nat): (r: string)
    ensures k < |text| ==> r == [text[k]]
  {
    if k < |text| then [text[k]] else "undefined"
  }

  /** A pending text segment: the token with the string kind. */
  function StringSegment(t: Token, strs: string): Node
  {
    Literal(t.(kind := String, value := Str(strs)))
  }

  /** The trailing text segment: the token with its own kind. */
  function TrailingSegment(t: Token, strs: string): Node
  {
    Literal(t.(value := Str(strs)))
  }

  /** The quotes with the pending text pushed, when there is any. */
  function Flushed(t: Token, st: ScanState): (q: seq<Node>)
    ensures st.strs == "" ==> q == st.quotes
    ensures st.strs != "" ==> q == st.quotes + [StringSegment(t, st.strs)]
  {
    if st.strs != "" then st.quotes + [StringSegment(t, st.strs)] else st.quotes
  }

  /** What the host makes of `'\c'` for the text `c` after a backslash
      (`new Function`): a string, or the error it raises. */
  type Unescape = string -> Result<string, string>

  /** The backslash branch. A second backslash sets `escape` and moves on
      by one; with `escape` set the next character is taken as it is;
      otherwise it is evaluated as an escape. */
  function Escaped(text: string, st: ScanState, unescape: Unescape): (r: Result<ScanState, TemplateError>)
    requires st.index < |text| && (text[st.index] == '\\' || st.escape)
    ensures r.Success? ==> r.value.index > st.index && r.value.quotes == st.quotes
  {
    var j := st.index + 1;
    if j < |text| && text[j] == '\\' then Success(st.(index := j, escape := true))
    else if st.escape then Success(st.(index := j + 1, strs := st.strs + TextAt(text, j), escape := false))
    else
      match unescape(TextAt(text, j))
      case Failure(m) => Failure(EscapeFailed(m))
      case Success(c) => Success(st.(index := j + 1, strs := st.strs + c))
  }

  /** `tokenlize` on an embedded part, its error wrapped. */
  function LexPart(name: string): Result<seq<Token>, TemplateError>
  {
    match Lexer.Lex(name)
    case Failure(m) => Failure(LexFailed(m))
    case Success(ts) => Success(ts)
  }

  /** `new Parser().parse(tokens).body`, its error wrapped. */
  function ParsePart(ts: seq<Token>): Result<seq<Node>, TemplateError>
  {
    match Grammar.Parse(ts)
    case Failure(e) => Failure(ParseFailed(e))
    case Success(program) => Success(program.body)
  }

  /** The statements of an embedded part: lexed, then parsed. */
  function PartBody(name: string): Result<seq<Node>, TemplateError>
  {
    var ts :- LexPart(name);
    ParsePart(ts)
  }

  /** The `{{` branch: the pending text is pushed, the part runs to the
      first `}`, which must be followed by another, and its statements
      are pushed after the text. Where the source's loop never stops (no
      `}` at all), this raises the error its next line was written to
      raise. */
  function Embedded(t: Token, text: string, st: ScanState): (r: Result<ScanState, TemplateError>)
    requires st.index + 1 < |text| && text[st.index] == '{' && text[st.index + 1] == '{'
    ensures r.Success? ==> r.value.index > st.index + 3 && r.value.strs == "" && !r.value.escape
  {
    var e := Grammar.RunEnd(text, st.index + 2);
    if e + 1 >= |text| || text[e + 1] != '}' then Failure(NotClosed)
    else
      var body :- PartBody(text[st.index + 2..e]);
      Success(ScanState(e + 2, "", false, Flushed(t, st) + body))
  }

  /** One pass of the scanning loop. */
  function Step(t: Token, text: string, st: ScanState, unescape: Unescape): (r: Result<ScanState, TemplateError>)
    requires st.index < |text|
    ensures r.Success? ==> r.value.index > st.index
  {
    var c := text[st.index];
    if c == '\\' || st.escape then Escaped(text, st, unescape)
    else if c == '{' then
      if !(st.index + 1 < |text| && text[st.index + 1] == '{') then Success(st.(index := st.index + 1, strs := st.strs + "{"))
      else Embedded(t, text, st)
    else Success(st.(index := st.index + 1, strs := st.strs + [c]))
  }

  /** The loop `while (index <= textArr.length - 1)`: the state it ends
      in. */
  function ScanText(t: Token, text: string, st: ScanState, unescape: Unescape): (r: Result<ScanState, TemplateError>)
    ensures r.Success? ==> r.value.index >= |text|
    decreases |text| - st.index
  {
    if st.index >= |text| then Success(st)
    else
      var next :- Step(t, text, st, unescape);
      ScanText(t, text, next, unescape)
  }

  /** The quotes `parse` returns from the final state: the trailing text,
      when there is any, keeps the token's own kind. */
  function Finish(t: Token, st: ScanState): (q: seq<Node>)
  {
    if st.strs != "" then st.quotes + [TrailingSegment(t, st.strs)] else st.quotes
  }

  /** `parse()` for a token, starting from the `index` field's value. */
  function Template(t: Token, index: nat, unescape: Unescape): Result<seq<Node>, TemplateError>
  {
    if !t.value.Str? then Failure(NotAString)
    else
      var final :- ScanText(t, t.value.s, ScanState(index, "", false, []), unescape);
      Success(Finish(t, final))
  }

  /** The class: the token and the read index. */
  class TemplateStringParser {
    var token: Token
    var index: nat

    constructor (token: Token)
      ensures this.token == token && index == 0
    {
      this.token := token;
      index := 0;
    }

    /** `parse()`. */
    method Parse(unescape: Unescape) returns (r: Result<seq<Node>, TemplateError>)
      modifies this
      ensures token == old(token)
      ensures r == Template(token, old(index), unescape)
      ensures r.Success? ==> index == ScanText(token, token.value.s, ScanState(old(index), "", false, []), unescape).value.index
    {
      if !token.value.Str? {
        return Failure(NotAString);
      }
      var text := token.value.s;
      var quotes: seq<Node> := [];
      var strs := "";
      var escape := false;
      while index < |text|
        invariant token == old(token)
        invariant ScanText(token, text, ScanState(old(index), "", false, []), unescape) == ScanText(token, text, ScanState(index, strs, escape, quotes), unescape)
        decreases |text| - index
      {
        ghost var st := ScanState(index, strs, escape, quotes);
        var c := text[index];
        if c == '\\' || escape {
          var e := ReadEscape(text, strs, escape, quotes, unescape);
          if e.Failure? {
            return Failure(e.error);
          }
          strs, escape := e.value.0, e.value.1;
        } else if c == '{' && index + 1 < |text| && text[index + 1] == '{' {
          var part := ReadPart(text, strs, quotes);
          if part.Failure? {
            return Failure(part.error);
          }
          quotes, strs := part.value, "";
        } else {
          strs := strs + [c];
          index := index + 1;
        }
        assert Step(token, text, st, unescape) == Success(ScanState(index, strs, escape, quotes));
      }
      r := Success(Finish(token, ScanState(index, strs, escape, quotes)));
    }

    /** The backslash branch of the loop. */
    method ReadEscape(text: string, strs: string, escape: bool, ghost quotes: seq<Node>, unescape: Unescape)
      returns (r: Result<(string, bool), TemplateError>)
      requires index < |text| && (text[index] == '\\' || escape)
      modifies this
      ensures token == old(token)
      ensures var s := Escaped(text, ScanState(old(index), strs, escape, quotes), unescape);
        (r.Success? <==> s.Success?) &&
        (s.Success? ==> r.value == (s.value.strs, s.value.escape) && index == s.value.index) &&
        (s.Failure? ==> r.error == s.error)
    {
      index := index + 1;
      if index < |text| && text[index] == '\\' {
        return Success((strs, true));
      }
      if escape {
        r := Success((strs + TextAt(text, index), false));
      } else {
        var e := unescape(TextAt(text, index));
        if e.Failure? {
          return Failure(EscapeFailed(e.error));
        }
        r := Success((strs + e.value, false));
      }
      index := index + 1;
    }

    /** The `{{` branch of the loop: the quotes it leaves. */
    method ReadPart(text: string, strs: string, quotes: seq<Node>) returns (r: Result<seq<Node>, TemplateError>)
      requires index + 1 < |text| && text[index] == '{' && text[index + 1] == '{'
      modifies this
      ensures token == old(token)
      ensures var s := Embedded(token, text, ScanState(old(index), strs, false, quotes));
        (r.Success? <==> s.Success?) &&
        (s.Success? ==> r.value == s.value.quotes && index == s.value.index) &&
        (s.Failure? ==> r.error == s.error)
    {
      var pushed := quotes;
      if strs != "" {
        pushed := pushed + [StringSegment(token, strs)];
      }
      index := index + 2;
      var name := ReadName(text);
      if index + 1 >= |text| || text[index + 1] != '}' {
        return Failure(NotClosed);
      }
      index := index + 2;
      var body := LexAndParse(name);
      if body.Failure? {
        return Failure(body.error);
      }
      r := Success(pushed + body.value);
    }

    /** The name loop, stopping at the first `}` or at the end. */
    method ReadName(text: string) returns (name: string)
      requires index <= |text|
      modifies this
      ensures token == old(token)
      ensures index == Grammar.RunEnd(text, old(index)) && name == text[old(index)..index]
    {
      name := "";
      while index < |text| && text[index] != '}'
        invariant old(index) <= index <= |text| && token == old(token)
        invariant name == text[old(index)..index]
        invariant Grammar.RunEnd(text, old(index)) == Grammar.RunEnd(text, index)
        decreases |text| - index
      {
        name := name + [text[index]];
        index := index + 1;
      }
    }
  }

  /** `tokenlize` and a new `Parser`'s `parse` on an embedded part. */
  method LexAndParse(name: string) returns (r: Result<seq<Node>, TemplateError>)
    ensures r == PartBody(name)
  {
    var tokens := Lexer.Tokenize(name);
    if tokens.Failure? {
      return Failure(LexFailed(tokens.error));
    }
    var parser := new Parsing.Parser();
    var program := parser.Parse(Some(tokens.value));
    if program.Failure? {
      return Failure(ParseFailed(program.error));
    }
    r := Success(program.value.body);
  }

  // ---------------------------------------------------------------------
  // What the scanner promises
  // ---------------------------------------------------------------------

  /** No backslash and no `{{` anywhere. */
  predicate Plain(text: string)
  {
    forall k :: 0 <= k < |text| ==> text[k] != '\\' && (text[k] == '{' ==> k + 1 == |text| || text[k + 1] != '{')
  }

  /** Ordinary characters, a lone `{` among them, collect into the pending
      text one by one. */
  lemma {:induction false} PlainTextCollects(t: Token, text: string, st: ScanState, unescape: Unescape)
    requires Plain(text) && st.index <= |text| && !st.escape
    ensures ScanText(t, text, st, unescape) == Success(ScanState(|text|, st.strs + text[st.index..], false, st.quotes))
    decreases |text| - st.index
  {
    if st.index < |text| {
      var c := text[st.index];
      assert c != '\\' && (c == '{' ==> st.index + 1 == |text| || text[st.index + 1] != '{');
      var next := st.(index := st.index + 1, strs := st.strs + [c]);
      assert Step(t, text, st, unescape) == Success(next);
      assert ScanText(t, text, st, unescape) == ScanText(t, text, next, unescape);
      PlainTextCollects(t, text, next, unescape);
      assert text[st.index..] == [c] + text[st.index + 1..];
      assert st.strs + [c] + text[st.index + 1..] == st.strs + text[st.index..];
    } else {
      assert text[st.index..] == "";
      assert st == ScanState(|text|, st.strs + text[st.index..], false, st.quotes);
    }
  }

  /** A plain text is one segment, with the token's own kind, or nothing
      when it is empty. */
  lemma PlainTemplate(t: Token, unescape: Unescape)
    requires t.value.Str? && Plain(t.value.s)
    ensures Template(t, 0, unescape) == Success(if t.value.s == "" then [] else [Literal(t)])
  {
    var text := t.value.s;
    PlainTextCollects(t, text, ScanState(0, "", false, []), unescape);
    assert "" + text[0..] == text;
    assert TrailingSegment(t, text) == Literal(t);
    assert [] + [Literal(t)] == [Literal(t)];
  }

  /** A `{` not followed by `{` is ordinary text. */
  lemma SingleBraceIsText(t: Token, text: string, st: ScanState, unescape: Unescape)
    requires st.index < |text| && text[st.index] == '{' && !st.escape
    requires st.index + 1 == |text| || text[st.index + 1] != '{'
    ensures Step(t, text, st, unescape) == Success(st.(index := st.index + 1, strs := st.strs + "{"))
  {
  }

  /** At `{{`, the part up to the first `}` is lexed and parsed, and its
      statements follow the pending text, pushed as a string segment;
      scanning resumes after the closing `}}`. */
  lemma PartIsParsed(t: Token, text: string, st: ScanState, unescape: Unescape, e: nat)
    requires st.index + 1 < |text| && text[st.index] == '{' && text[st.index + 1] == '{' && !st.escape
    requires st.index + 2 <= e && e + 1 < |text| && text[e] == '}' && text[e + 1] == '}'
    requires forall k :: st.index + 2 <= k < e ==> text[k] != '}'
    requires Lexer.Lex(text[st.index + 2..e]).Success? && Grammar.Parse(Lexer.Lex(text[st.index + 2..e]).value).Success?
    ensures Step(t, text, st, unescape) ==
      Success(ScanState(e + 2, "", false, Flushed(t, st) + Grammar.Parse(Lexer.Lex(text[st.index + 2..e]).value).value.body))
  {
    FirstCloseIsRunEnd(text, st.index + 2, e);
  }

  /** The first `}` from `j` is where `RunEnd` stops. */
  lemma {:induction false} FirstCloseIsRunEnd(text: string, j: nat, e: nat)
    requires j <= e < |text| && text[e] == '}'
    requires forall k :: j <= k < e ==> text[k] != '}'
    ensures Grammar.RunEnd(text, j) == e
    decreases e - j
  {
    if j < e {
      FirstCloseIsRunEnd(text, j + 1, e);
    }
  }

  /** A first `}` after `{{` that is not followed by another `}` raises
      "The template string is not closed.". */
  lemma SingleCloseRaises(t: Token, text: string, st: ScanState, unescape: Unescape, e: nat)
    requires st.index + 1 < |text| && text[st.index] == '{' && text[st.index + 1] == '{' && !st.escape
    requires st.index + 2 <= e < |text| && text[e] == '}' && (e + 1 == |text| || text[e + 1] != '}')
    requires forall k :: st.index + 2 <= k < e ==> text[k] != '}'
    ensures Step(t, text, st, unescape) == Failure(NotClosed)
  {
    FirstCloseIsRunEnd(text, st.index + 2, e);
  }

  /** With no `}` after `{{` at all, the intended behaviour: the same
      error. */
  lemma UnclosedRaises(t: Token, text: string, st: ScanState, unescape: Unescape)
    requires st.index + 1 < |text| && text[st.index] == '{' && text[st.index + 1] == '{' && !st.escape
    requires forall k :: st.index + 2 <= k < |text| ==> text[k] != '}'
    ensures Step(t, text, st, unescape) == Failure(NotClosed)
  {
    assert Grammar.RunEnd(text, st.index + 2) == |text|;
  }

  /** Segments pushed before a part have the string kind; the trailing one
      keeps the token's kind; both keep its line and column. */
  lemma SegmentKinds(t: Token, strs: string)
    ensures StringSegment(t, strs).token == Token(String, Str(strs), t.line, t.column)
    ensures TrailingSegment(t, strs).token == Token(t.kind, Str(strs), t.line, t.column)
  {
  }

  // ---------------------------------------------------------------------
  // The name loop as written
  // ---------------------------------------------------------------------

  /** The loop `while (textArr[index] !== "}")` as written: past the end it
      reads `undefined`, which is never "}", so it only stops at a `}` in
      the text. `fuel` bounds the passes followed; `None` means the loop
      has not stopped within them. */
  function NameLoopAsWritten(text: string, j: nat, name: string, fuel: nat): (r: Option<(string, nat)>)
    decreases fuel
  {
    if fuel == 0 then None
    else if j < |text| && text[j] == '}' then Some((name, j))
    else NameLoopAsWritten(text, j + 1, name + TextAt(text, j), fuel - 1)
  }

  /** With no `}` from `j` on, the loop as written never stops, however
      many passes are followed. */
  lemma {:induction false} UnclosedLoopsForever(text: string, j: nat, name: string, fuel: nat)
    requires forall k :: j <= k < |text| ==> text[k] != '}'
    ensures NameLoopAsWritten(text, j, name, fuel) == None
    decreases fuel
  {
    if fuel > 0 {
      UnclosedLoopsForever(text, j + 1, name + TextAt(text, j), fuel - 1);
    }
  }

  /** With a `}` ahead, the loop as written stops there with the text in
      between, as the corrected scan reads it. */
  lemma {:induction false} ClosedLoopStops(text: string, j: nat, name: string, fuel: nat)
    requires j <= |text| && Grammar.RunEnd(text, j) < |text| && fuel > Grammar.RunEnd(text, j) - j
    ensures NameLoopAsWritten(text, j, name, fuel) == Some((name + text[j..Grammar.RunEnd(text, j)], Grammar.RunEnd(text, j)))
    decreases fuel
  {
    var e := Grammar.RunEnd(text, j);
    if j < e {
      assert text[j] != '}';
      assert Grammar.RunEnd(text, j + 1) == e;
      ClosedLoopStops(text, j + 1, name + [text[j]], fuel - 1);
      assert name + text[j..e] == name + [text[j]] + text[j + 1..e];
    } else {
      assert text[j] == '}';
      assert name + text[j..e] == name;
    }
  }

  /** "{{x" with no closing braces: the source's loop never stops, while
      the corrected scan raises the not-closed error. */
  lemma UnclosedExample(t: Token, unescape: Unescape, fuel: nat)
    requires t.value == Str("{{x")
    ensures NameLoopAsWritten("{{x", 2, "", fuel) == None
    ensures Template(t, 0, unescape) == Failure(NotClosed)
  {
    var text := "{{x";
    UnclosedLoopsForever(text, 2, "", fuel);
    var st := ScanState(0, "", false, []);
    UnclosedRaises(t, text, st, unescape);
  }
}
