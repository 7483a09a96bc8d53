/** The lexer, `tokenlize` in src/token/index.ts: a line-by-line,
    character-by-character scanner. `Lex` is its specification as a
    function; `Tokenize` is the scanner itself, with the source's nested
    loops, and is proved to compute `Lex`. */
module Lexer {
  import opened Wrappers
  import opened Host
  import opened TokenKinds

  /** `isDigit`: `/\d/`, the ASCII digits. */
  predicate IsDigitChar(c: char) { IsDigit(c) }

  /** `isAlpha`: ASCII letters, `_` and the CJK block U+4E00..U+9FA5. */
  predicate IsAlpha(c: char)
  {
    ('a' <= c <= 'z') || ('A' <= c <= 'Z') || c == '_' || ('\U{4E00}' <= c <= '\U{9FA5}')
  }

  /** `isOperator`: one of `+ - * / % = < > ! & |`. */
  predicate IsOperator(c: char)
  {
    c == '+' || c == '-' || c == '*' || c == '/' || c == '%' || c == '=' || c == '<' || c == '>'
    || c == '!' || c == '&' || c == '|'
  }

  /** `isComment`. */
  predicate IsCommentStart(c: char) { c == '#' }

  /** `isSkip`: space, tab, carriage return. */
  predicate IsSkip(c: char) { c == ' ' || c == '\t' || c == '\r' }

  /** `isString`: a single or a double quote. */
  predicate IsQuote(c: char) { c == '\'' || c == '"' }

  /** The punctuation characters, each with its token kind. */
  function PunctKind(c: char): Option<TokenType>
  {
    if c == '(' || c == ')' then Some(Paren)
    else if c == '[' || c == ']' then Some(Bracket)
    else if c == '{' || c == '}' then Some(Curly)
    else if c == ',' then Some(Comma)
    else if c == '?' then Some(Question)
    else if c == ':' then Some(Colon)
    else if c == '.' then Some(Dot)
    else None
  }

  /** The kind of a scanned word: its keyword kind, else identifier. */
  function WordKind(word: string): TokenType
  {
    if IsKeyword(word) then IsKeywordIsTableMembership(word); Keywords[word] else Identifier
  }

  /** `code.split("\n")`. */
  function IndexOfNewline(s: string, from: nat): (k: nat)
    requires from <= |s|
    ensures from <= k <= |s|
    decreases |s| - from
  {
    if from == |s| || s[from] == '\n' then from else IndexOfNewline(s, from + 1)
  }

  function SplitLines(s: string): (lines: seq<string>)
    ensures |lines| >= 1
    decreases |s|
  {
    var k := IndexOfNewline(s, 0);
    if k == |s| then [s] else [s[..k]] + SplitLines(s[k + 1..])
  }

  /** End of the digit run starting at `j`. */
  function DigitRunEnd(line: string, j: nat): (k: nat)
    requires j <= |line|
    ensures j <= k <= |line|
    decreases |line| - j
  {
    if j < |line| && IsDigitChar(line[j]) then DigitRunEnd(line, j + 1) else j
  }

  /** End of the run of letters and digits starting at `j`. */
  function WordRunEnd(line: string, j: nat): (k: nat)
    requires j <= |line|
    ensures j <= k <= |line|
    decreases |line| - j
  {
    if j < |line| && (IsAlpha(line[j]) || IsDigitChar(line[j])) then WordRunEnd(line, j + 1) else j
  }

  /** Index of the first `quote` at or after `j`, or the line's length. */
  function QuoteEnd(line: string, j: nat, quote: char): (k: nat)
    requires j <= |line|
    ensures j <= k <= |line|
    decreases |line| - j
  {
    if j < |line| && line[j] != quote then QuoteEnd(line, j + 1, quote) else j
  }

  /** The scanner's variables: the tokens so far, `lineNum`, `colNum`,
      `inMultilineComment`, `multilineCommentContent`, `multilineStartCol`. */
  datatype LexState = LexState(
    tokens: seq<Token>, lineNum: int, colNum: int,
    inComment: bool, commentText: string, commentCol: int)

  const Start := LexState([], 1, 1, false, "", 1)

  /** `addToken`: the token takes the current line number. */
  function AddToken(st: LexState, kind: TokenType, text: string, col: int): LexState
  {
    st.(tokens := st.tokens + [Token(kind, Str(text), st.lineNum, col)])
  }

  function UnknownChar(ch: char, st: LexState): string
  {
    "Unknown char : " + [ch] + " at line " + IntToString(st.lineNum) + ", column " + IntToString(st.colNum)
  }

  /** Where scanning resumes after one step, and the state it resumes in. */
  datatype Scan = Scan(next: nat, st: LexState)

  /** One pass of the character loop of `tokenlize` at position `j`. */
  function Step(line: string, j: nat, st: LexState): (r: Result<Scan, string>)
    requires j < |line|
    ensures r.Success? ==> j < r.value.next <= |line|
  {
    var ch := line[j];
    if st.inComment then
      if ch == '*' && j + 1 < |line| && line[j + 1] == '#' then
        var closed := AddToken(st, Comment, st.commentText + "*#", st.commentCol);
        Success(Scan(j + 2, closed.(inComment := false, commentText := "", colNum := st.colNum + 2)))
      else
        Success(Scan(j + 1, st.(commentText := st.commentText + [ch], colNum := st.colNum + 1)))
    else if IsDigitChar(ch) then
      var k := DigitRunEnd(line, j);
      Success(Scan(k, AddToken(st, Number, line[j..k], st.colNum).(colNum := st.colNum + (k - j))))
    else if IsAlpha(ch) then
      var k := WordRunEnd(line, j);
      var word := line[j..k];
      Success(Scan(k, AddToken(st, WordKind(word), word, st.colNum).(colNum := st.colNum + (k - j))))
    else if IsOperator(ch) then
      Success(Scan(j + 1, AddToken(st, Operator, [ch], st.colNum).(colNum := st.colNum + 1)))
    else if IsCommentStart(ch) then
      if j + 1 < |line| && line[j + 1] == '*' then
        Success(Scan(j + 2, st.(inComment := true, commentText := "#*", commentCol := st.colNum, colNum := st.colNum + 2)))
      else
        var text := line[j..];
        Success(Scan(|line|, AddToken(st, Comment, text, st.colNum).(colNum := st.colNum + |text|)))
    else if PunctKind(ch).Some? then
      Success(Scan(j + 1, AddToken(st, PunctKind(ch).value, [ch], st.colNum).(colNum := st.colNum + 1)))
    else if IsQuote(ch) then
      var k := QuoteEnd(line, j + 1, ch);
      var text := line[j + 1..k];
      Success(Scan(if k < |line| then k + 1 else |line|,
                   AddToken(st, String, text, st.colNum + 1).(colNum := st.colNum + |text| + 2)))
    else if IsSkip(ch) then
      Success(Scan(j + 1, st.(colNum := st.colNum + 1)))
    else
      Failure(UnknownChar(ch, st))
  }

  /** Scanning one line from position `j`. */
  function ScanFrom(line: string, j: nat, st: LexState): Result<LexState, string>
    requires j <= |line|
    decreases |line| - j
  {
    if j == |line| then Success(st)
    else
      match Step(line, j, st)
      case Failure(e) => Failure(e)
      case Success(s) => ScanFrom(line, s.next, s.st)
  }

  /** What happens between two lines: a pending multi-line comment gets a
      newline, the line number goes up and the column goes back to 1. */
  function EndOfLine(st: LexState): LexState
  {
    st.(commentText := if st.inComment then st.commentText + "\n" else st.commentText,
        lineNum := st.lineNum + 1, colNum := 1)
  }

  function LexLines(lines: seq<string>, i: nat, st: LexState): Result<LexState, string>
    requires i <= |lines|
    decreases |lines| - i
  {
    if i == |lines| then Success(st)
    else
      match ScanFrom(lines[i], 0, st)
      case Failure(e) => Failure(e)
      case Success(st') => LexLines(lines, i + 1, EndOfLine(st'))
  }

  /** `tokenlize(code)`: the tokens, or the message it throws. */
  function Lex(code: string): Result<seq<Token>, string>
  {
    match LexLines(SplitLines(code), 0, Start)
    case Failure(e) => Failure(e)
    case Success(st) => if st.inComment then Failure("Unterminated multiline comment") else Success(st.tokens)
  }

  /** The digit loop of `tokenlize`: the run of digits from `start`. */
  method ReadDigits(line: string, start: nat) returns (num: string, k: nat)
    requires start < |line| && IsDigitChar(line[start])
    ensures k == DigitRunEnd(line, start) && num == line[start..k]
  {
    num := [line[start]];
    k := start + 1;
    while k < |line| && IsDigitChar(line[k])
      invariant start < k <= |line|
      invariant num == line[start..k]
      invariant DigitRunEnd(line, k) == DigitRunEnd(line, start)
    {
      num := num + [line[k]];
      k := k + 1;
    }
  }

  /** The identifier loop of `tokenlize`: letters and digits from `start`. */
  method ReadWord(line: string, start: nat) returns (word: string, k: nat)
    requires start < |line| && IsAlpha(line[start])
    ensures k == WordRunEnd(line, start) && word == line[start..k]
  {
    word := [line[start]];
    k := start + 1;
    while k < |line| && (IsAlpha(line[k]) || IsDigitChar(line[k]))
      invariant start < k <= |line|
      invariant word == line[start..k]
      invariant WordRunEnd(line, k) == WordRunEnd(line, start)
    {
      word := word + [line[k]];
      k := k + 1;
    }
  }

  /** The string loop of `tokenlize`: the text after the opening quote at
      `start`, up to the closing quote or the end of the line. */
  method ReadQuoted(line: string, start: nat) returns (str: string, k: nat)
    requires start < |line|
    ensures k == QuoteEnd(line, start + 1, line[start]) && str == line[start + 1..k]
  {
    var quote := line[start];
    str := "";
    k := start + 1;
    while k < |line| && line[k] != quote
      invariant start < k <= |line|
      invariant str == line[start + 1..k]
      invariant QuoteEnd(line, k, quote) == QuoteEnd(line, start + 1, quote)
    {
      str := str + [line[k]];
      k := k + 1;
    }
  }

  /** The single-line comment loop of `tokenlize`: the rest of the line. */
  method ReadRest(line: string, start: nat) returns (comment: string)
    requires start < |line|
    ensures comment == line[start..]
  {
    comment := [line[start]];
    var k := start + 1;
    while k < |line|
      invariant start < k <= |line|
      invariant comment == line[start..k]
    {
      comment := comment + [line[k]];
      k := k + 1;
    }
  }

  /** The kind `tokenlize` gives a scanned word. */
  method KindOfWord(word: string) returns (kind: TokenType)
    ensures kind == WordKind(word)
  {
    if IsKeyword(word) {
      IsKeywordIsTableMembership(word);
      var keyword := Keywords[word];
      if keyword == Boolean {
        kind := Boolean;
      } else {
        kind := keyword;
      }
    } else {
      kind := Identifier;
    }
  }

  /** The body of the character loop of `tokenlize`, on the scanner's
      variables held in `st`: the position the loop goes on from, and the
      variables after this character. */
  method StepAt(line: string, j: nat, st: LexState) returns (r: Result<Scan, string>)
    requires j < |line|
    ensures r == Step(line, j, st)
  {
    var tokens, lineNum, colNum := st.tokens, st.lineNum, st.colNum;
    var inComment, commentText, commentCol := st.inComment, st.commentText, st.commentCol;
    var next := j;
    var ch := line[j];
    if inComment {
      if ch == '*' && j + 1 < |line| && line[j + 1] == '#' {
        commentText := commentText + "*#";
        tokens := tokens + [Token(Comment, Str(commentText), lineNum, commentCol)];
        inComment := false;
        commentText := "";
        next := next + 1;
        colNum := colNum + 2;
      } else {
        commentText := commentText + [ch];
        colNum := colNum + 1;
      }
    } else if IsDigitChar(ch) {
      var startCol := colNum;
      var num, k := ReadDigits(line, j);
      next := k - 1;
      tokens := tokens + [Token(Number, Str(num), lineNum, startCol)];
      colNum := colNum + |num|;
    } else if IsAlpha(ch) {
      var startCol := colNum;
      var word, k := ReadWord(line, j);
      next := k - 1;
      var kind := KindOfWord(word);
      tokens := tokens + [Token(kind, Str(word), lineNum, startCol)];
      colNum := colNum + |word|;
    } else if IsOperator(ch) {
      tokens := tokens + [Token(Operator, Str([ch]), lineNum, colNum)];
      colNum := colNum + 1;
    } else if IsCommentStart(ch) {
      var startCol := colNum;
      if j + 1 < |line| && line[j + 1] == '*' {
        inComment := true;
        commentText := "#*";
        commentCol := startCol;
        next := next + 1;
        colNum := colNum + 2;
      } else {
        var comment := ReadRest(line, j);
        next := |line| - 1;
        tokens := tokens + [Token(Comment, Str(comment), lineNum, startCol)];
        colNum := colNum + |comment|;
      }
    } else if PunctKind(ch).Some? {
      tokens := tokens + [Token(PunctKind(ch).value, Str([ch]), lineNum, colNum)];
      colNum := colNum + 1;
    } else if IsQuote(ch) {
      var startCol := colNum;
      var str, k := ReadQuoted(line, j);
      next := k;
      tokens := tokens + [Token(String, Str(str), lineNum, startCol + 1)];
      colNum := colNum + |str| + 2;
    } else if IsSkip(ch) {
      colNum := colNum + 1;
    } else {
      r := Failure(UnknownChar(ch, st));
      return;
    }
    // the loop's own `j++`; an unterminated string leaves the line
    next := next + 1;
    if next > |line| {
      next := |line|;
    }
    r := Success(Scan(next, LexState(tokens, lineNum, colNum, inComment, commentText, commentCol)));
  }

  /** The character loop of `tokenlize` over one line. */
  method ScanLine(line: string, st: LexState) returns (r: Result<LexState, string>)
    ensures r == ScanFrom(line, 0, st)
  {
    var cur := st;
    var j := 0;
    while j < |line|
      invariant 0 <= j <= |line|
      invariant ScanFrom(line, 0, st) == ScanFrom(line, j, cur)
      decreases |line| - j
    {
      var step := StepAt(line, j, cur);
      if step.Failure? {
        r := Failure(step.error);
        return;
      }
      j, cur := step.value.next, step.value.st;
    }
    r := Success(cur);
  }

  /** `tokenlize`: every line in turn, then the unterminated-comment check. */
  method Tokenize(code: string) returns (r: Result<seq<Token>, string>)
    ensures r == Lex(code)
  {
    var lines := SplitLines(code);
    var st := Start;
    var i := 0;
    while i < |lines|
      invariant 0 <= i <= |lines|
      invariant LexLines(lines, 0, Start) == LexLines(lines, i, st)
    {
      var scanned := ScanLine(lines[i], st);
      if scanned.Failure? {
        r := Failure(scanned.error);
        return;
      }
      st := scanned.value;
      if st.inComment {
        st := st.(commentText := st.commentText + "\n");
      }
      st := st.(lineNum := st.lineNum + 1, colNum := 1);
      i := i + 1;
    }
    if st.inComment {
      r := Failure("Unterminated multiline comment");
      return;
    }
    r := Success(st.tokens);
  }

  /** A digit run ends at the first character that is not a digit. */
  lemma {:induction false} DigitRunMaximal(line: string, j: nat)
    requires j <= |line|
    ensures AllDigits(line[j..DigitRunEnd(line, j)])
    ensures DigitRunEnd(line, j) == |line| || !IsDigitChar(line[DigitRunEnd(line, j)])
    decreases |line| - j
  {
    if j < |line| && IsDigitChar(line[j]) {
      DigitRunMaximal(line, j + 1);
      var k := DigitRunEnd(line, j);
      assert line[j..k] == [line[j]] + line[j + 1..k];
    }
  }

  /** A word runs over letters and digits up to the first other character. */
  lemma {:induction false} WordRunMaximal(line: string, j: nat)
    requires j <= |line|
    ensures forall c :: c in line[j..WordRunEnd(line, j)] ==> IsAlpha(c) || IsDigitChar(c)
    ensures var k := WordRunEnd(line, j); k == |line| || !(IsAlpha(line[k]) || IsDigitChar(line[k]))
    decreases |line| - j
  {
    if j < |line| && (IsAlpha(line[j]) || IsDigitChar(line[j])) {
      WordRunMaximal(line, j + 1);
      var k := WordRunEnd(line, j);
      assert line[j..k] == [line[j]] + line[j + 1..k];
    }
  }

  /** A string's text stops at the first matching quote. */
  lemma {:induction false} QuoteEndFirst(line: string, j: nat, quote: char)
    requires j <= |line|
    ensures quote !in line[j..QuoteEnd(line, j, quote)]
    ensures var k := QuoteEnd(line, j, quote); k == |line| || line[k] == quote
    decreases |line| - j
  {
    if j < |line| && line[j] != quote {
      QuoteEndFirst(line, j + 1, quote);
      var k := QuoteEnd(line, j, quote);
      assert line[j..k] == [line[j]] + line[j + 1..k];
    }
  }

  /** Outside a comment, a digit starts one number token that holds the
      whole maximal run of digits, at the current line and column, and the
      column moves past the run. */
  lemma NumberToken(line: string, j: nat, st: LexState)
    requires j < |line| && !st.inComment && IsDigitChar(line[j])
    ensures Step(line, j, st).Success?
    ensures var s := Step(line, j, st).value; var k := s.next;
      && s.st.tokens == st.tokens + [Token(Number, Str(line[j..k]), st.lineNum, st.colNum)]
      && AllDigits(line[j..k]) && (k == |line| || !IsDigitChar(line[k]))
      && s.st.colNum == st.colNum + |line[j..k]|
  {
    DigitRunMaximal(line, j);
  }

  /** Outside a comment, a letter starts one word token holding the maximal
      run of letters and digits; it is a keyword's kind exactly when the word
      is reserved. */
  lemma WordToken(line: string, j: nat, st: LexState)
    requires j < |line| && !st.inComment && IsAlpha(line[j])
    ensures Step(line, j, st).Success?
    ensures var s := Step(line, j, st).value; var k := s.next; var w := line[j..k];
      && s.st.tokens == st.tokens + [Token(WordKind(w), Str(w), st.lineNum, st.colNum)]
      && (forall c :: c in w ==> IsAlpha(c) || IsDigitChar(c))
      && (k == |line| || !(IsAlpha(line[k]) || IsDigitChar(line[k])))
      && (w in Keywords ==> WordKind(w) == Keywords[w])
      && (w !in Keywords ==> WordKind(w) == Identifier)
  {
    WordRunMaximal(line, j);
    IsKeywordIsTableMembership(line[j..Step(line, j, st).value.next]);
  }

  /** A quote starts a string token whose text is everything up to the
      matching quote (or the end of the line), placed one column after the
      opening quote; the column moves by the text's length plus two, even
      when the closing quote is missing. */
  lemma StringToken(line: string, j: nat, st: LexState)
    requires j < |line| && !st.inComment && IsQuote(line[j])
    ensures Step(line, j, st).Success?
    ensures var s := Step(line, j, st).value; var k := QuoteEnd(line, j + 1, line[j]); var text := line[j + 1..k];
      && s.st.tokens == st.tokens + [Token(String, Str(text), st.lineNum, st.colNum + 1)]
      && line[j] !in text
      && s.st.colNum == st.colNum + |text| + 2
      && (k < |line| ==> s.next == k + 1 && line[k] == line[j])
      && (k == |line| ==> s.next == |line|)
  {
    QuoteEndFirst(line, j + 1, line[j]);
  }

  /** Any character outside a comment that no rule accepts stops the scan
      with the position in the message. */
  lemma UnknownCharStops(line: string, j: nat, st: LexState)
    requires j < |line| && !st.inComment
    requires var c := line[j];
      !IsDigitChar(c) && !IsAlpha(c) && !IsOperator(c) && !IsCommentStart(c)
      && PunctKind(c).None? && !IsQuote(c) && !IsSkip(c)
    ensures ScanFrom(line, j, st) == Failure(UnknownChar(line[j], st))
  {
  }

  /** A digit run lexes to one number token at line 1, column 1. */
  lemma LexNumber()
    ensures Lex("123") == Success([Token(Number, Str("123"), 1, 1)])
  {
    var l := "123";
    assert l[0] == '1' && l[1] == '2' && l[2] == '3';
    assert IndexOfNewline(l, 0) == 3;
    assert SplitLines(l) == [l];
    assert DigitRunEnd(l, 0) == 3;
    assert l[0..3] == l;
    var s1 := AddToken(Start, Number, l, 1).(colNum := 4);
    assert Step(l, 0, Start) == Success(Scan(3, s1));
    assert ScanFrom(l, 0, Start) == Success(s1);
    assert LexLines([l], 1, EndOfLine(s1)) == Success(EndOfLine(s1));
    assert LexLines([l], 0, Start) == Success(EndOfLine(s1));
    assert !EndOfLine(s1).inComment;
    assert Lex(l) == Success(EndOfLine(s1).tokens);
    assert EndOfLine(s1).tokens == [Token(Number, Str("123"), 1, 1)];
  }

  /** Operators are single characters: `==` is two tokens. */
  lemma LexDoubleEquals()
    ensures Lex("==") == Success([Token(Operator, Str("="), 1, 1), Token(Operator, Str("="), 1, 2)])
  {
    var l := "==";
    assert l[0] == '=' && l[1] == '=';
    assert IndexOfNewline(l, 0) == 2;
    assert SplitLines(l) == [l];
    var s1 := AddToken(Start, Operator, "=", 1).(colNum := 2);
    assert Step(l, 0, Start) == Success(Scan(1, s1));
    var s2 := AddToken(s1, Operator, "=", 2).(colNum := 3);
    assert Step(l, 1, s1) == Success(Scan(2, s2));
    assert ScanFrom(l, 0, Start) == Success(s2);
    assert LexLines([l], 1, EndOfLine(s2)) == Success(EndOfLine(s2));
    assert LexLines([l], 0, Start) == Success(EndOfLine(s2));
    assert !EndOfLine(s2).inComment;
    assert Lex(l) == Success(EndOfLine(s2).tokens);
    assert EndOfLine(s2).tokens == [Token(Operator, Str("="), 1, 1), Token(Operator, Str("="), 1, 2)];
  }

  lemma CstWordKinds()
    ensures WordKind("cst") == Cst && WordKind("const") == Identifier
  {
    ConstIsNotAKeyword();
  }

  /** `cst` lexes as the const keyword. */
  lemma LexCst()
    ensures Lex("cst") == Success([Token(Cst, Str("cst"), 1, 1)])
  {
    CstWordKinds();
    var l := "cst";
    assert l[0] == 'c' && l[1] == 's' && l[2] == 't';
    assert IndexOfNewline(l, 0) == 3;
    assert SplitLines(l) == [l];
    assert WordRunEnd(l, 0) == 3;
    assert l[0..3] == l;
    var s1 := AddToken(Start, Cst, l, 1).(colNum := 4);
    assert Step(l, 0, Start) == Success(Scan(3, s1));
    assert ScanFrom(l, 0, Start) == Success(s1);
    assert LexLines([l], 1, EndOfLine(s1)) == Success(EndOfLine(s1));
    assert LexLines([l], 0, Start) == Success(EndOfLine(s1));
    assert !EndOfLine(s1).inComment;
    assert Lex(l) == Success(EndOfLine(s1).tokens);
    assert EndOfLine(s1).tokens == [Token(Cst, Str("cst"), 1, 1)];
  }

  /** `const` is an ordinary identifier. */
  lemma LexConst()
    ensures Lex("const") == Success([Token(Identifier, Str("const"), 1, 1)])
  {
    CstWordKinds();
    var l := "const";
    assert l[0] == 'c' && l[1] == 'o' && l[2] == 'n' && l[3] == 's' && l[4] == 't';
    assert IndexOfNewline(l, 0) == 5;
    assert SplitLines(l) == [l];
    assert WordRunEnd(l, 0) == 5;
    assert l[0..5] == l;
    var s1 := AddToken(Start, Identifier, l, 1).(colNum := 6);
    assert Step(l, 0, Start) == Success(Scan(5, s1));
    assert ScanFrom(l, 0, Start) == Success(s1);
    assert LexLines([l], 1, EndOfLine(s1)) == Success(EndOfLine(s1));
    assert LexLines([l], 0, Start) == Success(EndOfLine(s1));
    assert !EndOfLine(s1).inComment;
    assert Lex(l) == Success(EndOfLine(s1).tokens);
    assert EndOfLine(s1).tokens == [Token(Identifier, Str("const"), 1, 1)];
  }

  /** A multi-line comment becomes one token holding its text and the line
      break, placed at the line where it ends and the column where it began. */
  lemma LexMultilineComment()
    ensures Lex("#*a\n*#") == Success([Token(Comment, Str("#*a\n*#"), 2, 1)])
  {
    var code := "#*a\n*#";
    var l1, l2 := "#*a", "*#";
    assert code[0] == '#' && code[1] == '*' && code[2] == 'a' && code[3] == '\n';
    assert IndexOfNewline(code, 0) == 3;
    assert code[..3] == l1 && code[4..] == l2;
    assert l2[0] == '*' && l2[1] == '#';
    assert IndexOfNewline(l2, 0) == 2;
    assert SplitLines(l2) == [l2];
    assert SplitLines(code) == [l1, l2];
    var s1 := Start.(inComment := true, commentText := "#*", commentCol := 1, colNum := 3);
    assert Step(l1, 0, Start) == Success(Scan(2, s1));
    assert s1.commentText + [l1[2]] == "#*a";
    var s2 := s1.(commentText := "#*a", colNum := 4);
    assert Step(l1, 2, s1) == Success(Scan(3, s2));
    assert ScanFrom(l1, 0, Start) == Success(s2);
    var s3 := EndOfLine(s2);
    assert s3.commentText == "#*a\n" && s3.lineNum == 2;
    assert s3.commentText + "*#" == code;
    var s4 := AddToken(s3, Comment, code, 1).(inComment := false, commentText := "", colNum := 3);
    assert Step(l2, 0, s3) == Success(Scan(2, s4));
    assert ScanFrom(l2, 0, s3) == Success(s4);
    assert LexLines([l1, l2], 2, EndOfLine(s4)) == Success(EndOfLine(s4));
    assert LexLines([l1, l2], 1, s3) == Success(EndOfLine(s4));
    assert LexLines([l1, l2], 0, Start) == Success(EndOfLine(s4));
    assert !EndOfLine(s4).inComment;
    assert Lex(code) == Success(EndOfLine(s4).tokens);
    assert s3.tokens == [];
    assert EndOfLine(s4).tokens == [Token(Comment, Str(code), 2, 1)];
  }

  /** A multi-line comment still open at the end of the input is an error. */
  lemma LexUnterminatedComment()
    ensures Lex("#*") == Failure("Unterminated multiline comment")
  {
    var l := "#*";
    assert l[0] == '#' && l[1] == '*';
    assert IndexOfNewline(l, 0) == 2;
    assert SplitLines(l) == [l];
    var s1 := Start.(inComment := true, commentText := "#*", commentCol := 1, colNum := 3);
    assert Step(l, 0, Start) == Success(Scan(2, s1));
    assert ScanFrom(l, 0, Start) == Success(s1);
    assert LexLines([l], 1, EndOfLine(s1)) == Success(EndOfLine(s1));
    assert LexLines([l], 0, Start) == Success(EndOfLine(s1));
  }

  /** A character no rule accepts is reported with its line and column. */
  lemma LexUnknownChar()
    ensures Lex(" @") == Failure("Unknown char : @ at line 1, column 2")
  {
    var l := " @";
    assert l[0] == ' ' && l[1] == '@';
    assert IndexOfNewline(l, 0) == 2;
    assert SplitLines(l) == [l];
    var s1 := Start.(colNum := 2);
    assert Step(l, 0, Start) == Success(Scan(1, s1));
    assert DigitChar(1) == '1' && DigitChar(2) == '2';
    assert IntToString(1) == "1" && IntToString(2) == "2";
    assert UnknownChar('@', s1) == "Unknown char : @ at line 1, column 2";
    assert Step(l, 1, s1) == Failure(UnknownChar('@', s1));
    assert ScanFrom(l, 0, Start) == Failure(UnknownChar('@', s1));
  }

  predicate NoEmptyLine(tokens: seq<Token>)
  {
    forall k :: 0 <= k < |tokens| ==> tokens[k].kind != EmptyLine
  }

  lemma WordKindNotEmptyLine(w: string)
    ensures WordKind(w) != EmptyLine
  {
    IsKeywordIsTableMembership(w);
    if w in Keywords {
      assert forall v :: v in Keywords.Values ==> v != EmptyLine;
    }
  }

  lemma {:induction false} ScanNoEmptyLine(line: string, j: nat, st: LexState)
    requires j <= |line| && NoEmptyLine(st.tokens)
    ensures ScanFrom(line, j, st).Success? ==> NoEmptyLine(ScanFrom(line, j, st).value.tokens)
    decreases |line| - j
  {
    if j < |line| && Step(line, j, st).Success? {
      var s := Step(line, j, st);
      if !st.inComment && IsAlpha(line[j]) {
        WordKindNotEmptyLine(line[j..WordRunEnd(line, j)]);
      }
      assert NoEmptyLine(s.value.st.tokens);
      ScanNoEmptyLine(line, s.value.next, s.value.st);
    }
  }

  lemma {:induction false} LinesNoEmptyLine(lines: seq<string>, i: nat, st: LexState)
    requires i <= |lines| && NoEmptyLine(st.tokens)
    ensures LexLines(lines, i, st).Success? ==> NoEmptyLine(LexLines(lines, i, st).value.tokens)
    decreases |lines| - i
  {
    if i < |lines| {
      ScanNoEmptyLine(lines[i], 0, st);
      if ScanFrom(lines[i], 0, st).Success? {
        LinesNoEmptyLine(lines, i + 1, EndOfLine(ScanFrom(lines[i], 0, st).value));
      }
    }
  }

  /** The lexer never produces an `EmptyLine` token. */
  lemma NeverEmptyLine(code: string)
    ensures Lex(code).Success? ==> NoEmptyLine(Lex(code).value)
  {
    LinesNoEmptyLine(SplitLines(code), 0, Start);
  }

  /** Tokens come in source order of lines: line numbers never go down, and
      none is past the line being scanned. */
  predicate LinesInOrder(st: LexState)
  {
    && (forall k :: 0 <= k < |st.tokens| ==> 1 <= st.tokens[k].line <= st.lineNum)
    && (forall a, b :: 0 <= a < b < |st.tokens| ==> st.tokens[a].line <= st.tokens[b].line)
  }

  lemma {:induction false} ScanLinesInOrder(line: string, j: nat, st: LexState)
    requires j <= |line| && LinesInOrder(st) && st.lineNum >= 1
    ensures ScanFrom(line, j, st).Success? ==>
      LinesInOrder(ScanFrom(line, j, st).value) && ScanFrom(line, j, st).value.lineNum == st.lineNum
    decreases |line| - j
  {
    if j < |line| && Step(line, j, st).Success? {
      var s := Step(line, j, st).value;
      assert s.st.lineNum == st.lineNum;
      assert s.st.tokens == st.tokens || (|s.st.tokens| == |st.tokens| + 1 && s.st.tokens[..|st.tokens|] == st.tokens && s.st.tokens[|st.tokens|].line == st.lineNum);
      assert LinesInOrder(s.st);
      ScanLinesInOrder(line, s.next, s.st);
    }
  }

  lemma {:induction false} LexLinesInOrder(lines: seq<string>, i: nat, st: LexState)
    requires i <= |lines| && LinesInOrder(st) && st.lineNum >= 1
    ensures LexLines(lines, i, st).Success? ==> LinesInOrder(LexLines(lines, i, st).value)
    decreases |lines| - i
  {
    if i < |lines| {
      ScanLinesInOrder(lines[i], 0, st);
      if ScanFrom(lines[i], 0, st).Success? {
        LexLinesInOrder(lines, i + 1, EndOfLine(ScanFrom(lines[i], 0, st).value));
      }
    }
  }

  /** Every token of a successful lex lies on a line at least 1, and line
      numbers never decrease along the token sequence. */
  lemma TokensInLineOrder(code: string)
    ensures Lex(code).Success? ==>
      var ts := Lex(code).value;
      && (forall k :: 0 <= k < |ts| ==> 1 <= ts[k].line)
      && (forall a, b :: 0 <= a < b < |ts| ==> ts[a].line <= ts[b].line)
  {
    LexLinesInOrder(SplitLines(code), 0, Start);
  }
}
