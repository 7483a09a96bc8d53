/** The breakpoint state of the `Debugger` (src/debug/index.ts): the file
    being debugged, its breakpoint lines, the current line, whether the
    program is paused and the callbacks that resume it. A command line
    typed at the debugger's prompt is a function from one state to the
    next (`Handle`); the `Debugger` class keeps the same fields and its
    methods are proved against those functions. Callbacks are known by a
    number; what calling one does belongs to whoever registered it. */
module Debug {
  import opened Wrappers
  import opened Host
  import opened Values

  type Callback = nat

  /** The fields the command handler reads and writes. */
  datatype DebugState = DebugState(
    filePath: Option<string>,
    breakpoints: map<string, seq<int>>,
    currentLine: int,
    paused: bool,
    pausedCallback: Option<Callback>,
    resumeCallback: Option<Callback>)

  /** Which message the command handler prints. */
  datatype Reply =
    | Exited
    | BreakpointSet(line: int)
    | InvalidLineNumber
    | NoFileSet
    | Continuing
    | NotPaused
    | BreakpointRemoved(line: int)
    | NoBreakpointAt(line: int)
    | AllCleared
    | ShowsSource
    | ListsBreakpoints(lines: seq<int>)
    | ShowsCurrentLine(line: int)
    | ShowsVariables(name: Option<string>)
    | ShowsHelp
    | UnknownCommand(command: string)

  /** What a command does: the new state, the reply, and the callbacks it
      calls, in order. */
  datatype Effect = Effect(state: DebugState, reply: Reply, calls: seq<Callback>)

  /** The state `new Debugger()` starts in: no file, no breakpoints, line
      0, paused. */
  const Initial := DebugState(None, map[], 0, true, None, None)

  /** `if (this.filePath)`: a file is set and its path is not empty. */
  predicate HasFile(s: DebugState)
  {
    s.filePath.Some? && s.filePath.value != ""
  }

  /** `this.beakpoint.get(this.filePath) || []`. */
  function FileBreakpoints(s: DebugState): seq<int>
    requires s.filePath.Some?
  {
    var f := s.filePath.value;
    if f in s.breakpoints then s.breakpoints[f] else []
  }

  // ---------------------------------------------------------------------
  // Reading a command line

  /** `s.split(/\s/)`: the pieces between single white-space characters. */
  function SplitOnSpace(s: string): (r: seq<string>)
    ensures |r| >= 1
  {
    if s == [] then [""]
    else
      var rest := SplitOnSpace(s[1..]);
      if IsJsSpace(s[0]) then [""] + rest else [[s[0]] + rest[0]] + rest[1..]
  }

  /** `line.trim().split(/\s/).filter(v => v !== " ")`; a piece never holds
      white space, so the filter removes nothing. */
  function CommandWords(line: string): (r: seq<string>)
    ensures |r| >= 1
  {
    SplitOnSpace(Trim(line))
  }

  /** The longest prefix of decimal digits. */
  function DigitPrefix(s: string): (r: string)
    ensures AllDigits(r) && r <= s
    ensures |r| < |s| ==> !IsDigit(s[|r|])
  {
    if s != [] && IsDigit(s[0]) then [s[0]] + DigitPrefix(s[1..]) else []
  }

  /** `parseInt(word, 10)`, with `None` for NaN: an optional sign, then at
      least one digit; whatever follows the digits is ignored. A missing
      word reads as the text "undefined". */
  function ParseInt(word: Option<string>): (r: Option<int>)
  {
    if word.None? then None
    else
      var t := TrimStart(word.value);
      var neg := t != [] && t[0] == '-';
      var body := if t != [] && (t[0] == '-' || t[0] == '+') then t[1..] else t;
      var digits := DigitPrefix(body);
      if digits == [] then None
      else if neg then Some(0 - DecimalValue(digits) as int)
      else Some(DecimalValue(digits))
  }

  /** `breakpoints.indexOf(line)`, -1 when absent. */
  function IndexOf(xs: seq<int>, x: int): (r: int)
    ensures -1 <= r < |xs|
    ensures r == -1 <==> x !in xs
    ensures r >= 0 ==> xs[r] == x && forall k :: 0 <= k < r ==> xs[k] != x
  {
    if xs == [] then -1
    else if xs[0] == x then 0
    else
      var k := IndexOf(xs[1..], x);
      if k == -1 then -1 else k + 1
  }

  // ---------------------------------------------------------------------
  // The command handler

  /** `b n`: with a file set and a number, `n` is appended to the file's
      list, which is created when missing. */
  function Break(s: DebugState, line: Option<int>): Effect
  {
    if !HasFile(s) then Effect(s, NoFileSet, [])
    else match line
      case None => Effect(s, InvalidLineNumber, [])
      case Some(n) =>
        var f := s.filePath.value;
        Effect(s.(breakpoints := s.breakpoints[f := FileBreakpoints(s) + [n]]), BreakpointSet(n), [])
  }

  /** `n`: a paused program is resumed, the pause callback and then the
      resume callback being called; otherwise nothing changes. */
  function Next(s: DebugState): Effect
  {
    if !s.paused then Effect(s, NotPaused, [])
    else
      var first := if s.pausedCallback.Some? then [s.pausedCallback.value] else [];
      var second := if s.resumeCallback.Some? then [s.resumeCallback.value] else [];
      Effect(s.(paused := false), Continuing, first + second)
  }

  /** `c n` removes the first `n` of the file's list; `c` without a number
      empties the list. A missing list is a fresh empty one, so removing
      from it changes nothing. */
  function Clear(s: DebugState, line: Option<int>): Effect
  {
    if !HasFile(s) then Effect(s, NoFileSet, [])
    else
      var f := s.filePath.value;
      match line
      case None => Effect(s.(breakpoints := s.breakpoints[f := []]), AllCleared, [])
      case Some(n) =>
        var bps := FileBreakpoints(s);
        var k := IndexOf(bps, n);
        if k == -1 then Effect(s, NoBreakpointAt(n), [])
        else if f in s.breakpoints then
          Effect(s.(breakpoints := s.breakpoints[f := bps[..k] + bps[k + 1..]]), BreakpointRemoved(n), [])
        else Effect(s, BreakpointRemoved(n), [])
  }

  /** The `line` handler of `start()`, on one command line. */
  function Handle(s: DebugState, line: string): (e: Effect)
  {
    var words := CommandWords(line);
    var command := words[0];
    var word := if |words| > 1 then Some(words[1]) else None;
    if command == "exit" then Effect(s, Exited, [])
    else if command == "b" || command == "breakpoint" || command == "break" then Break(s, ParseInt(word))
    else if command == "n" || command == "next" then Next(s)
    else if command == "src" || command == "source" then
      Effect(s, if HasFile(s) then ShowsSource else NoFileSet, [])
    else if command == "list" || command == "l" then
      Effect(s, if HasFile(s) then ListsBreakpoints(FileBreakpoints(s)) else NoFileSet, [])
    else if command == "clear" || command == "c" then Clear(s, ParseInt(word))
    else if command == "where" || command == "w" then Effect(s, ShowsCurrentLine(s.currentLine), [])
    else if command == "var" || command == "vars" || command == "v" then Effect(s, ShowsVariables(word), [])
    else if command == "help" || command == "h" then Effect(s, ShowsHelp, [])
    else Effect(s, UnknownCommand(command), [])
  }

  /** `setFile(filePath)`: the file becomes current with no breakpoints. */
  function SetFile(s: DebugState, path: string): DebugState
  {
    s.(filePath := Some(path), breakpoints := s.breakpoints[path := []])
  }

  /** `shouldPauseAtLine(line)`. */
  predicate ShouldPause(s: DebugState, line: int)
  {
    HasFile(s) && line in FileBreakpoints(s)
  }

  /** `setCurrentLine(line)`. */
  function SetCurrentLine(s: DebugState, line: int): DebugState
  {
    s.(currentLine := line, paused := s.paused || ShouldPause(s, line))
  }

  /** `on(event, callback)`: only "resume" is an event. */
  function On(s: DebugState, event: string, callback: Callback): DebugState
  {
    if event == "resume" then s.(pausedCallback := Some(callback)) else s
  }

  /** `isBuiltinVariable(name)`. */
  predicate IsBuiltinVariable(name: string)
  {
    name in ["true", "false", "print"]
  }

  // ---------------------------------------------------------------------
  // Properties

  /** `setFile` empties the file's list and leaves every other file's. */
  lemma SetFileResets(s: DebugState, path: string)
    ensures HasFile(SetFile(s, path)) <==> path != ""
    ensures FileBreakpoints(SetFile(s, path)) == []
    ensures forall g :: g in s.breakpoints && g != path ==> g in SetFile(s, path).breakpoints && SetFile(s, path).breakpoints[g] == s.breakpoints[g]
  {
  }

  /** `b n` reads its line number out of the command line: a sign and the
      leading digits. */
  lemma {:induction false} ParseIntDigits(d: string)
    requires |d| > 0 && AllDigits(d)
    ensures ParseInt(Some(d)) == Some(DecimalValue(d))
    ensures ParseInt(Some("-" + d)) == Some(0 - DecimalValue(d))
  {
    DigitsArePrefix(d);
    assert !IsJsSpace(d[0]);
    assert TrimStart(d) == d;
    var m := "-" + d;
    assert m[1..] == d;
    assert TrimStart(m) == m;
  }

  lemma {:induction false} DigitsArePrefix(d: string)
    requires AllDigits(d)
    ensures DigitPrefix(d) == d
  {
    if d != [] {
      DigitsArePrefix(d[1..]);
    }
  }

  /** With a file set, `b n` appends `n` to that file's list (a line already
      there is added again) and touches nothing else. */
  lemma BreakAppends(s: DebugState, n: int)
    requires HasFile(s)
    ensures var e := Break(s, Some(n));
      && e.reply == BreakpointSet(n)
      && FileBreakpoints(e.state) == FileBreakpoints(s) + [n]
      && e.state.paused == s.paused && e.state.currentLine == s.currentLine
      && forall g :: g in s.breakpoints && g != s.filePath.value ==> g in e.state.breakpoints && e.state.breakpoints[g] == s.breakpoints[g]
  {
  }

  /** Without a file, or without a number, `b` changes nothing. */
  lemma BreakNeedsFileAndNumber(s: DebugState, line: Option<int>)
    requires !HasFile(s) || line.None?
    ensures Break(s, line).state == s
    ensures Break(s, line).reply == if !HasFile(s) then NoFileSet else InvalidLineNumber
  {
  }

  /** `c n` removes exactly one occurrence of `n`, the first one; the
      other lines keep their order. */
  lemma ClearRemovesFirst(s: DebugState, n: int)
    requires HasFile(s) && s.filePath.value in s.breakpoints
    ensures var before := FileBreakpoints(s);
      var after := FileBreakpoints(Clear(s, Some(n)).state);
      var k := IndexOf(before, n);
      && (n !in before ==> after == before)
      && (n in before ==> 0 <= k && before[k] == n && after == before[..k] + before[k + 1..])
      && multiset(after) == multiset(before) - multiset{n}
  {
    var before := FileBreakpoints(s);
    var k := IndexOf(before, n);
    ClearStep(s, n);
    var after := FileBreakpoints(Clear(s, Some(n)).state);
    if k >= 0 {
      assert after == before[..k] + before[k + 1..];
      RemoveAt(before, k);
    } else {
      assert after == before;
      assert n !in multiset(before);
      assert multiset(before) - multiset{n} == multiset(before);
    }
  }

  /** What `c n` leaves in the file's list, one step of `Clear` at a time. */
  lemma ClearStep(s: DebugState, n: int)
    requires HasFile(s) && s.filePath.value in s.breakpoints
    ensures var before := FileBreakpoints(s);
      var k := IndexOf(before, n);
      FileBreakpoints(Clear(s, Some(n)).state) == if k == -1 then before else before[..k] + before[k + 1..]
  {
  }

  /** Taking out the element at `k` takes one of its copies out of the
      multiset. */
  lemma RemoveAt(xs: seq<int>, k: nat)
    requires k < |xs|
    ensures multiset(xs[..k] + xs[k + 1..]) == multiset(xs) - multiset{xs[k]}
  {
    assert xs == xs[..k] + [xs[k]] + xs[k + 1..];
    assert multiset(xs) == multiset(xs[..k]) + multiset{xs[k]} + multiset(xs[k + 1..]);
  }

  /** `c` without a number empties the file's list. */
  lemma ClearAll(s: DebugState)
    requires HasFile(s)
    ensures Clear(s, None).reply == AllCleared
    ensures FileBreakpoints(Clear(s, None).state) == []
  {
  }

  /** `c 7` with two 7s in the list leaves the second one. */
  lemma ClearDuplicateExample(s: DebugState)
    requires HasFile(s) && s.breakpoints == map[s.filePath.value := [3, 7, 5, 7]]
    ensures FileBreakpoints(Clear(s, Some(7)).state) == [3, 5, 7]
  {
    ClearStep(s, 7);
  }

  /** `n` resumes a paused program, calling the pause callback before the
      resume callback; when not paused the state stays as it is and
      nothing is called. */
  lemma NextRules(s: DebugState)
    ensures s.paused ==> Next(s).state == s.(paused := false) && Next(s).reply == Continuing
    ensures s.paused ==>
      Next(s).calls == (if s.pausedCallback.Some? then [s.pausedCallback.value] else []) +
                       (if s.resumeCallback.Some? then [s.resumeCallback.value] else [])
    ensures !s.paused ==> Next(s) == Effect(s, NotPaused, [])
  {
  }

  /** Only `b`, `c` and `n` (and their long spellings) change the state;
      every other command only prints. */
  lemma OnlyBreakClearNextChangeState(s: DebugState, line: string)
    requires var c := CommandWords(line)[0];
      c !in ["b", "breakpoint", "break", "n", "next", "clear", "c"]
    ensures Handle(s, line).state == s && Handle(s, line).calls == []
  {
    var c := CommandWords(line)[0];
    assert c != "b" && c != "breakpoint" && c != "break";
    assert c != "n" && c != "next" && c != "clear" && c != "c";
  }

  /** A piece without white space stays whole. */
  lemma {:induction false} SplitOneWord(w: string)
    requires forall k :: 0 <= k < |w| ==> !IsJsSpace(w[k])
    ensures SplitOnSpace(w) == [w]
  {
    if w != [] {
      SplitOneWord(w[1..]);
      assert !IsJsSpace(w[0]);
      assert [w[0]] + w[1..] == w;
    }
  }

  /** Two pieces with one space between them split into those two. */
  lemma {:induction false} SplitTwoWords(a: string, b: string)
    requires forall k :: 0 <= k < |a| ==> !IsJsSpace(a[k])
    requires forall k :: 0 <= k < |b| ==> !IsJsSpace(b[k])
    ensures SplitOnSpace(a + " " + b) == [a, b]
  {
    if a == [] {
      assert (a + " " + b)[1..] == b;
      SplitOneWord(b);
    } else {
      var t := a + " " + b;
      assert t[0] == a[0] && t[1..] == a[1..] + " " + b;
      SplitTwoWords(a[1..], b);
      assert !IsJsSpace(a[0]);
      assert [a[0]] + a[1..] == a;
    }
  }

  /** A line whose words are `b` and a number sets a breakpoint, and a
      line whose one word is `n` resumes. */
  lemma HandleBreakLine(s: DebugState, line: string, w: string)
    requires CommandWords(line) == ["b", w]
    ensures Handle(s, line) == Break(s, ParseInt(Some(w)))
  {
  }

  lemma HandleNextLine(s: DebugState, line: string)
    requires CommandWords(line) == ["n"]
    ensures Handle(s, line) == Next(s)
  {
  }

  /** A line of two words with one space between them reads as those
      two words: `b 12` as the command `b` and the line number `12`. */
  lemma TwoWordLine(a: string, b: string)
    requires a != [] && b != []
    requires forall k :: 0 <= k < |a| ==> !IsJsSpace(a[k])
    requires forall k :: 0 <= k < |b| ==> !IsJsSpace(b[k])
    ensures CommandWords(a + " " + b) == [a, b]
  {
    var line := a + " " + b;
    assert line[0] == a[0] && line[|line| - 1] == b[|b| - 1];
    TrimUnspaced(line);
    SplitTwoWords(a, b);
  }

  /** A line of one word reads as that word: `n` as the command `n`. */
  lemma OneWordLine(w: string)
    requires w != []
    requires forall k :: 0 <= k < |w| ==> !IsJsSpace(w[k])
    ensures CommandWords(w) == [w]
  {
    TrimUnspaced(w);
    SplitOneWord(w);
  }

  /** A text that neither starts nor ends with white space is its own
      trimming. */
  lemma TrimUnspaced(s: string)
    requires s != [] && !IsJsSpace(s[0]) && !IsJsSpace(s[|s| - 1])
    ensures Trim(s) == s
  {
    assert TrimStart(s) == s;
  }

  /** No file means no pause; otherwise pausing is membership in the
      file's list. */
  lemma ShouldPauseRules(s: DebugState, line: int)
    ensures !HasFile(s) ==> !ShouldPause(s, line)
    ensures HasFile(s) ==> (ShouldPause(s, line) <==> line in FileBreakpoints(s))
  {
  }

  /** `setCurrentLine` records the line and pauses at a breakpoint, and
      never resumes a paused program. */
  lemma SetCurrentLineRules(s: DebugState, line: int)
    ensures SetCurrentLine(s, line).currentLine == line
    ensures SetCurrentLine(s, line).paused <==> s.paused || ShouldPause(s, line)
    ensures s.paused ==> SetCurrentLine(s, line).paused
    ensures SetCurrentLine(s, line).breakpoints == s.breakpoints
  {
  }

  /** `on` keeps a callback only for "resume". */
  lemma OnRules(s: DebugState, event: string, callback: Callback)
    ensures event == "resume" ==> On(s, event, callback).pausedCallback == Some(callback)
    ensures event != "resume" ==> On(s, event, callback) == s
  {
  }

  /** The built-in names are exactly `true`, `false` and `print`. */
  lemma BuiltinVariables(name: string)
    ensures IsBuiltinVariable(name) <==> name == "true" || name == "false" || name == "print"
  {
  }

  // ---------------------------------------------------------------------
  // The debugger object

  class Debugger {
    var filePath: Option<string>
    var breakpoints: map<string, seq<int>>
    var currentLine: int
    var paused: bool
    var pausedCallback: Option<Callback>
    var resumeCallback: Option<Callback>
    var currentEnvironment: Option<EnvId>

    /** The fields the command handler works on. */
    function State(): DebugState
      reads this
    {
      DebugState(filePath, breakpoints, currentLine, paused, pausedCallback, resumeCallback)
    }

    /** `new Debugger()`: paused from the start. */
    constructor()
      ensures State() == Initial && currentEnvironment.None?
      ensures paused
    {
      filePath := None;
      breakpoints := map[];
      currentLine := 0;
      paused := true;
      pausedCallback := None;
      resumeCallback := None;
      currentEnvironment := None;
    }

    method Assign(s: DebugState)
      modifies this
      ensures State() == s && currentEnvironment == old(currentEnvironment)
    {
      filePath := s.filePath;
      breakpoints := s.breakpoints;
      currentLine := s.currentLine;
      paused := s.paused;
      pausedCallback := s.pausedCallback;
      resumeCallback := s.resumeCallback;
    }

    /** `setFile(filePath)`. */
    method SetFilePath(path: string)
      modifies this
      ensures State() == SetFile(old(State()), path)
      ensures currentEnvironment == old(currentEnvironment)
    {
      filePath := Some(path);
      breakpoints := breakpoints[path := []];
    }

    /** One line typed at the prompt: the reply printed and the callbacks
        called, in order. */
    method HandleLine(line: string) returns (reply: Reply, calls: seq<Callback>)
      modifies this
      ensures State() == Handle(old(State()), line).state
      ensures reply == Handle(old(State()), line).reply && calls == Handle(old(State()), line).calls
      ensures currentEnvironment == old(currentEnvironment)
    {
      var e := Handle(State(), line);
      Assign(e.state);
      reply := e.reply;
      calls := e.calls;
    }

    /** `shouldPauseAtLine(line)`. */
    method ShouldPauseAtLine(line: int) returns (b: bool)
      ensures b == ShouldPause(State(), line)
      ensures b ==> filePath.Some? && filePath.value in breakpoints && line in breakpoints[filePath.value]
    {
      if filePath.None? || filePath.value == "" {
        return false;
      }
      var bps := if filePath.value in breakpoints then breakpoints[filePath.value] else [];
      b := line in bps;
    }

    /** `setCurrentLine(line)`. */
    method SetLine(line: int)
      modifies this
      ensures State() == SetCurrentLine(old(State()), line)
      ensures currentEnvironment == old(currentEnvironment)
    {
      currentLine := line;
      var stop := ShouldPauseAtLine(line);
      if stop {
        paused := true;
      }
    }

    /** `getCurrentLine()`. */
    function GetCurrentLine(): int
      reads this
    {
      currentLine
    }

    /** `on(event, callback)`. */
    method OnEvent(event: string, callback: Callback)
      modifies this
      ensures State() == On(old(State()), event, callback)
      ensures currentEnvironment == old(currentEnvironment)
    {
      if event == "resume" {
        pausedCallback := Some(callback);
      }
    }

    /** `setResumeCallback(callback)`. */
    method SetResumeCallback(callback: Callback)
      modifies this
      ensures State() == old(State()).(resumeCallback := Some(callback))
      ensures currentEnvironment == old(currentEnvironment)
    {
      resumeCallback := Some(callback);
    }

    /** `setCurrentEnvironment(env)`. */
    method SetCurrentEnvironment(env: EnvId)
      modifies this
      ensures State() == old(State()) && currentEnvironment == Some(env)
    {
      currentEnvironment := Some(env);
    }
  }
}
