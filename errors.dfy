/** The interpreter's error records and the stack that collects them
    (src/error/index.ts). */
module Errors {
  import opened Wrappers
  import opened TokenKinds

  /** `ErrorCode`. */
  datatype ErrorCode = InterpreterError | SyntaxError | RuntimeError

  /** Where an error's position is read from: a Literal node (its token) or
      a bare token. */
  datatype PositionSource = FromLiteral(token: Token) | FromToken(token: Token)

  /** `cause`: the file of the environment the error was raised in, and the
      position, each `null` when unknown. */
  datatype Cause = Cause(filePath: Option<string>, line: Option<int>, column: Option<int>)

  /** An `ErrorStack`: its message, `name`, `code` and `cause`. */
  datatype ErrorStack = ErrorStack(message: string, name: ErrorCode, code: ErrorCode, cause: Cause)

  /** `new ErrorStack(message, env, token)`. `envPath` is `None` when no
      environment is given and otherwise that environment's `filePath`. */
  function NewErrorStack(message: string, envPath: Option<string>, token: Option<PositionSource>): ErrorStack
  {
    var code := if envPath.None? then SyntaxError else InterpreterError;
    var line := if token.None? then None else Some(token.value.token.line);
    var column := if token.None? then None else Some(token.value.token.column);
    // `env?.filePath || null`: a missing or empty path is null
    var path := if envPath.Some? && envPath.value != "" then envPath else None;
    ErrorStack(message, code, code, Cause(path, line, column))
  }

  /** Without an environment the code is SYNTAX_ERROR, with one it is
      INTERPRETER_ERROR; `name` always equals `code`. */
  lemma ErrorStackCode(message: string, envPath: Option<string>, token: Option<PositionSource>)
    ensures var e := NewErrorStack(message, envPath, token);
      && e.message == message
      && (e.code == SyntaxError <==> envPath.None?)
      && (e.code == InterpreterError <==> envPath.Some?)
      && e.name == e.code
  {
  }

  /** The position is the token's (a Literal's own token when a Literal is
      given) and null without a token; the path is the environment's. */
  lemma ErrorStackCause(message: string, envPath: Option<string>, token: Option<PositionSource>)
    ensures var c := NewErrorStack(message, envPath, token).cause;
      && (token.None? ==> c.line.None? && c.column.None?)
      && (token.Some? ==> c.line == Some(token.value.token.line) && c.column == Some(token.value.token.column))
      && (c.filePath.Some? <==> envPath.Some? && envPath.value != "")
      && (c.filePath.Some? ==> c.filePath == envPath)
  {
  }

  /** What `throw` raises for a list of errors: the most recent one. */
  function LastError(stacks: seq<ErrorStack>): Option<ErrorStack>
  {
    if |stacks| == 0 then None else Some(stacks[|stacks| - 1])
  }

  /** What `throwAll` raises: `forEach` throws on its first element. */
  function FirstError(stacks: seq<ErrorStack>): Option<ErrorStack>
  {
    if |stacks| == 0 then None else Some(stacks[0])
  }

  /** `ErrorStackManager`: an append-only list of errors. */
  class ErrorStackManager {
    var errorStacks: seq<ErrorStack>

    constructor()
      ensures errorStacks == []
    {
      errorStacks := [];
    }

    /** `addError`: appends and returns the manager itself. */
    method AddError(error: ErrorStack) returns (self: ErrorStackManager)
      modifies this
      ensures errorStacks == old(errorStacks) + [error]
      ensures QueryError() == old(QueryError()) + [error]
      ensures self == this
    {
      errorStacks := errorStacks + [error];
      self := this;
    }

    /** `queryError`: the errors in insertion order. */
    function QueryError(): seq<ErrorStack>
      reads this
    {
      errorStacks
    }

    /** `throw`: nothing on an empty stack, else the last error added. */
    method Throw() returns (raised: Option<ErrorStack>)
      ensures raised == LastError(errorStacks)
      ensures raised.None? <==> errorStacks == []
      ensures raised.Some? ==> raised.value in errorStacks
    {
      if |errorStacks| == 0 {
        return None;
      }
      raised := Some(errorStacks[|errorStacks| - 1]);
    }

    /** `throwAll`: nothing on an empty stack, else the first error, since
        the callback's `throw` leaves `forEach` on its first element. */
    method ThrowAll() returns (raised: Option<ErrorStack>)
      ensures raised == FirstError(errorStacks)
      ensures raised.None? <==> errorStacks == []
      ensures raised.Some? ==> raised.value in errorStacks
    {
      if |errorStacks| == 0 {
        return None;
      }
      raised := Some(errorStacks[0]);
    }
  }

  /** Adding an error makes it what `throw` raises next. */
  lemma ThrowAfterAdd(stacks: seq<ErrorStack>, e: ErrorStack)
    ensures LastError(stacks + [e]) == Some(e)
  {
  }

  /** Adding an error never changes what `throwAll` raises once something is
      recorded; on an empty stack the added error is raised. */
  lemma ThrowAllAfterAdd(stacks: seq<ErrorStack>, e: ErrorStack)
    ensures FirstError(stacks + [e]) == if stacks == [] then Some(e) else FirstError(stacks)
  {
  }

  /** `throw` and `throwAll` agree exactly when at most one error is
      recorded or the first and last coincide. */
  lemma ThrowAndThrowAllAgree(stacks: seq<ErrorStack>)
    ensures LastError(stacks) == FirstError(stacks) <==> (|stacks| == 0 || stacks[0] == stacks[|stacks| - 1])
  {
  }

  /** The parser's `new ErrorStackManager().addError(e).throw()` always
      raises `e`. */
  method RaiseFresh(e: ErrorStack) returns (raised: Option<ErrorStack>)
    ensures raised == Some(e)
  {
    var manager := new ErrorStackManager();
    var m := manager.AddError(e);
    raised := m.Throw();
  }
}
