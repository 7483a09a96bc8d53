/** The syntax tree the parser builds (the node shapes of src/node/index.ts
    and the `createUnitNode` calls of src/parser/index.ts). A token the
    parser ate from an empty queue is `undefined` in the source, and a block
    built without an `id` reads as `undefined` too; such positions hold an
    `Option<Token>`. */
module Ast {
  import opened Wrappers
  import opened TokenKinds

  /** The node kinds. Field names follow the source's keys; a single block
      child that the source keeps under `body` is `block` here, `id` holding
      a Literal is `name`, and a for-loop's `value` is `item`. */
  datatype Node =
    | Program(body: seq<Node>)
    | EmptyLine(id: Option<Token>)
    | CommentStatement(comment: Option<Token>)
    | Literal(token: Token)
    | WaitStatement(async: Node, id: Option<Token>)
    | ToExpression(arguments: seq<Node>, block: Node)
    | RunStatement(callee: Node, to: seq<Node>, id: Option<Token>)
    | TaskStatement(fn: Node, id: Option<Token>)
    | ExposeStatement(exposed: Node, id: Option<Token>)
    | UseSpecifier(local: Node, remote: Option<Node>)
    | UseDefaultSpecifier(local: Node)
    | UseDeclaration(source: Node, specifiers: seq<Node>, id: Option<Token>)
    | ReturnStatement(value: Node, id: Option<Token>)
    | SwitchStatement(test: Node, cases: seq<Node>, id: Option<Token>)
    | CaseBlockStatement(caseTest: Option<Node>, block: Node)
    | DefaultCaseBlockStatement(caseTest: Option<Node>, block: Node)
    | FunctionDeclaration(name: Node, arguments: seq<Node>, block: Node, preId: Option<Token>)
    | VariableDeclaration(name: Node, value: Node, isConst: bool, preId: Option<Token>)
    | IfStatement(test: Node, consequent: Node, alternate: Node, id: Option<Token>)
    | ForStatement(init: Node, item: Option<Node>, range: Node, block: Node, update: Node, id: Option<Token>)
    | BlockStatement(body: seq<Node>, id: Option<Token>)
    | TemplateLiteralExpression(quotes: seq<Node>)
    | TemplateElement(value: Node)
    | TernaryExpression(condition: Node, consequent: Node, alternate: Node)
    | ObjectExpression(properties: seq<Node>)
    | Property(key: Node, value: Node)
    | ArrayExpression(items: seq<Node>)
    | CompareExpression(left: Node, operator: Token, right: Node)
    | EqualExpression(left: Node, operator: Token, right: Node)
    | AssignmentExpression(left: Node, operator: Token, right: Node)
    | CallExpression(callee: Node, arguments: seq<Node>)
    | BinaryExpression(left: Node, operator: Token, right: Node)
    | RangeExpression(start: Node, step: Token, end: Node)
    | MemberExpression(object: Node, property: Node, computed: bool)
    | LambdaFunctionDecl(arguments: seq<Node>, block: Node)

  /** The `type` string each node carries, spelt as the source spells it. */
  function TypeName(n: Node): string
  {
    match n
    case Program(_) => "Program"
    case EmptyLine(_) => "EmptyLine"
    case CommentStatement(_) => "CommentStatement"
    case Literal(_) => "Literal"
    case WaitStatement(_, _) => "WaitStatement"
    case ToExpression(_, _) => "ToExpression"
    case RunStatement(_, _, _) => "RunStatement"
    case TaskStatement(_, _) => "TaskStatement"
    case ExposeStatement(_, _) => "ExposeStmtement"
    case UseSpecifier(_, _) => "UseSpecifier"
    case UseDefaultSpecifier(_) => "UseDefaultSpecifier"
    case UseDeclaration(_, _, _) => "UseDeclaration"
    case ReturnStatement(_, _) => "ReturnStatement"
    case SwitchStatement(_, _, _) => "SwitchStmtement"
    case CaseBlockStatement(_, _) => "CaseBlockStatement"
    case DefaultCaseBlockStatement(_, _) => "DefaultCaseBlockStatement"
    case FunctionDeclaration(_, _, _, _) => "FunctionDeclaration"
    case VariableDeclaration(_, _, _, _) => "VariableDeclaration"
    case IfStatement(_, _, _, _) => "IfStatement"
    case ForStatement(_, _, _, _, _, _) => "ForStatement"
    case BlockStatement(_, _) => "BlockStatement"
    case TemplateLiteralExpression(_) => "TemplateLiteralExpression"
    case TemplateElement(_) => "TemplateElement"
    case TernaryExpression(_, _, _) => "TernayExpression"
    case ObjectExpression(_) => "ObjectExpression"
    case Property(_, _) => "Property"
    case ArrayExpression(_) => "ArrayExpression"
    case CompareExpression(_, _, _) => "CompareExpression"
    case EqualExpression(_, _, _) => "EqualExpression"
    case AssignmentExpression(_, _, _) => "AssignmentExpression"
    case CallExpression(_, _) => "CallExpression"
    case BinaryExpression(_, _, _) => "BinaryExpression"
    case RangeExpression(_, _, _) => "RangeExpression"
    case MemberExpression(_, _, _) => "MemberExpression"
    case LambdaFunctionDecl(_, _) => "LambdaFunctionDecl"
  }
}
