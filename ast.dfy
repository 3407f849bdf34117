/** The C-like syntax tree the decompiler builds and its text rendering
    (the `__str__` of every node class). */
module Ast {
  import opened PyOps
  import opened Bytecode

  /** One node.  `NoneValue` is Python's `None` where the tree holds it: a
      missing initial value or return value, or an operand the reconstruction
      produced nothing for. */
  datatype Node =
    | Assignment(op: string, lvalue: Node, rvalue: Node)
    | BinaryOp(bop: string, arg1: Node, arg2: Node)
    | Break
    | Cast(ty: string, statement: Node)
    | Comment(text: string)
    | Constant(value: Value)
    | Continue
    | Decl(declType: string, name: string, initialValue: Node)
    | DoWhile(condition: Node, statements: seq<Node>)
    | EmptyStatement
    | For(initialize: Node, forCondition: Node, iterate: Node, forStatements: seq<Node>)
    | FuncCall(callee: Node, args: seq<Node>)
    | FuncDef(funcType: string, funcName: string, params: seq<Node>, body: seq<Node>)
    | Goto(labelName: string)
    | ID(id: string)
    | If(ifCondition: Node, trueStatements: seq<Node>, falseStatements: FalseBranch)
    | LabelStmt(labelText: string)
    | Return(returned: Node)
    | TernaryOp(cond: Node, trueStatement: Node, falseStatement: Node)
    | UnaryOp(uop: string, operand: Node)
    | While(whileCondition: Node, whileStatements: seq<Node>)
    | NoneValue

  /** `falseStatements` of an `If`: None, or a statement list. */
  datatype FalseBranch = NoFalse | FalseStatements(items: seq<Node>)

  /** `_parenthesisTypes`: the node kinds an operator wraps in parentheses. */
  predicate Parenthesised(n: Node)
  {
    n.BinaryOp? || n.TernaryOp?
  }

  /** `str` of a parameter value held by a `Constant` (ast2str.py:50-58):
      strings quoted, integers in `hex`, booleans in lower case, anything else
      through `str`. */
  function ConstantText(v: Value): string
  {
    match v
    case Str(s) => "\"" + s + "\""
    case Int(i) => Hex(i)
    case Bool(b) => if b then "true" else "false"
    case Float(text) => text
    case ScriptRef(r) => r
    case LabelRef(l) => l.name + ":"
  }

  /** The text of a node. */
  function Render(n: Node): string
    decreases n, 1
  {
    match n
    case Assignment(op, l, r) => Render(l) + " " + op + " " + Render(r)
    case BinaryOp(op, a, b) => Operand(a) + " " + op + " " + Operand(b)
    case Break => "break"
    case Cast(ty, s) => "((" + ty + ")" + Render(s) + ")"
    case Comment(text) => "/*" + text + "*/"
    case Constant(v) => ConstantText(v)
    case Continue => "continue"
    case Decl(ty, name, init) =>
      if init == NoneValue then ty + " " + name else ty + " " + name + " = " + Render(init)
    case DoWhile(c, ss) => "do{\n" + RenderStatements(n, ss) + "\n}while(" + Render(c) + ")"
    case EmptyStatement => ""
    case For(i, c, it, ss) =>
      "for(" + Render(i) + ";" + Render(c) + ";" + Render(it) + "){\n" + RenderStatements(n, ss) + "\n}"
    case FuncCall(f, args) => Render(f) + "(" + RenderDeclList(n, args) + ")"
    case FuncDef(ty, name, args, ss) =>
      ty + " " + name + "(" + RenderDeclList(n, args) + "){\n" + RenderStatements(n, ss) + "\n}"
    case Goto(l) => "goto " + l
    case ID(name) => name
    case If(c, t, f) =>
      var head := "if(" + Render(c) + ") {\n" + RenderStatements(n, t) + "\n}";
      (match f
       case NoFalse => head
       case FalseStatements(fs) =>
         if |fs| == 1 && fs[0].If? then head + " else " + Render(fs[0])
         else head + " else {\n" + RenderStatements(n, fs) + "\n}")
    case LabelStmt(name) => name + ":"
    case Return(s) => if s == NoneValue then "return" else "return " + Render(s)
    case TernaryOp(c, t, f) => Operand(c) + " ? " + Operand(t) + " : " + Operand(f)
    case UnaryOp(op, x) =>
      if op == "++" || op == "--" then Render(x) + op
      else if op == "*" then "(" + op + Render(x) + ")"
      else op + Render(x)
    case While(c, ss) => "while(" + Render(c) + "){\n" + RenderStatements(n, ss) + "\n}"
    case NoneValue => "None"
  }

  /** An operand of a binary or ternary operator: bracketed when it is
      itself one of those. */
  function Operand(x: Node): string
    decreases x, 2
  {
    if Parenthesised(x) then "(" + Render(x) + ")" else Render(x)
  }

  /** `Statements.__str__`: every statement followed by `;`, one per line.
      `parent` is the node holding the list (for termination only). */
  function RenderStatements(parent: Node, ss: seq<Node>): string
    requires forall k :: 0 <= k < |ss| ==> ss[k] < parent
    decreases parent, 0
  {
    Join(seq(|ss|, k requires 0 <= k < |ss| => Render(ss[k]) + ";"), "\n")
  }

  /** `DeclList.__str__`: the items separated by `, `. */
  function RenderDeclList(parent: Node, ds: seq<Node>): string
    requires forall k :: 0 <= k < |ds| ==> ds[k] < parent
    decreases parent, 0
  {
    Join(seq(|ds|, k requires 0 <= k < |ds| => Render(ds[k])), ", ")
  }
}
