/** The backward rebuilding of a syntax tree from structured commands
    (`ifToTernaryOp`, `getArgs`, `decompileCmd`, `decompileFunc`, `decompile`),
    written as functions of the list being walked and the cursor.  The class
    in module Decompiler runs the same walk over its fields and is proved to
    compute exactly these functions. */
module Reconstruct {
  import opened PyOps
  import opened Bytecode
  import opened Opcodes
  import opened Ast
  import opened TypeInfer
  import opened Structure

  /** What `decompileCmd` returns: None, one node, or a list of nodes. */
  datatype Decoded = Nothing | One(node: Node) | Many(nodes: seq<Node>)

  /** The variables the walk reads: the local and global variable
      expressions and the names of all scripts. */
  datatype Env = Env(localVars: seq<Node>, globalVars: seq<Node>, funcNames: seq<string>)

  /** The opcode lists `decompileCmd` dispatches on (mscdec.py:274, 276, 279, 285). */
  const BinaryOpcodes: set<int> := {0xe, 0xf, 0x10, 0x11, 0x12, 0x16, 0x17, 0x19, 0x1a, 0x1b, 0x25, 0x26, 0x27, 0x28,
                                    0x29, 0x2a, 0x3a, 0x3b, 0x3c, 0x3d, 0x46, 0x47, 0x48, 0x49, 0x4a, 0x4b}
  const AssignmentOpcodes: set<int> := {0x1c, 0x1d, 0x1e, 0x1f, 0x20, 0x21, 0x22, 0x23, 0x24, 0x41, 0x42, 0x43, 0x44, 0x45}

  /** Every dispatched opcode has an entry in its operator table, so the
      table lookups never raise. */
  lemma DispatchMatchesTables()
    ensures BinaryOpcodes == BinaryOperations.Keys
    ensures AssignmentOpcodes == AssignmentOperations.Keys
    ensures StackUnaryOpcodes + VarUnaryOpcodes == UnaryOperations.Keys
  {
    BinaryDispatch();
    AssignmentDispatch();
    UnaryDispatch();
  }

  lemma BinaryDispatch()
    ensures BinaryOpcodes == BinaryOperations.Keys
  {
  }

  lemma AssignmentDispatch()
    ensures AssignmentOpcodes == AssignmentOperations.Keys
  {
  }

  lemma UnaryDispatch()
    ensures StackUnaryOpcodes + VarUnaryOpcodes == UnaryOperations.Keys
  {
  }

  /** `filter(lambda a: a != None, l)`. */
  function NonNone(s: seq<Node>): (r: seq<Node>)
    ensures |r| <= |s|
    ensures forall x :: x in r ==> x in s && x != NoneValue
    ensures forall x :: x in s && x != NoneValue ==> x in r
  {
    if s == [] then [] else (if s[0] == NoneValue then [] else [s[0]]) + NonNone(s[1..])
  }

  lemma {:induction false} NonNoneSnoc(s: seq<Node>, x: Node)
    ensures NonNone(s + [x]) == NonNone(s) + (if x == NoneValue then [] else [x])
  {
    if s != [] {
      assert (s + [x])[1..] == s[1..] + [x];
      NonNoneSnoc(s[1..], x);
    }
  }

  function Reverse(s: seq<Node>): (r: seq<Node>)
    ensures |r| == |s| && forall k :: 0 <= k < |s| ==> r[k] == s[|s| - 1 - k]
  {
    if s == [] then [] else Reverse(s[1..]) + [s[0]]
  }

  /** The node a single result stands for; None where there is none. */
  function AsNode(d: Decoded): Node
    requires !d.Many?
  {
    if d.One? then d.node else NoneValue
  }

  // ---------------------------------------------------------------------
  // ifToTernaryOp (mscdec.py:203-216)

  const BadTernary := DecompilerError("Error: found a bad if/else ternary block")

  /** An if/else used as a value becomes `c ? t : f`; each branch must hold
      exactly one statement once the Nones are dropped, and nested ifs are
      converted too. */
  function IfToTernaryOp(n: Node): (r: Outcome<Node>)
    requires n.If?
    ensures r.Ok? ==> r.value.TernaryOp? && r.value.cond == n.ifCondition
    ensures r.Ok? ==> n.falseStatements.FalseStatements?
                      && |NonNone(n.trueStatements)| == 1 && |NonNone(n.falseStatements.items)| == 1
    ensures (n.falseStatements.NoFalse? || |NonNone(n.trueStatements)| != 1 || |NonNone(n.falseStatements.items)| != 1)
            ==> r == Raise(BadTernary)
    decreases n
  {
    if n.falseStatements.NoFalse? then Raise(BadTernary)
    else
      var ts := NonNone(n.trueStatements);
      var fs := NonNone(n.falseStatements.items);
      if |fs| != 1 || |ts| != 1 then Raise(BadTernary)
      else
        assert ts[0] in n.trueStatements && fs[0] in n.falseStatements.items;
        var t :- if ts[0].If? then IfToTernaryOp(ts[0]) else Ok(ts[0]);
        var f :- if fs[0].If? then IfToTernaryOp(fs[0]) else Ok(fs[0]);
        Ok(TernaryOp(n.ifCondition, t, f))
  }

  /** The argument fix-up of `getArgs`: every `If` argument, in order,
      becomes a ternary. */
  function Ternaries(args: seq<Node>): (r: Outcome<seq<Node>>)
    ensures r.Ok? ==> |r.value| == |args| && forall k :: 0 <= k < |args| ==> !r.value[k].If?
    ensures r.Ok? ==> forall k :: 0 <= k < |args| && !args[k].If? ==> r.value[k] == args[k]
  {
    if args == [] then Ok([])
    else
      var first :- if args[0].If? then IfToTernaryOp(args[0]) else Ok(args[0]);
      var rest :- Ternaries(args[1..]);
      Ok([first] + rest)
  }

  // ---------------------------------------------------------------------
  // Parameters

  /** The integer a parameter stands for where Python uses it as one:
      an int, or a bool (`True == 1`). */
  function IntOf(v: Value): Option<int>
  {
    match v
    case Int(i) => Some(i)
    case Bool(b) => Some(if b then 1 else 0)
    case _ => None
  }

  /** `v == 0` in Python. */
  predicate IsZero(v: Value)
  {
    v == Int(0) || v == Bool(false)
  }

  /** `vars[v]` for a list of variables and a parameter. */
  function ListIndex(s: seq<Node>, v: Value): (r: Outcome<Node>)
    ensures r.Ok? ==> r.value in s
    ensures IntOf(v).None? ==> r == Raise(TypeError)
  {
    match IntOf(v)
    case None => Raise(TypeError)
    case Some(k) =>
      match At(s, k)
      case None => Raise(IndexError)
      case Some(x) => Ok(x)
  }

  /** `localVars[p1]` when `p0 == 0`, `globalVars[p1]` otherwise. */
  function Variable(env: Env, c: Instr): Outcome<Node>
  {
    if |c.parameters| < 2 then Raise(IndexError)
    else ListIndex(if IsZero(c.parameters[0]) then env.localVars else env.globalVars, c.parameters[1])
  }

  /** The first parameter used as an argument count, plus `extra`. */
  function ArgCount(c: Instr, extra: int): Outcome<int>
  {
    if |c.parameters| == 0 then Raise(IndexError)
    else match IntOf(c.parameters[0])
         case None => Raise(TypeError)
         case Some(n) => Ok(n + extra)
  }

  /** The items whose result `getArgs` takes as an argument: those that leave
      a value on the stack. */
  predicate Pushed(x: Item)
  {
    ((x.Cmd? && x.instr.pushBit) || (x.CallGroup? && x.pushBit) || (x.IfElseBlock? && x.pushBit)) || x.CastItem?
  }

  /** The callee of a call command: a string constant names the script. */
  function Callee(n: Node): Node
  {
    if n.Constant? && n.value.Str? then ID(n.value.s) else n
  }

  /** `statements` with the non-None nodes of a result put in front. */
  function Prepend(d: Decoded, statements: seq<Node>): seq<Node>
  {
    match d
    case Nothing => statements
    case One(n) => if n == NoneValue then statements else [n] + statements
    case Many(ns) => NonNone(ns) + statements
  }

  // ---------------------------------------------------------------------
  // The backward walk.  `func` is `currentFunc`, `index` the cursor; each
  // function returns its result and where it leaves the cursor.

  /** The loop of `getArgs` (mscdec.py:224-236). */
  function ArgsLoop(env: Env, func: seq<Item>, index: int, argc: int, other: seq<Node>, args: seq<Node>)
    : (r: Outcome<(seq<Node>, seq<Node>, int)>)
    requires -1 <= index < |func|
    ensures r.Ok? ==> -1 <= r.value.2 <= index && |args| <= |r.value.1|
    ensures r.Ok? && |r.value.1| < argc ==> r.value.2 < 0
    decreases Size(func), index + 1, 0
  {
    if !(|args| < argc && index >= 0) then Ok((other, args, index))
    else
      var at := index - 1;
      match At(func, at)
      case None => Raise(IndexError)
      case Some(x) =>
        SizeOfMember(func, x);
        var d :- Decode(env, func, at, x);
        var j := d.1;
        if d.0.Many? && d.0.nodes == [] then Raise(IndexError)
        else
          var other' := if d.0.Many? then d.0.nodes[..|d.0.nodes| - 1] + other else other;
          var value := if d.0.Many? then d.0.nodes[|d.0.nodes| - 1] else AsNode(d.0);
          if Pushed(x) then ArgsLoop(env, func, j, argc, other', args + [value])
          else ArgsLoop(env, func, j, argc, other' + [value], args)
  }

  /** `getArgs(argc)`: the statements in between and the arguments, nearest
      first (mscdec.py:222-241). */
  function Args(env: Env, func: seq<Item>, index: int, argc: int): (r: Outcome<(seq<Node>, seq<Node>, int)>)
    requires -1 <= index < |func|
    ensures r.Ok? ==> -1 <= r.value.2 <= index
    ensures r.Ok? ==> NoneValue !in r.value.0
    decreases Size(func), index + 1, 1
  {
    var loop :- ArgsLoop(env, func, index, argc, [], []);
    var args :- Ternaries(loop.1);
    Ok((NonNone(loop.0), args, loop.2))
  }

  /** `decompileCmd(cmd)` for the item `cmd` of `func` (mscdec.py:245-404). */
  function Decode(env: Env, func: seq<Item>, index: int, cmd: Item): (r: Outcome<(Decoded, int)>)
    requires -1 <= index < |func| && ItemSize(cmd) <= Size(func)
    ensures r.Ok? ==> -1 <= r.value.1 <= index
    decreases Size(func), index + 1, 4
  {
    match cmd
    case Lbl(_) => Ok((Nothing, index))
    case Cmd(c) => DecodeCommand(env, func, index, c)
    case CallGroup(_, items) => DecodeCallGroup(env, func, index, items)
    case IfElseBlock(isNot, _, ifItems, elseItems) => DecodeIf(env, func, index, isNot, ifItems, elseItems)
    case WhileBlock(isDoWhile, body, isIfNot) => DecodeWhile(env, func, index, isDoWhile, body, isIfNot)
    case CastItem(ty) =>
      var a :- Args(env, func, index, 1);
      if |a.1| == 0 then Raise(IndexError) else Ok((Many(a.0 + [Cast(ty, a.1[0])]), a.2))
    case BreakItem => Ok((One(Break), index))
  }

  /** A plain command (mscdec.py:252-314). */
  function DecodeCommand(env: Env, func: seq<Item>, index: int, cmd: Instr): (r: Outcome<(Decoded, int)>)
    requires -1 <= index < |func|
    ensures r.Ok? ==> -1 <= r.value.1 <= index
    decreases Size(func), index + 1, 3
  {
    var c := cmd.command;
    if c in {0x0, 0x1, 0x2, 0x3} then Ok((Nothing, index))
    else if c in {0x4, 0x5} then Ok((Nothing, index))
    else if c in {0x6, 0x8} then
      var a :- Args(env, func, index, 1);
      if |a.1| == 0 then Raise(IndexError) else Ok((Many(a.0 + [Return(a.1[0])]), a.2))
    else if c in {0x7, 0x9} then Ok((One(Return(NoneValue)), index))
    else if c in {0xA, 0xD} then
      if |cmd.parameters| == 0 then Raise(IndexError)
      else if cmd.parameters[0].ScriptRef? then Ok((One(ID(cmd.parameters[0].ref)), index))
      else Ok((One(Constant(cmd.parameters[0])), index))
    else if c == 0xB then
      var v :- Variable(env, cmd); Ok((One(v), index))
    else if c in BinaryOpcodes || c in StackUnaryOpcodes || c in VarUnaryOpcodes || c in AssignmentOpcodes then
      DecodeOperator(env, func, index, cmd)
    else if c in {0x2c, 0x2d, 0x30, 0x31} then DecodeCall(env, func, index, cmd)
    else Ok((Nothing, index))
  }

  /** Binary, unary and assignment operators (mscdec.py:273-291): a binary
      operator's left operand is the value pushed first. */
  function DecodeOperator(env: Env, func: seq<Item>, index: int, cmd: Instr): (r: Outcome<(Decoded, int)>)
    requires -1 <= index < |func|
    requires cmd.command in BinaryOpcodes || cmd.command in StackUnaryOpcodes
             || cmd.command in VarUnaryOpcodes || cmd.command in AssignmentOpcodes
    ensures r.Ok? ==> -1 <= r.value.1 <= index
    decreases Size(func), index + 1, 2
  {
    DispatchMatchesTables();
    var c := cmd.command;
    if c in BinaryOpcodes then
      var a :- Args(env, func, index, 2);
      if |a.1| < 2 then Raise(IndexError)
      else Ok((Many(a.0 + [BinaryOp(BinaryOperations[c], a.1[1], a.1[0])]), a.2))
    else if c in StackUnaryOpcodes then
      var a :- Args(env, func, index, 1);
      if |a.1| == 0 then Raise(IndexError) else Ok((Many(a.0 + [UnaryOp(UnaryOperations[c], a.1[0])]), a.2))
    else if c in VarUnaryOpcodes then
      var v :- Variable(env, cmd); Ok((One(UnaryOp(UnaryOperations[c], v)), index))
    else
      var a :- Args(env, func, index, 1);
      var v :- Variable(env, cmd);
      if |a.1| == 0 then Raise(IndexError) else Ok((Many(a.0 + [Assignment(AssignmentOperations[c], v, a.1[0])]), a.2))
  }

  /** `printf`, `sys_%X`, `set_main` and `callFunc3` (mscdec.py:292-314). */
  function DecodeCall(env: Env, func: seq<Item>, index: int, cmd: Instr): (r: Outcome<(Decoded, int)>)
    requires -1 <= index < |func| && cmd.command in {0x2c, 0x2d, 0x30, 0x31}
    ensures r.Ok? ==> -1 <= r.value.1 <= index
    decreases Size(func), index + 1, 2
  {
    var c := cmd.command;
    if c == 0x2c then
      var n :- ArgCount(cmd, 0);
      var a :- Args(env, func, index, n);
      Ok((Many(a.0 + [FuncCall(ID("printf"), Reverse(a.1))]), a.2))
    else if c == 0x2d then
      var n :- ArgCount(cmd, 0);
      var a :- Args(env, func, index, n);
      if |cmd.parameters| < 2 then Raise(IndexError)
      else match IntOf(cmd.parameters[1])
           case None => Raise(TypeError)
           case Some(n) => Ok((Many(a.0 + [FuncCall(ID("sys_" + UpperHex(n)), Reverse(a.1))]), a.2))
    else
      var n :- ArgCount(cmd, 1);
      var a :- Args(env, func, index, n);
      if |a.1| == 0 then Raise(IndexError)
      else
        var name := if c == 0x30 then "set_main" else "callFunc3";
        Ok((Many(a.0 + [FuncCall(ID(name), [Callee(a.1[0])] + Reverse(a.1[1..]))]), a.2))
  }

  /** A function call group: its arguments are read from inside the group,
      backward from the `0x2f` call before the end label; the cursor of the
      enclosing list is left where it was (mscdec.py:315-341). */
  function DecodeCallGroup(env: Env, func: seq<Item>, index: int, items: seq<Item>): (r: Outcome<(Decoded, int)>)
    requires -1 <= index < |func| && Size(items) < Size(func)
    ensures r.Ok? ==> r.value.1 == index
    decreases Size(func), index + 1, 3
  {
    var start := |items| - 2;
    match At(items, start)
    case None => Raise(IndexError)
    case Some(call) =>
      if !call.Cmd? then Raise(AttributeError)
      else if call.instr.command != 0x2f then Raise(DecompilerError("Function improperly formatted"))
      else
        var n :- ArgCount(call.instr, 1);
        var a :- Args(env, items, start, n);
        var rest :- GroupLoop(env, items, a.2, a.0);
        if |a.1| == 0 then Raise(IndexError)
        else
          var callee := if a.1[0].ID? && a.1[0].id !in env.funcNames then UnaryOp("*", a.1[0]) else a.1[0];
          Ok((Many(rest + [FuncCall(Callee(callee), Reverse(a.1[1..]))]), index))
  }

  /** The `while index > 0` loop of a call group: every result, None
      included, goes in front (mscdec.py:324-330). */
  function GroupLoop(env: Env, items: seq<Item>, index: int, other: seq<Node>): (r: Outcome<seq<Node>>)
    requires index < |items|
    decreases Size(items), index + 1, 5
  {
    if index <= 0 then Ok(other)
    else
      SizeOfElement(items, index);
      var d :- Decode(env, items, index, items[index]);
      var other' := match d.0
                    case Many(ns) => ns + other
                    case One(n) => [n] + other
                    case Nothing => [NoneValue] + other;
      GroupLoop(env, items, d.1 - 1, other')
  }

  /** The statements of a block, from the cursor backward: the loops of
      mscdec.py:352-362, 366-376, 389-397 and 414-423. */
  function Body(env: Env, items: seq<Item>, index: int, statements: seq<Node>): (r: Outcome<seq<Node>>)
    requires index < |items|
    decreases Size(items), index + 1, 5
  {
    if index < 0 then Ok(statements)
    else
      SizeOfElement(items, index);
      var d :- Decode(env, items, index, items[index]);
      Body(env, items, d.1 - 1, Prepend(d.0, statements))
  }

  /** A whole block. */
  function Block(env: Env, items: seq<Item>): Outcome<seq<Node>>
    decreases Size(items), |items| + 1, 6
  {
    Body(env, items, |items| - 1, [])
  }

  /** An if/else block: its condition is the value before it; a negated
      branch becomes `!cond` (mscdec.py:342-381). */
  function DecodeIf(env: Env, func: seq<Item>, index: int, isNot: bool, ifItems: seq<Item>, elseItems: ElsePart)
    : (r: Outcome<(Decoded, int)>)
    requires -1 <= index < |func| && Size(ifItems) < Size(func) && (elseItems.Else? ==> Size(elseItems.items) < Size(func))
    ensures r.Ok? ==> -1 <= r.value.1 <= index
    decreases Size(func), index + 1, 3
  {
    var a :- Args(env, func, index, 1);
    if |a.1| == 0 then Raise(IndexError)
    else
      var trueStatements :- Block(env, ifItems);
      var falseStatements :- match elseItems
                             case NoElse => Ok(NoFalse)
                             case Else(e) => (var fs :- Block(env, e); Ok(FalseStatements(fs)));
      var condition := if isNot then UnaryOp("!", a.1[0]) else a.1[0];
      Ok((Many(a.0 + [If(condition, trueStatements, falseStatements)]), a.2))
  }

  /** A loop: its condition is read from the end of its body; the branch
      that jumped back when the condition held is negated unless it was an
      if-not (mscdec.py:382-402). */
  function DecodeWhile(env: Env, func: seq<Item>, index: int, isDoWhile: bool, body: seq<Item>, isIfNot: bool)
    : (r: Outcome<(Decoded, int)>)
    requires -1 <= index < |func| && Size(body) < Size(func)
    ensures r.Ok? ==> r.value.1 == index
    decreases Size(func), index + 1, 3
  {
    var a :- Args(env, body, |body| - 1, 1);
    if |a.1| == 0 then Raise(IndexError)
    else
      var statements :- Body(env, body, a.2, a.0);
      var condition := if !isIfNot then UnaryOp("!", a.1[0]) else a.1[0];
      Ok((One(if isDoWhile then DoWhile(condition, statements) else While(condition, statements)), index))
  }

  // ---------------------------------------------------------------------
  // decompile (mscdec.py:431-457)

  /** `getLocalVarTypes(func, varc)` as a value: the scan over every
      reference runs before `range(varc)` can fail. */
  function LocalTypes(cmds: seq<Item>, varc: Value, pops: Arity): (r: Outcome<(seq<string>, int)>)
    ensures r.Ok? ==> IntOf(varc) == Some(r.value.1)
    ensures r.Ok? ==> |r.value.0| == (if r.value.1 < 0 then 0 else r.value.1)
  {
    var refs :- References(cmds, |cmds|, Local, pops);
    match IntOf(varc)
    case None => Raise(TypeError)
    case Some(n) => Ok((seq(if n < 0 then 0 else n, i => SlotType(refs, Int(i))), n))
  }

  /** `arg0` .. `arg{n-1}` declared with their types. */
  function ArgDecls(types: seq<string>, n: nat): seq<Node>
    requires n <= |types|
  {
    seq(n, i requires 0 <= i < n => Decl(types[i], "arg" + Decimal(i), NoneValue))
  }

  /** `var{argc}` .. `var{argc+count-1}`; the type of each is `types[i + argc]`
      with Python's negative indexes. */
  function VarDecls(types: seq<string>, argc: int, count: nat): (r: Outcome<seq<Node>>)
    ensures r.Ok? ==> |r.value| == count
    ensures r.Ok? ==> forall i :: 0 <= i < count ==>
                        r.value[i].Decl? && r.value[i] == Decl(r.value[i].declType, "var" + Decimal(i + argc), NoneValue)
                        && At(types, i + argc) == Some(r.value[i].declType)
    ensures r.Raise? ==> r.error == IndexError
  {
    if count == 0 then Ok([])
    else
      var prev :- VarDecls(types, argc, count - 1);
      var last := count - 1;
      match At(types, last + argc)
      case None => Raise(IndexError)
      case Some(t) =>
        var decls := prev + [Decl(t, "var" + Decimal(last + argc), NoneValue)];
        assert forall i :: 0 <= i < last ==> decls[i] == prev[i];
        Ok(decls)
  }

  /** Once a type is missing, every longer list of declarations fails too. */
  lemma {:induction false} VarDeclsRaisePersists(types: seq<string>, argc: int, m: nat, count: nat)
    requires m <= count && VarDecls(types, argc, m).Raise?
    ensures VarDecls(types, argc, count).Raise?
    decreases count
  {
    if m < count {
      VarDeclsRaisePersists(types, argc, m, count - 1);
      var prev := VarDecls(types, argc, count - 1);
      assert VarDecls(types, argc, count) == Raise(prev.error);
    }
  }

  /** The names the body refers to local slots by: the parameters, then the
      declared locals. */
  function LocalNames(argc: nat, decls: seq<Node>): seq<Node>
    requires forall k :: 0 <= k < |decls| ==> decls[k].Decl?
  {
    seq(argc, i => ID("arg" + Decimal(i))) + seq(|decls|, k requires 0 <= k < |decls| => ID(decls[k].name))
  }

  lemma ArgDeclsSnoc(types: seq<string>, n: nat)
    requires n < |types|
    ensures ArgDecls(types, n + 1) == ArgDecls(types, n) + [Decl(types[n], "arg" + Decimal(n), NoneValue)]
  {
  }

  lemma LocalNamesSnoc(n: nat, decls: seq<Node>, d: Node)
    requires forall k :: 0 <= k < |decls| ==> decls[k].Decl?
    requires d.Decl?
    ensures LocalNames(n, decls + [d]) == LocalNames(n, decls) + [ID(d.name)]
  {
  }

  lemma LocalNamesArg(n: nat)
    ensures LocalNames(n + 1, []) == LocalNames(n, []) + [ID("arg" + Decimal(n))]
  {
  }

  /** The structured body of a script decompiled. */
  function Walk(env: Env, cmds: seq<Item>, fuel: nat, pops: Arity): Outcome<seq<Node>>
  {
    var loops :- Loops(cmds, fuel, pops);
    var items :- Groups(loops, fuel, pops);
    Block(env, items)
  }

  function NotABegin(name: string): PyError
  {
    DecompilerError("Script " + name + " doesn't start with a begin")
  }

  /** The `try` block of `decompile`: the parameters declared before it
      stopped, and the statements or the exception raised. */
  function ScriptStatements(globalVars: seq<Node>, funcNames: seq<string>, name: string, cmds: seq<Item>,
                            fuel: nat, pops: Arity): (r: (seq<Node>, Outcome<seq<Node>>))
  {
    if cmds == [] then ([], Raise(IndexError))
    else if !cmds[0].Cmd? then ([], Raise(AttributeError))
    else if cmds[0].instr.command != 0x2 then ([], Raise(NotABegin(name)))
    else if |cmds[0].instr.parameters| < 2 then ([], Raise(IndexError))
    else
      match LocalTypes(cmds, cmds[0].instr.parameters[1], pops)
      case Raise(e) => ([], Raise(e))
      case Ok((types, varc)) =>
        match IntOf(cmds[0].instr.parameters[0])
        case None => ([], Raise(TypeError))
        case Some(argc) => Declared(globalVars, funcNames, types, argc, varc, cmds, fuel, pops)
  }

  /** The rest of the `try` block once the begin command's counts are read:
      the declarations, then the body. */
  function Declared(globalVars: seq<Node>, funcNames: seq<string>, types: seq<string>, argc: int, varc: int,
                    cmds: seq<Item>, fuel: nat, pops: Arity): (r: (seq<Node>, Outcome<seq<Node>>))
  {
    var n: nat := if argc < 0 then 0 else argc;
    if n > |types| then (ArgDecls(types, |types|), Raise(IndexError))
    else
      match VarDecls(types, argc, if varc - argc < 0 then 0 else varc - argc)
      case Raise(e) => (ArgDecls(types, n), Raise(e))
      case Ok(decls) =>
        var env := Env(LocalNames(n, decls), globalVars, funcNames);
        (ArgDecls(types, n), match Walk(env, cmds, fuel, pops)
                             case Raise(e) => Raise(e)
                             case Ok(body) => Ok(decls + body))
  }

  const ErrorBanner := "Error occurred while decompiling:\n"

  /** `decompile(func, funcNum)`: the script's definition; an exception in
      the body becomes a single comment.  Only the return-type lookup, which
      is outside the `try`, and a walk that would not end have no result. */
  function DecompileScript(globalVars: seq<Node>, funcNames: seq<string>, funcTypes: seq<string>, funcNum: int,
                           name: string, cmds: seq<Item>, fuel: nat, pops: Arity): Outcome<Node>
  {
    match At(funcTypes, funcNum)
    case None => Raise(IndexError)
    case Some(ty) =>
      var (params, body) := ScriptStatements(globalVars, funcNames, name, cmds, fuel, pops);
      if body.Raise? && body.error == Diverged then Raise(Diverged)
      else Ok(FuncDef(ty, name, params, if body.Ok? then body.value else [Comment(ErrorBanner + ErrorText(body.error))]))
  }
}
