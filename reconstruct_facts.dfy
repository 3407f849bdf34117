/** What the backward walk of module Reconstruct guarantees: operand order,
    the ternary conversion of nested if/else values, how call targets are
    named, where declarations go and what the loop conditions are read
    from. */
module ReconstructFacts {
  import opened PyOps
  import opened Bytecode
  import opened Opcodes
  import opened Ast
  import opened TypeInfer
  import opened Reconstruct

  /** An item that pushes a constant: `0xA` with its push bit set. */
  predicate PushedConstant(x: Item)
  {
    x.Cmd? && x.instr.command == 0xA && x.instr.pushBit
    && |x.instr.parameters| >= 1 && !x.instr.parameters[0].ScriptRef?
  }

  function ConstantOf(x: Item): Node
    requires PushedConstant(x)
  {
    Constant(x.instr.parameters[0])
  }

  /** A constant push decodes to its constant without consuming anything. */
  lemma DecodePushedConstant(env: Env, func: seq<Item>, index: int)
    requires 0 <= index < |func| && PushedConstant(func[index])
    ensures Decode(env, func, index, func[index]) == Ok((One(ConstantOf(func[index])), index))
  {
  }

  /** Arguments without an if/else are left as they are. */
  lemma {:induction false} TernariesOfPlain(args: seq<Node>)
    requires forall k :: 0 <= k < |args| ==> !args[k].If?
    ensures Ternaries(args) == Ok(args)
  {
    if args != [] {
      TernariesOfPlain(args[1..]);
      assert [args[0]] + args[1..] == args;
    }
  }

  /** Two constant pushes in a row are read as two arguments, the later one
      first, with nothing in between. */
  lemma ArgsLoopOfTwoPushes(env: Env, func: seq<Item>, index: int)
    requires 2 <= index < |func|
    requires PushedConstant(func[index - 2]) && PushedConstant(func[index - 1])
    ensures ArgsLoop(env, func, index, 2, [], [])
            == Ok(([], [ConstantOf(func[index - 1]), ConstantOf(func[index - 2])], index - 2))
  {
    var earlier := ConstantOf(func[index - 2]);
    var later := ConstantOf(func[index - 1]);
    DecodePushedConstant(env, func, index - 1);
    DecodePushedConstant(env, func, index - 2);
    assert [] + [later] == [later] && [later] + [earlier] == [later, earlier];
    assert At(func, index - 1) == Some(func[index - 1]) && At(func, index - 2) == Some(func[index - 2]);
    assert ArgsLoop(env, func, index - 2, 2, [], [later, earlier]) == Ok(([], [later, earlier], index - 2));
    assert ArgsLoop(env, func, index - 1, 2, [], [later]) == Ok(([], [later, earlier], index - 2));
  }

  lemma ArgsOfTwoPushes(env: Env, func: seq<Item>, index: int)
    requires 2 <= index < |func|
    requires PushedConstant(func[index - 2]) && PushedConstant(func[index - 1])
    ensures Args(env, func, index, 2)
            == Ok(([], [ConstantOf(func[index - 1]), ConstantOf(func[index - 2])], index - 2))
  {
    ArgsLoopOfTwoPushes(env, func, index);
    TernariesOfPlain([ConstantOf(func[index - 1]), ConstantOf(func[index - 2])]);
    assert NonNone([]) == [];
  }

  lemma BinaryCommandIsOperator(env: Env, func: seq<Item>, index: int, c: Instr)
    requires -1 <= index < |func| && c.command in BinaryOpcodes
    ensures DecodeCommand(env, func, index, c) == DecodeOperator(env, func, index, c)
  {
    assert c.command !in {0x0, 0x1, 0x2, 0x3, 0x4, 0x5, 0x6, 0x7, 0x8, 0x9, 0xA, 0xB, 0xD};
  }

  /** Item `i` of `func` decodes to `d`, leaving the cursor at `j`. */
  predicate DecodesTo(env: Env, func: seq<Item>, i: int, d: Decoded, j: int)
  {
    if 0 <= i < |func| then
      SizeOfMember(func, func[i]);
      Decode(env, func, i, func[i]) == Ok((d, j))
    else false
  }

  /** A binary operator takes the two values pushed before it, whatever
      items computed them, and the one pushed first is its left operand. */
  lemma BinaryOperandOrder(env: Env, func: seq<Item>, index: int, c: Instr, x: Node, y: Node, j: int, k: int)
    requires 0 <= index < |func| && c.command in BinaryOpcodes
    requires 1 <= index && Pushed(func[index - 1]) && DecodesTo(env, func, index - 1, One(y), j)
    requires 1 <= j && Pushed(func[j - 1]) && DecodesTo(env, func, j - 1, One(x), k)
    requires !x.If? && !y.If?
    ensures DecodeCommand(env, func, index, c) == Ok((Many([BinaryOp(BinaryOperations[c.command], x, y)]), k))
  {
    assert At(func, index - 1) == Some(func[index - 1]) && At(func, j - 1) == Some(func[j - 1]);
    assert [] + [y] == [y] && [y] + [x] == [y, x];
    assert ArgsLoop(env, func, k, 2, [], [y, x]) == Ok(([], [y, x], k));
    assert ArgsLoop(env, func, j, 2, [], [y]) == Ok(([], [y, x], k));
    assert ArgsLoop(env, func, index, 2, [], []) == Ok(([], [y, x], k));
    TernariesOfPlain([y, x]);
    assert NonNone([]) == [];
    BinaryCommandIsOperator(env, func, index, c);
    var op := BinaryOp(BinaryOperations[c.command], x, y);
    assert [] + [op] == [op];
  }

  /** For two constant pushes in a row: `a b +` is `a + b`. */
  lemma BinaryOfConstants(env: Env, func: seq<Item>, index: int, c: Instr)
    requires 2 <= index < |func| && c.command in BinaryOpcodes
    requires PushedConstant(func[index - 2]) && PushedConstant(func[index - 1])
    ensures DecodeCommand(env, func, index, c)
            == Ok((Many([BinaryOp(BinaryOperations[c.command], ConstantOf(func[index - 2]), ConstantOf(func[index - 1]))]),
                   index - 2))
  {
    DecodePushedConstant(env, func, index - 1);
    DecodePushedConstant(env, func, index - 2);
    BinaryOperandOrder(env, func, index, c, ConstantOf(func[index - 2]), ConstantOf(func[index - 1]), index - 1, index - 2);
  }

  lemma NonNoneSingle(x: Node)
    requires x != NoneValue
    ensures NonNone([x]) == [x]
  {
    assert [x][1..] == [];
  }

  /** An else-if chain used as a value becomes a nested ternary, the inner
      if/else in the false position. */
  lemma ElseIfBecomesNestedTernary(c1: Node, t1: Node, c2: Node, t2: Node, f2: Node)
    requires !t1.If? && !t2.If? && !f2.If?
    requires t1 != NoneValue && t2 != NoneValue && f2 != NoneValue
    ensures IfToTernaryOp(If(c1, [t1], FalseStatements([If(c2, [t2], FalseStatements([f2]))])))
            == Ok(TernaryOp(c1, t1, TernaryOp(c2, t2, f2)))
  {
    var inner := If(c2, [t2], FalseStatements([f2]));
    NonNoneSingle(t1);
    NonNoneSingle(t2);
    NonNoneSingle(f2);
    NonNoneSingle(inner);
    assert IfToTernaryOp(inner) == Ok(TernaryOp(c2, t2, f2));
  }

  /** A value that names a script: a string constant, or a script reference
      (`ID(name)`). */
  predicate CallTarget(v: Value)
  {
    v.Str? || v.ScriptRef?
  }

  lemma ArgsOfTargetPush(env: Env, items: seq<Item>, push: Instr, target: Node)
    requires |items| >= 2 && items[0] == Cmd(push)
    requires push.command == 0xA && push.pushBit && |push.parameters| == 1 && CallTarget(push.parameters[0])
    requires target == if push.parameters[0].Str? then Constant(push.parameters[0]) else ID(push.parameters[0].ref)
    ensures Args(env, items, 1, 1) == Ok(([], [target], 0))
  {
    assert Decode(env, items, 0, items[0]) == Ok((One(target), 0));
    assert [] + [target] == [target];
    assert ArgsLoop(env, items, 0, 1, [], [target]) == Ok(([], [target], 0));
    assert ArgsLoop(env, items, 1, 1, [], []) == Ok(([], [target], 0));
    TernariesOfPlain([target]);
    assert NonNone([]) == [];
  }

  /** The call a group of one target push, the `0x2f` call and the end label
      becomes: a string names the script directly, a known script reference
      is called by name, and any other reference is dereferenced and
      called, `(*name)()`. */
  lemma CallTargetNaming(env: Env, func: seq<Item>, index: int, items: seq<Item>, push: Instr, call: Instr, end: Label)
    requires -1 <= index < |func| && Size(items) < Size(func)
    requires items == [Cmd(push), Cmd(call), Lbl(end)]
    requires push.command == 0xA && push.pushBit && |push.parameters| == 1 && CallTarget(push.parameters[0])
    requires call.command == 0x2f && call.parameters == [Int(0)]
    ensures var v := push.parameters[0];
            var callee := if v.Str? then ID(v.s) else if v.ref in env.funcNames then ID(v.ref) else UnaryOp("*", ID(v.ref));
            DecodeCallGroup(env, func, index, items) == Ok((Many([FuncCall(callee, [])]), index))
  {
    var v := push.parameters[0];
    var target := if v.Str? then Constant(v) else ID(v.ref);
    ArgsOfTargetPush(env, items, push, target);
    assert GroupLoop(env, items, 0, []) == Ok([]);
    assert [target][1..] == [] && Reverse([]) == [];
    assert At(items, 1) == Some(Cmd(call)) && ArgCount(call, 1) == Ok(1);
    var callee := if target.ID? && target.id !in env.funcNames then UnaryOp("*", target) else target;
    var f := FuncCall(Callee(callee), []);
    assert [] + [f] == [f];
  }

  /** A loop takes its condition from the item before the last of its
      commands, and its body walk begins at that same item. */
  lemma LoopConditionSource(env: Env, func: seq<Item>, index: int, isDoWhile: bool, body: seq<Item>, isIfNot: bool)
    requires -1 <= index < |func| && Size(body) < Size(func)
    requires |body| >= 2 && PushedConstant(body[|body| - 2])
    ensures var c := ConstantOf(body[|body| - 2]);
            var condition := if isIfNot then c else UnaryOp("!", c);
            var r := DecodeWhile(env, func, index, isDoWhile, body, isIfNot);
            var walk := Body(env, body, |body| - 2, []);
            (r.Ok? <==> walk.Ok?)
            && (r.Ok? ==> r.value == (One(if isDoWhile then DoWhile(condition, walk.value) else While(condition, walk.value)), index))
  {
    var k := |body| - 2;
    var c := ConstantOf(body[k]);
    DecodePushedConstant(env, body, k);
    assert [] + [c] == [c];
    assert ArgsLoop(env, body, k, 1, [], [c]) == Ok(([], [c], k));
    assert ArgsLoop(env, body, k + 1, 1, [], []) == Ok(([], [c], k));
    TernariesOfPlain([c]);
    assert NonNone([]) == [];
    assert Args(env, body, k + 1, 1) == Ok(([], [c], k));
  }

  /** The statements of a block never hold `None`: every result is filtered
      before it is put in front. */
  lemma {:induction false} BodyHasNoNone(env: Env, items: seq<Item>, index: int, statements: seq<Node>)
    requires index < |items| && NoneValue !in statements
    ensures Body(env, items, index, statements).Ok? ==> NoneValue !in Body(env, items, index, statements).value
    decreases index + 1
  {
    if index >= 0 {
      SizeOfElement(items, index);
      var d := Decode(env, items, index, items[index]);
      if d.Ok? {
        var s := Prepend(d.value.0, statements);
        assert NoneValue !in s;
        BodyHasNoNone(env, items, d.value.1 - 1, s);
      }
    }
  }

  /** A decompiled script declares `arg0 .. arg{argc-1}` as its parameters
      and begins its body with `var{argc} .. var{varc-1}`, each typed by the
      inferred type of its slot. */
  lemma DeclarationsFirst(globalVars: seq<Node>, funcNames: seq<string>, name: string, cmds: seq<Item>,
                          fuel: nat, pops: Arity, argc: int, varc: int)
    requires cmds != [] && cmds[0].Cmd? && cmds[0].instr.command == 0x2
    requires |cmds[0].instr.parameters| >= 2
    requires cmds[0].instr.parameters[0] == Int(argc) && cmds[0].instr.parameters[1] == Int(varc)
    requires 0 <= argc
    requires ScriptStatements(globalVars, funcNames, name, cmds, fuel, pops).1.Ok?
    ensures var (params, body) := ScriptStatements(globalVars, funcNames, name, cmds, fuel, pops);
            var refs := References(cmds, |cmds|, Local, pops).value;
            References(cmds, |cmds|, Local, pops).Ok?
            && |params| == argc
            && (forall i :: 0 <= i < argc ==> params[i] == Decl(SlotType(refs, Int(i)), "arg" + Decimal(i), NoneValue))
            && |body.value| >= Locals(argc, varc)
            && (forall i :: 0 <= i < Locals(argc, varc) ==>
                  body.value[i] == Decl(SlotType(refs, Int(argc + i)), "var" + Decimal(i + argc), NoneValue))
  {
    var lt := LocalTypes(cmds, Int(varc), pops);
    var types := lt.value.0;
    assert Declared(globalVars, funcNames, types, argc, varc, cmds, fuel, pops)
           == ScriptStatements(globalVars, funcNames, name, cmds, fuel, pops);
    var decls := VarDecls(types, argc, Locals(argc, varc));
    assert decls.Ok?;
  }

  /** How many locals follow the parameters: `varc - argc`, none when that
      is negative (`range` of a negative count). */
  function Locals(argc: int, varc: int): nat
  {
    if varc - argc < 0 then 0 else varc - argc
  }

  /** An exception in the `try` block of `decompile`, other than a walk
      that would not end, leaves the definition with the parameters declared
      so far and one comment holding the error (mscdec.py:430-457). */
  lemma ErrorBecomesComment(globalVars: seq<Node>, funcNames: seq<string>, funcTypes: seq<string>, funcNum: int,
                            name: string, cmds: seq<Item>, fuel: nat, pops: Arity)
    requires At(funcTypes, funcNum).Some?
    requires var body := ScriptStatements(globalVars, funcNames, name, cmds, fuel, pops).1;
      body.Raise? && body.error != Diverged
    ensures var (params, body) := ScriptStatements(globalVars, funcNames, name, cmds, fuel, pops);
      DecompileScript(globalVars, funcNames, funcTypes, funcNum, name, cmds, fuel, pops)
      == Ok(FuncDef(At(funcTypes, funcNum).value, name, params, [Comment(ErrorBanner + ErrorText(body.error))]))
  {
  }

  /** Without an exception the definition holds the declarations and the
      body. */
  lemma BodyBecomesDefinition(globalVars: seq<Node>, funcNames: seq<string>, funcTypes: seq<string>, funcNum: int,
                              name: string, cmds: seq<Item>, fuel: nat, pops: Arity)
    requires At(funcTypes, funcNum).Some?
    requires ScriptStatements(globalVars, funcNames, name, cmds, fuel, pops).1.Ok?
    ensures var (params, body) := ScriptStatements(globalVars, funcNames, name, cmds, fuel, pops);
      DecompileScript(globalVars, funcNames, funcTypes, funcNum, name, cmds, fuel, pops)
      == Ok(FuncDef(At(funcTypes, funcNum).value, name, params, body.value))
  {
  }

  /** A script that does not start with a begin command has no parameters
      and just the comment naming it (mscdec.py:433-435). */
  lemma MissingBeginComment(globalVars: seq<Node>, funcNames: seq<string>, funcTypes: seq<string>, funcNum: int,
                            name: string, cmds: seq<Item>, fuel: nat, pops: Arity)
    requires At(funcTypes, funcNum).Some?
    requires cmds != [] && cmds[0].Cmd? && cmds[0].instr.command != 0x2
    ensures DecompileScript(globalVars, funcNames, funcTypes, funcNum, name, cmds, fuel, pops)
      == Ok(FuncDef(At(funcTypes, funcNum).value, name, [],
                    [Comment(ErrorBanner + ErrorText(DecompilerError("Script " + name + " doesn't start with a begin")))]))
  {
    ErrorBecomesComment(globalVars, funcNames, funcTypes, funcNum, name, cmds, fuel, pops);
  }
}
