/** The decompiler's walk as the source runs it: a cursor `index` moving
    backward over `currentFunc`, both saved and restored around every nested
    block, and `localVars` set up once per script.  Every method is proved to
    compute the function of module Reconstruct that describes it. */
module Decompiler {
  import opened PyOps
  import opened Bytecode
  import opened Ast
  import opened Opcodes
  import opened Reconstruct
  import Structure
  import TypeInfer

  class Decompiler {
    /** The list being walked and the cursor into it. */
    var currentFunc: seq<Item>
    var index: int
    /** The expressions local slots stand for in the current script. */
    var localVars: seq<Node>
    const globalVars: seq<Node>
    const funcNames: seq<string>
    const funcTypes: seq<string>
    /** Stand-ins for what the model cannot run: the bound on the structuring
        passes and the operand counts of the opcodes. */
    const fuel: nat
    const pops: Arity

    constructor (globalVars: seq<Node>, funcNames: seq<string>, funcTypes: seq<string>, fuel: nat, pops: Arity)
      ensures this.globalVars == globalVars && this.funcNames == funcNames && this.funcTypes == funcTypes
      ensures this.fuel == fuel && this.pops == pops
      ensures currentFunc == [] && index == -1 && localVars == []
    {
      this.globalVars := globalVars;
      this.funcNames := funcNames;
      this.funcTypes := funcTypes;
      this.fuel := fuel;
      this.pops := pops;
      currentFunc := [];
      index := -1;
      localVars := [];
    }

    /** The variables the walk reads. */
    function Vars(): Env
      reads this
    {
      Env(localVars, globalVars, funcNames)
    }

    /** A result and the cursor agree with the specification `s`, and on
        success the list being walked is `func` again. */
    predicate Follows<T(==)>(r: Outcome<T>, s: Outcome<(T, int)>, func: seq<Item>)
      reads this
    {
      (r.Ok? <==> s.Ok?)
      && (r.Raise? ==> r.error == s.error)
      && (r.Ok? ==> r.value == s.value.0 && index == s.value.1 && currentFunc == func)
    }

    /** `getArgs(argc)`. */
    method GetArgs(argc: int) returns (r: Outcome<(seq<Node>, seq<Node>)>)
      requires -1 <= index < |currentFunc|
      modifies this
      ensures localVars == old(localVars)
      ensures var s := Args(old(Vars()), old(currentFunc), old(index), argc);
              Follows(r, if s.Ok? then Ok(((s.value.0, s.value.1), s.value.2)) else Raise(s.error), old(currentFunc))
      decreases Size(currentFunc), index + 1, 1
    {
      var loop := CollectArgs(argc);
      if loop.Raise? {
        return Raise(loop.error);
      }
      var ternaries := ConvertTernaries(loop.value.1);
      if ternaries.Raise? {
        return Raise(ternaries.error);
      }
      return Ok((NonNone(loop.value.0), ternaries.value));
    }

    /** The `while len(args) < argc and index >= 0` loop of `getArgs`:
        values that the command pushes are arguments, the others go to
        `other`. */
    method CollectArgs(argc: int) returns (r: Outcome<(seq<Node>, seq<Node>)>)
      requires -1 <= index < |currentFunc|
      modifies this
      ensures localVars == old(localVars)
      ensures var s := ArgsLoop(old(Vars()), old(currentFunc), old(index), argc, [], []);
              Follows(r, if s.Ok? then Ok(((s.value.0, s.value.1), s.value.2)) else Raise(s.error), old(currentFunc))
      decreases Size(currentFunc), index + 1, 0
    {
      ghost var e := Vars();
      ghost var func := currentFunc;
      var other: seq<Node> := [];
      var args: seq<Node> := [];
      while |args| < argc && index >= 0
        invariant -1 <= index < |currentFunc| && currentFunc == func && Vars() == e
        invariant ArgsLoop(e, func, index, argc, other, args) == ArgsLoop(e, func, old(index), argc, [], [])
        decreases index + 1
      {
        index := index - 1;
        var cmd := At(currentFunc, index);
        if cmd.None? {
          return Raise(IndexError);
        }
        SizeOfMember(currentFunc, cmd.value);
        var d := DecompileCmd(cmd.value);
        if d.Raise? {
          return Raise(d.error);
        }
        var value: Node;
        if d.value.Many? {
          if d.value.nodes == [] {
            return Raise(IndexError);
          }
          other := d.value.nodes[..|d.value.nodes| - 1] + other;
          value := d.value.nodes[|d.value.nodes| - 1];
        } else {
          value := AsNode(d.value);
        }
        if Pushed(cmd.value) {
          args := args + [value];
        } else {
          other := other + [value];
        }
      }
      return Ok((other, args));
    }

    /** The `for i in range(len(args))` loop of `getArgs`. */
    static method ConvertTernaries(args: seq<Node>) returns (r: Outcome<seq<Node>>)
      ensures r == Ternaries(args)
    {
      var converted: seq<Node> := [];
      var i := 0;
      assert args[i..] == args;
      assert Ternaries(args).Ok? ==> [] + Ternaries(args).value == Ternaries(args).value;
      while i < |args|
        invariant 0 <= i <= |args|
        invariant Ternaries(args) == AfterPrefix(converted, Ternaries(args[i..]))
      {
        assert args[i..][1..] == args[i + 1..];
        if args[i].If? {
          var t := IfToTernaryOp(args[i]);
          if t.Raise? {
            return Raise(t.error);
          }
          ghost var tail := Ternaries(args[i + 1..]);
          assert tail.Ok? ==> (converted + [t.value]) + tail.value == converted + ([t.value] + tail.value);
          converted := converted + [t.value];
        } else {
          ghost var tail := Ternaries(args[i + 1..]);
          assert tail.Ok? ==> (converted + [args[i]]) + tail.value == converted + ([args[i]] + tail.value);
          converted := converted + [args[i]];
        }
        i := i + 1;
      }
      assert args[i..] == [];
      assert converted + [] == converted;
      return Ok(converted);
    }

    /** `for i in d[::-1]: if i != None: statements.insert(0, i)`, and the
        single-node case beside it. */
    static method PrependResult(d: Decoded, statements: seq<Node>) returns (r: seq<Node>)
      ensures r == Prepend(d, statements)
    {
      r := statements;
      match d {
        case Nothing =>
        case One(n) =>
          if n != NoneValue {
            r := [n] + r;
          }
        case Many(ns) =>
          var i := |ns|;
          assert ns[..i] == ns;
          while i > 0
            invariant 0 <= i <= |ns|
            invariant NonNone(ns[..i]) + r == NonNone(ns) + statements
          {
            i := i - 1;
            NonNoneSnoc(ns[..i], ns[i]);
            assert ns[..i + 1] == ns[..i] + [ns[i]];
            if ns[i] != NoneValue {
              r := [ns[i]] + r;
            }
          }
          assert ns[..0] == [];
      }
    }

    /** The `while index >= 0` loop that decompiles a block into `statements`. */
    method RunBody(statements: seq<Node>) returns (r: Outcome<seq<Node>>)
      requires index < |currentFunc|
      modifies this
      ensures localVars == old(localVars)
      ensures r == Body(old(Vars()), old(currentFunc), old(index), statements)
      ensures r.Ok? ==> currentFunc == old(currentFunc)
      decreases Size(currentFunc), index + 1, 5
    {
      ghost var e := Vars();
      ghost var func := currentFunc;
      var s := statements;
      while index >= 0
        invariant index < |currentFunc| && currentFunc == func && Vars() == e
        invariant Body(e, func, index, s) == Body(e, func, old(index), statements)
        decreases index + 1
      {
        SizeOfElement(currentFunc, index);
        var d := DecompileCmd(currentFunc[index]);
        if d.Raise? {
          return Raise(d.error);
        }
        s := PrependResult(d.value, s);
        index := index - 1;
      }
      return Ok(s);
    }

    /** The `while index > 0` loop of a call group: every result, None
        included, goes in front of `other`. */
    method RunGroup(other: seq<Node>) returns (r: Outcome<seq<Node>>)
      requires index < |currentFunc|
      modifies this
      ensures localVars == old(localVars)
      ensures r == GroupLoop(old(Vars()), old(currentFunc), old(index), other)
      ensures r.Ok? ==> currentFunc == old(currentFunc)
      decreases Size(currentFunc), index + 1, 5
    {
      ghost var e := Vars();
      ghost var func := currentFunc;
      var s := other;
      while index > 0
        invariant index < |currentFunc| && currentFunc == func && Vars() == e
        invariant GroupLoop(e, func, index, s) == GroupLoop(e, func, old(index), other)
        decreases index
      {
        SizeOfElement(currentFunc, index);
        var d := DecompileCmd(currentFunc[index]);
        if d.Raise? {
          return Raise(d.error);
        }
        match d.value {
          case Many(ns) => s := ns + s;
          case One(x) => s := [x] + s;
          case Nothing => s := [NoneValue] + s;
        }
        index := index - 1;
      }
      return Ok(s);
    }

    /** `decompileCmd(cmd)`. */
    method DecompileCmd(cmd: Item) returns (r: Outcome<Decoded>)
      requires -1 <= index < |currentFunc| && ItemSize(cmd) <= Size(currentFunc)
      modifies this
      ensures localVars == old(localVars)
      ensures Follows(r, Decode(old(Vars()), old(currentFunc), old(index), cmd), old(currentFunc))
      decreases Size(currentFunc), index + 1, 4
    {
      match cmd {
        case Lbl(_) => return Ok(Nothing);
        case Cmd(c) => r := DecompileCommand(c);
        case CallGroup(_, items) => r := DecompileCallGroup(items);
        case IfElseBlock(isNot, _, ifItems, elseItems) => r := DecompileIf(isNot, ifItems, elseItems);
        case WhileBlock(isDoWhile, body, isIfNot) => r := DecompileWhile(isDoWhile, body, isIfNot);
        case CastItem(ty) =>
          var a := GetArgs(1);
          if a.Raise? {
            return Raise(a.error);
          }
          if |a.value.1| == 0 {
            return Raise(IndexError);
          }
          return Ok(Many(a.value.0 + [Cast(ty, a.value.1[0])]));
        case BreakItem => return Ok(One(Break));
      }
    }

    /** A plain command. */
    method DecompileCommand(cmd: Instr) returns (r: Outcome<Decoded>)
      requires -1 <= index < |currentFunc|
      modifies this
      ensures localVars == old(localVars)
      ensures Follows(r, DecodeCommand(old(Vars()), old(currentFunc), old(index), cmd), old(currentFunc))
      decreases Size(currentFunc), index + 1, 3
    {
      var c := cmd.command;
      if c in {0x0, 0x1, 0x2, 0x3} || c in {0x4, 0x5} {
        return Ok(Nothing);
      } else if c in {0x6, 0x8} {
        var a := GetArgs(1);
        if a.Raise? {
          return Raise(a.error);
        }
        if |a.value.1| == 0 {
          return Raise(IndexError);
        }
        return Ok(Many(a.value.0 + [Return(a.value.1[0])]));
      } else if c in {0x7, 0x9} {
        return Ok(One(Return(NoneValue)));
      } else if c in {0xA, 0xD} {
        if |cmd.parameters| == 0 {
          return Raise(IndexError);
        }
        if cmd.parameters[0].ScriptRef? {
          return Ok(One(ID(cmd.parameters[0].ref)));
        }
        return Ok(One(Constant(cmd.parameters[0])));
      } else if c == 0xB {
        var v :- Variable(Vars(), cmd);
        return Ok(One(v));
      } else if c in BinaryOpcodes || c in StackUnaryOpcodes || c in VarUnaryOpcodes || c in AssignmentOpcodes {
        r := DecompileOperator(cmd);
      } else if c in {0x2c, 0x2d, 0x30, 0x31} {
        r := DecompileCall(cmd);
      } else {
        return Ok(Nothing);
      }
    }

    /** Binary, unary and assignment operators. */
    method DecompileOperator(cmd: Instr) returns (r: Outcome<Decoded>)
      requires -1 <= index < |currentFunc|
      requires cmd.command in BinaryOpcodes || cmd.command in StackUnaryOpcodes
               || cmd.command in VarUnaryOpcodes || cmd.command in AssignmentOpcodes
      modifies this
      ensures localVars == old(localVars)
      ensures Follows(r, DecodeOperator(old(Vars()), old(currentFunc), old(index), cmd), old(currentFunc))
      decreases Size(currentFunc), index + 1, 2
    {
      var c := cmd.command;
      DispatchMatchesTables();
      if c in BinaryOpcodes {
        var a := GetArgs(2);
        if a.Raise? {
          return Raise(a.error);
        }
        if |a.value.1| < 2 {
          return Raise(IndexError);
        }
        return Ok(Many(a.value.0 + [BinaryOp(BinaryOperations[c], a.value.1[1], a.value.1[0])]));
      } else if c in StackUnaryOpcodes {
        var a := GetArgs(1);
        if a.Raise? {
          return Raise(a.error);
        }
        if |a.value.1| == 0 {
          return Raise(IndexError);
        }
        return Ok(Many(a.value.0 + [UnaryOp(UnaryOperations[c], a.value.1[0])]));
      } else if c in VarUnaryOpcodes {
        var v :- Variable(Vars(), cmd);
        return Ok(One(UnaryOp(UnaryOperations[c], v)));
      } else {
        var a := GetArgs(1);
        if a.Raise? {
          return Raise(a.error);
        }
        var v :- Variable(Vars(), cmd);
        if |a.value.1| == 0 {
          return Raise(IndexError);
        }
        return Ok(Many(a.value.0 + [Assignment(AssignmentOperations[c], v, a.value.1[0])]));
      }
    }

    /** `printf`, system calls, `set_main` and `callFunc3`. */
    method DecompileCall(cmd: Instr) returns (r: Outcome<Decoded>)
      requires -1 <= index < |currentFunc| && cmd.command in {0x2c, 0x2d, 0x30, 0x31}
      modifies this
      ensures localVars == old(localVars)
      ensures Follows(r, DecodeCall(old(Vars()), old(currentFunc), old(index), cmd), old(currentFunc))
      decreases Size(currentFunc), index + 1, 2
    {
      var c := cmd.command;
      var n :- ArgCount(cmd, if c in {0x2c, 0x2d} then 0 else 1);
      var a := GetArgs(n);
      if a.Raise? {
        return Raise(a.error);
      }
      var other := a.value.0;
      var args := a.value.1;
      if c == 0x2c {
        return Ok(Many(other + [FuncCall(ID("printf"), Reverse(args))]));
      } else if c == 0x2d {
        if |cmd.parameters| < 2 {
          return Raise(IndexError);
        }
        var id := IntOf(cmd.parameters[1]);
        if id.None? {
          return Raise(TypeError);
        }
        return Ok(Many(other + [FuncCall(ID("sys_" + UpperHex(id.value)), Reverse(args))]));
      } else {
        if |args| == 0 {
          return Raise(IndexError);
        }
        var first := args[0];
        if first.Constant? && first.value.Str? {
          first := ID(first.value.s);
        }
        var name := if c == 0x30 then "set_main" else "callFunc3";
        return Ok(Many(other + [FuncCall(ID(name), [first] + Reverse(args[1..]))]));
      }
    }

    /** A function call group, walked with its own cursor. */
    method DecompileCallGroup(items: seq<Item>) returns (r: Outcome<Decoded>)
      requires -1 <= index < |currentFunc| && Size(items) < Size(currentFunc)
      modifies this
      ensures localVars == old(localVars)
      ensures Follows(r, DecodeCallGroup(old(Vars()), old(currentFunc), old(index), items), old(currentFunc))
      decreases Size(currentFunc), index + 1, 3
    {
      ghost var e := Vars();
      var oldFunc := currentFunc;
      var oldIndex := index;
      currentFunc := items;
      index := |currentFunc| - 2;
      var call := At(currentFunc, index);
      if call.None? {
        return Raise(IndexError);
      }
      if !call.value.Cmd? {
        return Raise(AttributeError);
      }
      if call.value.instr.command != 0x2f {
        return Raise(DecompilerError("Function improperly formatted"));
      }
      var n :- ArgCount(call.value.instr, 1);
      var a := GetArgs(n);
      if a.Raise? {
        return Raise(a.error);
      }
      var other :- RunGroup(a.value.0);
      var args := a.value.1;
      if |args| == 0 {
        return Raise(IndexError);
      }
      if args[0].ID? && args[0].id !in funcNames {
        args := args[0 := UnaryOp("*", args[0])];
      }
      if args[0].Constant? && args[0].value.Str? {
        args := args[0 := ID(args[0].value.s)];
      }
      currentFunc := oldFunc;
      index := oldIndex;
      return Ok(Many(other + [FuncCall(args[0], Reverse(args[1..]))]));
    }

    /** An if/else block: both branches walked with their own cursor. */
    method DecompileIf(isNot: bool, ifItems: seq<Item>, elseItems: ElsePart) returns (r: Outcome<Decoded>)
      requires -1 <= index < |currentFunc| && Size(ifItems) < Size(currentFunc)
      requires elseItems.Else? ==> Size(elseItems.items) < Size(currentFunc)
      modifies this
      ensures localVars == old(localVars)
      ensures Follows(r, DecodeIf(old(Vars()), old(currentFunc), old(index), isNot, ifItems, elseItems), old(currentFunc))
      decreases Size(currentFunc), index + 1, 3
    {
      var a := GetArgs(1);
      if a.Raise? {
        return Raise(a.error);
      }
      var beforeIf := a.value.0;
      if |a.value.1| == 0 {
        return Raise(IndexError);
      }
      var ifCondition := a.value.1[0];
      var trueStatements :- DecompileBlock(ifItems);
      var falseStatements := NoFalse;
      if elseItems.Else? {
        var f :- DecompileBlock(elseItems.items);
        falseStatements := FalseStatements(f);
      }
      if isNot {
        ifCondition := UnaryOp("!", ifCondition);
      }
      return Ok(Many(beforeIf + [If(ifCondition, trueStatements, falseStatements)]));
    }

    /** One branch of an if/else block, walked with its own cursor; the
        cursor of the enclosing list is put back afterwards. */
    method DecompileBlock(items: seq<Item>) returns (r: Outcome<seq<Node>>)
      requires Size(items) < Size(currentFunc)
      modifies this
      ensures localVars == old(localVars)
      ensures r == Block(old(Vars()), items)
      ensures r.Ok? ==> currentFunc == old(currentFunc) && index == old(index)
      decreases Size(currentFunc), index + 1, 2
    {
      var oldFunc := currentFunc;
      var oldIndex := index;
      currentFunc := items;
      index := |currentFunc| - 1;
      r := RunBody([]);
      currentFunc := oldFunc;
      index := oldIndex;
    }

    /** A loop: the condition and then the body, read backward from the end
        of the loop's commands. */
    method DecompileWhile(isDoWhile: bool, body: seq<Item>, isIfNot: bool) returns (r: Outcome<Decoded>)
      requires -1 <= index < |currentFunc| && Size(body) < Size(currentFunc)
      modifies this
      ensures localVars == old(localVars)
      ensures Follows(r, DecodeWhile(old(Vars()), old(currentFunc), old(index), isDoWhile, body, isIfNot), old(currentFunc))
      decreases Size(currentFunc), index + 1, 3
    {
      var oldFunc := currentFunc;
      var oldIndex := index;
      currentFunc := body;
      index := |currentFunc| - 1;
      var a := GetArgs(1);
      if a.Raise? {
        return Raise(a.error);
      }
      if |a.value.1| == 0 {
        return Raise(IndexError);
      }
      var condition := a.value.1[0];
      var loopStatements :- RunBody(a.value.0);
      currentFunc := oldFunc;
      index := oldIndex;
      if !isIfNot {
        condition := UnaryOp("!", condition);
      }
      if isDoWhile {
        return Ok(One(DoWhile(condition, loopStatements)));
      }
      return Ok(One(While(condition, loopStatements)));
    }

    /** `decompileFunc(func, s)`: the structuring passes, then the walk from
        the last item back to the first. */
    method DecompileFunc(cmds: seq<Item>) returns (r: Outcome<seq<Node>>)
      modifies this
      ensures localVars == old(localVars)
      ensures r == Walk(old(Vars()), cmds, fuel, pops)
    {
      var loops :- Structure.PullOutLoops(cmds, fuel, pops);
      var items :- Structure.PullOutGroups(loops, fuel, pops);
      currentFunc := items;
      index := |currentFunc| - 1;
      r := RunBody([]);
    }

    /** The `try` block of `decompile`: the declared parameters (kept when
        an exception stops it) and the statements or the exception. */
    method DecompileBody(name: string, cmds: seq<Item>) returns (params: seq<Node>, body: Outcome<seq<Node>>)
      modifies this
      ensures (params, body) == ScriptStatements(globalVars, funcNames, name, cmds, fuel, pops)
    {
      params := [];
      if |cmds| != 0 && !cmds[0].Cmd? {
        return [], Raise(AttributeError);
      }
      if |cmds| != 0 && cmds[0].instr.command != 0x2 {
        return [], Raise(NotABegin(name));
      }
      if |cmds| == 0 || |cmds[0].instr.parameters| < 2 {
        return [], Raise(IndexError);
      }
      var argcValue := cmds[0].instr.parameters[0];
      var varcValue := cmds[0].instr.parameters[1];
      var varc := if IntOf(varcValue).Some? then IntOf(varcValue).value else 0;
      var localVarTypes := TypeInfer.GetLocalVarTypes(cmds, varc, pops);
      if localVarTypes.Raise? {
        return [], Raise(localVarTypes.error);
      }
      if IntOf(varcValue).None? {
        return [], Raise(TypeError);
      }
      var types := localVarTypes.value;
      ghost var refs := TypeInfer.References(cmds, |cmds|, TypeInfer.Local, pops).value;
      assert types == seq(if varc < 0 then 0 else varc, i => TypeInfer.SlotType(refs, Int(i)));
      assert LocalTypes(cmds, varcValue, pops) == Ok((types, varc));
      var argcInt := IntOf(argcValue);
      if argcInt.None? {
        return [], Raise(TypeError);
      }
      params, body := DeclareAndWalk(types, argcInt.value, varc, cmds);
    }

    /** The declarations of a script's parameters and locals, then its body. */
    method DeclareAndWalk(types: seq<string>, argc: int, varc: int, cmds: seq<Item>) returns (params: seq<Node>, body: Outcome<seq<Node>>)
      modifies this
      ensures (params, body) == Declared(globalVars, funcNames, types, argc, varc, cmds, fuel, pops)
    {
      var ok;
      params, ok := DeclareParams(types, argc);
      if !ok {
        return params, Raise(IndexError);
      }
      var decls := DeclareLocals(types, argc, if varc - argc < 0 then 0 else varc - argc, |params|);
      if decls.Raise? {
        return params, Raise(decls.error);
      }
      var statements := DecompileFunc(cmds);
      if statements.Raise? {
        return params, Raise(statements.error);
      }
      var withDecls := InsertDecls(decls.value, statements.value);
      return params, Ok(withDecls);
    }

    /** The `for i in range(argc)` loop: a declaration and a local name per
        parameter, until the types run out. */
    method DeclareParams(types: seq<string>, argc: int) returns (params: seq<Node>, ok: bool)
      modifies this
      ensures var n := if argc < 0 then 0 else argc;
              (ok <==> n <= |types|) && params == ArgDecls(types, if ok then n else |types|)
              && (ok ==> localVars == LocalNames(n, []))
    {
      params := [];
      localVars := [];
      var i := 0;
      while i < argc
        invariant 0 <= i <= |types| && (argc >= 0 ==> i <= argc) && (argc < 0 ==> i == 0)
        invariant params == ArgDecls(types, i)
        invariant localVars == LocalNames(i, [])
      {
        if i >= |types| {
          return params, false;
        }
        ArgDeclsSnoc(types, i);
        LocalNamesArg(i);
        params := params + [Decl(types[i], "arg" + Decimal(i), NoneValue)];
        localVars := localVars + [ID("arg" + Decimal(i))];
        i := i + 1;
      }
      return params, true;
    }

    /** The `for i in range(varc - argc)` loop: the local declarations, each
        slot's name added to the local names. */
    method DeclareLocals(types: seq<string>, argc: int, count: nat, ghost n: nat) returns (r: Outcome<seq<Node>>)
      requires localVars == LocalNames(n, [])
      modifies this
      ensures r == VarDecls(types, argc, count)
      ensures r.Ok? ==> localVars == LocalNames(n, r.value)
    {
      var decls: seq<Node> := [];
      var j := 0;
      while j < count
        invariant 0 <= j <= count
        invariant VarDecls(types, argc, j) == Ok(decls)
        invariant localVars == LocalNames(n, decls)
      {
        var t := At(types, j + argc);
        if t.None? {
          VarDeclsRaisePersists(types, argc, j + 1, count);
          return Raise(IndexError);
        }
        LocalNamesSnoc(n, decls, Decl(t.value, "var" + Decimal(j + argc), NoneValue));
        decls := decls + [Decl(t.value, "var" + Decimal(j + argc), NoneValue)];
        localVars := localVars + [ID("var" + Decimal(j + argc))];
        j := j + 1;
      }
      return Ok(decls);
    }

    /** `for i, decl in enumerate(localVarDecls): s.insert(i, decl)`. */
    static method InsertDecls(decls: seq<Node>, s: seq<Node>) returns (statements: seq<Node>)
      ensures statements == decls + s
    {
      statements := s;
      var k := 0;
      while k < |decls|
        invariant 0 <= k <= |decls|
        invariant statements == decls[..k] + s
      {
        assert decls[..k + 1] == decls[..k] + [decls[k]];
        statements := statements[..k] + [decls[k]] + statements[k..];
        k := k + 1;
      }
      assert decls[..k] == decls;
    }

    /** `decompile(func, funcNum)`. */
    method Decompile(name: string, cmds: seq<Item>, funcNum: int) returns (r: Outcome<Node>)
      modifies this
      ensures r == DecompileScript(globalVars, funcNames, funcTypes, funcNum, name, cmds, fuel, pops)
    {
      var ty := At(funcTypes, funcNum);
      if ty.None? {
        return Raise(IndexError);
      }
      var params, body := DecompileBody(name, cmds);
      if body.Raise? && body.error == Diverged {
        return Raise(Diverged);
      }
      var statements := if body.Ok? then body.value else [Comment(ErrorBanner + ErrorText(body.error))];
      return Ok(FuncDef(ty.value, name, params, statements));
    }
  }

  /** `prefix` put in front of a successful result. */
  function AfterPrefix(prefix: seq<Node>, o: Outcome<seq<Node>>): Outcome<seq<Node>>
  {
    if o.Ok? then Ok(prefix + o.value) else o
  }
}
