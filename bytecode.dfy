/** The program model the pipeline works on: instruction parameters, the
    synthetic jump labels, the instructions themselves, and the items of a
    script's command list (instructions, labels and the blocks the structurer
    groups them into). */
module Bytecode {
  import opened PyOps

  /** A jump label.  The label pass names each label `loc_<target in hex>`,
      and one script gets one label per target, so within a script the name
      is its identity. */
  datatype Label = Label(name: string)

  /** One instruction parameter, in the shapes it takes over the pipeline:
      the integer the reader produced, a float literal (carried as the text that
      `str` gives for it), a string, the script name a script offset was
      resolved to (`ScriptRef`), a jump label, or a boolean. */
  datatype Value =
    | Int(i: int)
    | Float(text: string)
    | Str(s: string)
    | ScriptRef(ref: string)
    | LabelRef(lab: Label)
    | Bool(b: bool)

  /** An instruction: opcode, parameters, whether its result stays on the
      evaluation stack, and its position in the file (jump targets name it). */
  datatype Instr = Instr(command: int, parameters: seq<Value>, pushBit: bool, commandPosition: int)

  /** The per-opcode operand count, `COMMAND_STACKPOPS[command](parameters)`,
      which the container reader supplies. */
  type Arity = (int, seq<Value>) -> nat

  /** An element of a script's command list. */
  datatype Item =
    | Cmd(instr: Instr)
    | Lbl(lab: Label)
    | CallGroup(pushBit: bool, items: seq<Item>)
    | IfElseBlock(isNot: bool, pushBit: bool, ifItems: seq<Item>, elseItems: ElsePart)
    | WhileBlock(isDoWhile: bool, body: seq<Item>, isIfNot: bool)
    | CastItem(ty: string)
    | BreakItem

  /** `elseCommands` of an if/else block: None, or a list. */
  datatype ElsePart = NoElse | Else(items: seq<Item>)

  /** `parameters[k]`, absent when the list is too short. */
  function Param(c: Instr, k: int): Option<Value>
  {
    At(c.parameters, k)
  }

  /** Python `v == n` for a parameter and an integer. */
  predicate IsInt(v: Value, n: int)
  {
    v == Int(n)
  }

  predicate IsCmd(x: Item, ops: set<int>)
  {
    x.Cmd? && x.instr.command in ops
  }

  /** `commands.index(target)`: the first item equal to the target.  Only a
      label can equal a label parameter (every other item compares by
      identity), so an integer target is never found. */
  function IndexOfTarget(items: seq<Item>, target: Value): (r: Option<nat>)
    ensures r.Some? ==> r.value < |items| && target.LabelRef? && items[r.value] == Lbl(target.lab)
    ensures r.Some? ==> forall k :: 0 <= k < r.value ==> items[k] != Lbl(target.lab)
    ensures r.None? ==> !target.LabelRef? || forall k :: 0 <= k < |items| ==> items[k] != Lbl(target.lab)
  {
    if !target.LabelRef? then None else FirstIndex(items, Lbl(target.lab), 0)
  }

  function FirstIndex(items: seq<Item>, x: Item, from: nat): (r: Option<nat>)
    requires from <= |items|
    ensures r.Some? ==> from <= r.value < |items| && items[r.value] == x
    ensures r.Some? ==> forall k :: from <= k < r.value ==> items[k] != x
    ensures r.None? ==> forall k :: from <= k < |items| ==> items[k] != x
    decreases |items| - from
  {
    if from == |items| then None else if items[from] == x then Some(from) else FirstIndex(items, x, from + 1)
  }

  /** `getIndexOfInstruction(target)` of the container reader: the index of the
      first instruction at that file position, or None. */
  function IndexOfPosition(cmds: seq<Instr>, target: Value): (r: Option<nat>)
    ensures r.Some? ==> r.value < |cmds| && target == Int(cmds[r.value].commandPosition)
    ensures r.Some? ==> forall k :: 0 <= k < r.value ==> target != Int(cmds[k].commandPosition)
    ensures r.None? ==> forall k :: 0 <= k < |cmds| ==> target != Int(cmds[k].commandPosition)
  {
    PositionFrom(cmds, target, 0)
  }

  function PositionFrom(cmds: seq<Instr>, target: Value, from: nat): (r: Option<nat>)
    requires from <= |cmds|
    ensures r.Some? ==> from <= r.value < |cmds| && target == Int(cmds[r.value].commandPosition)
    ensures r.Some? ==> forall k :: from <= k < r.value ==> target != Int(cmds[k].commandPosition)
    ensures r.None? ==> forall k :: from <= k < |cmds| ==> target != Int(cmds[k].commandPosition)
    decreases |cmds| - from
  {
    if from == |cmds| then None
    else if target == Int(cmds[from].commandPosition) then Some(from)
    else PositionFrom(cmds, target, from + 1)
  }

  /** The number of items, counting nested ones; blocks shrink it, which is
      what makes the recursive passes terminate. */
  function Size(items: seq<Item>): nat
  {
    if items == [] then 0 else Size(items[..|items| - 1]) + ItemSize(items[|items| - 1])
  }

  function ItemSize(x: Item): nat
  {
    match x
    case CallGroup(_, items) => 1 + Size(items)
    case IfElseBlock(_, _, t, NoElse) => 1 + Size(t)
    case IfElseBlock(_, _, t, Else(e)) => 1 + Size(t) + Size(e)
    case WhileBlock(_, body, _) => 1 + Size(body)
    case _ => 1
  }

  lemma {:induction false} SizeOfElement(items: seq<Item>, k: nat)
    requires k < |items|
    ensures ItemSize(items[k]) <= Size(items)
    decreases |items|
  {
    if k < |items| - 1 { SizeOfElement(items[..|items| - 1], k); }
  }

  lemma SizeOfMember(items: seq<Item>, x: Item)
    requires x in items
    ensures ItemSize(x) <= Size(items)
  {
    var k :| 0 <= k < |items| && items[k] == x;
    SizeOfElement(items, k);
  }
}
