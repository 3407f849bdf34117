/** The control-flow structurer: turns a flat list of instructions and labels
    into nested loop, if/else, call-group and cast items (`pullOutLoops`,
    `pullOutGroups` and `lastCommand`). */
module Structure {
  import opened PyOps
  import opened Bytecode

  // ---------------------------------------------------------------------
  // Helpers shared by both passes

  /** `commands.index(v)`: only a label item can equal a label parameter;
      anything else is not found, which raises `ValueError`. */
  function IndexOf(commands: seq<Item>, v: Value): (r: Outcome<nat>)
    ensures r.Ok? ==> r.value < |commands| && v.LabelRef? && commands[r.value] == Lbl(v.lab)
    ensures r.Ok? ==> forall k :: 0 <= k < r.value ==> commands[k] != Lbl(v.lab)
    ensures r.Raise? ==> r.error == ValueError
  {
    match IndexOfTarget(commands, v)
    case None => Raise(ValueError)
    case Some(k) => Ok(k)
  }

  /** The index of the last item that is not a label (mscdec.py:460-463). */
  function LastNonLabel(l: seq<Item>): (r: Option<nat>)
    ensures r.Some? ==> r.value < |l| && !l[r.value].Lbl? && forall m :: r.value < m < |l| ==> l[m].Lbl?
    ensures r.None? ==> forall m :: 0 <= m < |l| ==> l[m].Lbl?
    decreases |l|
  {
    if l == [] then None
    else if !l[|l| - 1].Lbl? then Some(|l| - 1)
    else LastNonLabel(l[..|l| - 1])
  }

  /** `lastCommand(l)`. */
  method LastCommand(l: seq<Item>) returns (r: Option<Item>)
    ensures r == match LastNonLabel(l) case None => None case Some(k) => Some(l[k])
  {
    var k := |l|;
    while k > 0
      invariant 0 <= k <= |l|
      invariant forall m :: k <= m < |l| ==> l[m].Lbl?
      invariant LastNonLabel(l) == LastNonLabel(l[..k])
    {
      assert l[..k][..k - 1] == l[..k - 1];
      if !l[k - 1].Lbl? {
        return Some(l[k - 1]);
      }
      k := k - 1;
    }
    return None;
  }

  /** `x.pushBit` of an item; casts, loops and breaks have no such attribute. */
  function PushBitOf(x: Item): Outcome<bool>
  {
    match x
    case Cmd(c) => Ok(c.pushBit)
    case CallGroup(pb, _) => Ok(pb)
    case IfElseBlock(_, pb, _, _) => Ok(pb)
    case _ => Raise(AttributeError)
  }

  /** `len(ifCommands) > 0 and lastCommand(ifCommands).pushBit`. */
  function IfPushBit(ifCmds: seq<Item>): Outcome<bool>
  {
    if |ifCmds| == 0 then Ok(false)
    else match LastNonLabel(ifCmds)
         case None => Raise(AttributeError)
         case Some(k) => PushBitOf(ifCmds[k])
  }

  method IfIsPushed(ifCmds: seq<Item>) returns (r: Outcome<bool>)
    ensures r == IfPushBit(ifCmds)
  {
    if |ifCmds| == 0 {
      return Ok(false);
    }
    var last := LastCommand(ifCmds);
    if last.None? {
      return Raise(AttributeError);
    }
    return PushBitOf(last.value);
  }

  // ---------------------------------------------------------------------
  // Casts (mscdec.py:487-498)

  /** Items that leave a value on the stack. */
  predicate Pushes(x: Item)
  {
    (x.Cmd? && x.instr.pushBit) || (x.CallGroup? && x.pushBit)
  }

  /** How one item moves the running `numPushedBack`. */
  function Shift(x: Item, pops: Arity): int
  {
    if x.Cmd? then -(pops(x.instr.command, x.instr.parameters) - (if x.instr.pushBit then 1 else 0))
    else if x.CallGroup? then (if x.pushBit then 1 else 0)
    else 0
  }

  /** `numPushedBack` when the backward walk reaches index `idx`: the shifts of
      the items after it. */
  function PushedBack(nc: seq<Item>, idx: int, pops: Arity): int
    requires -1 <= idx < |nc|
    decreases |nc| - idx
  {
    if idx == |nc| - 1 then 0 else PushedBack(nc, idx + 1, pops) + Shift(nc[idx + 1], pops)
  }

  /** Where the cast goes: the nearest item at or before `idx` that pushes a
      value and at which the running count equals the marker's operand. */
  function CastPosition(nc: seq<Item>, idx: int, marker: Instr, pops: Arity): (r: Outcome<Option<nat>>)
    requires -1 <= idx < |nc|
    ensures r.Ok? && r.value.Some? ==>
              r.value.value <= idx && Pushes(nc[r.value.value]) && marker.parameters != []
              && marker.parameters[0] == Int(PushedBack(nc, r.value.value, pops))
    ensures r.Ok? ==> forall m :: (if r.value.Some? then r.value.value else -1) < m <= idx && Pushes(nc[m]) ==>
                        marker.parameters != [] && marker.parameters[0] != Int(PushedBack(nc, m, pops))
    ensures r.Raise? ==> r.error == IndexError && marker.parameters == []
    decreases idx + 1
  {
    if idx < 0 then Ok(None)
    else if Pushes(nc[idx]) then
      if marker.parameters == [] then Raise(IndexError)
      else if marker.parameters[0] == Int(PushedBack(nc, idx, pops)) then Ok(Some(idx))
      else CastPosition(nc, idx - 1, marker, pops)
    else CastPosition(nc, idx - 1, marker, pops)
  }

  /** The type a cast marker names: 0x38 casts to float, 0x39 to int. */
  function CastType(command: int): string
  {
    if command == 0x38 then "float" else "int"
  }

  /** `newCommands` after a cast marker: the marker itself is dropped and a
      `Cast` goes directly after the item found, if any. */
  function CastInserted(nc: seq<Item>, marker: Instr, pops: Arity): Outcome<seq<Item>>
  {
    var p :- CastPosition(nc, |nc| - 1, marker, pops);
    if p.None? then Ok(nc)
    else Ok(nc[..p.value + 1] + [CastItem(CastType(marker.command))] + nc[p.value + 1..])
  }

  /** The backward walk of the cast case. */
  method InsertCast(newCommands: seq<Item>, marker: Instr, pops: Arity) returns (r: Outcome<seq<Item>>)
    ensures r == CastInserted(newCommands, marker, pops)
  {
    var index := |newCommands| - 1;
    var numPushedBack := 0;
    while index >= 0
      invariant -1 <= index < |newCommands|
      invariant numPushedBack == PushedBack(newCommands, index, pops)
      invariant CastPosition(newCommands, |newCommands| - 1, marker, pops) == CastPosition(newCommands, index, marker, pops)
      decreases index + 1
    {
      var x := newCommands[index];
      if (x.Cmd? && x.instr.pushBit) || (x.CallGroup? && x.pushBit) {
        if |marker.parameters| == 0 {
          return Raise(IndexError);
        }
        if marker.parameters[0] == Int(numPushedBack) {
          return Ok(newCommands[..index + 1] + [CastItem(CastType(marker.command))] + newCommands[index + 1..]);
        }
      }
      if x.Cmd? {
        numPushedBack := numPushedBack - (pops(x.instr.command, x.instr.parameters) - (if x.instr.pushBit then 1 else 0));
      } else if x.CallGroup? {
        numPushedBack := numPushedBack + (if x.pushBit then 1 else 0);
      }
      index := index - 1;
    }
    return Ok(newCommands);
  }

  // ---------------------------------------------------------------------
  // pullOutGroups (mscdec.py:469-555)

  /** Whether an item is the end label `tryEnd` of a call group. */
  predicate Ends(x: Item, tryEnd: Value)
  {
    tryEnd.LabelRef? && x == Lbl(tryEnd.lab)
  }

  /** The first item at or after `from` equal to `tryEnd`. */
  function FirstEnd(commands: seq<Item>, from: nat, tryEnd: Value): (r: Option<nat>)
    requires from <= |commands|
    ensures r.Some? ==> from <= r.value < |commands| && Ends(commands[r.value], tryEnd)
    ensures r.None? ==> forall k :: from <= k < |commands| ==> !Ends(commands[k], tryEnd)
    decreases |commands| - from
  {
    if from == |commands| then None
    else if Ends(commands[from], tryEnd) then Some(from)
    else FirstEnd(commands, from + 1, tryEnd)
  }

  /** `copyElse`: some branch strictly inside the if-part jumps to the same
      label as the if itself (the loop at mscdec.py:534-537, from `j`). */
  function CopyElse(commands: seq<Item>, j: nat, end: nat, target: Value): Outcome<bool>
    requires end <= |commands|
    decreases end - j
  {
    if j >= end then Ok(false)
    else if IsCmd(commands[j], {0x34, 0x35}) then
      if |commands[j].instr.parameters| == 0 then Raise(IndexError)
      else if commands[j].instr.parameters[0] == target then Ok(true)
      else CopyElse(commands, j + 1, end, target)
    else CopyElse(commands, j + 1, end, target)
  }

  /** `pullOutGroups(commands)`.  `fuel` bounds the number of times the
      cursor is sent back to a position it has passed. */
  function Groups(commands: seq<Item>, fuel: nat, pops: Arity): Outcome<seq<Item>>
    decreases |commands|, fuel, |commands| + 1, 4
  {
    GroupsFrom(commands, 0, [], fuel, pops)
  }

  /** The loop from cursor `i` with `newCommands == acc`. */
  function GroupsFrom(commands: seq<Item>, i: nat, acc: seq<Item>, fuel: nat, pops: Arity): Outcome<seq<Item>>
    requires i <= |commands|
    decreases |commands|, fuel, |commands| - i, 3
  {
    if i == |commands| then Ok(acc)
    else
      var step :- GroupStep(commands, i, acc, fuel, pops);
      var next := step.1 + 1;
      if next > i then GroupsFrom(commands, next, step.0, fuel, pops)
      else if fuel == 0 then Raise(Diverged)
      else GroupsFrom(commands, next, step.0, fuel - 1, pops)
  }

  /** One iteration: the new `newCommands` and the cursor before `i += 1`. */
  function GroupStep(commands: seq<Item>, i: nat, acc: seq<Item>, fuel: nat, pops: Arity): (r: Outcome<(seq<Item>, nat)>)
    requires i < |commands|
    ensures r.Ok? ==> r.value.1 < |commands|
    decreases |commands|, fuel, |commands| - i, 2
  {
    var x := commands[i];
    if IsCmd(x, {0x2e}) then
      if |x.instr.parameters| == 0 then Raise(IndexError)
      else
        match FirstEnd(commands, i + 1, x.instr.parameters[0])
        case None => Raise(IndexError)
        case Some(k) =>
          var inner :- Groups(commands[i + 1..k + 1], fuel, pops);
          Ok((acc + [CallGroup(x.instr.pushBit, inner), commands[k]], k))
    else if IsCmd(x, {0x38, 0x39}) then
      var nc :- CastInserted(acc, x.instr, pops);
      Ok((nc, i))
    else if IsCmd(x, {0x34, 0x35}) then IfGroup(commands, i, acc, fuel, pops)
    else Ok((acc + [x], i))
  }

  /** A branch `0x34`/`0x35` at `i` (mscdec.py:499-551). */
  function IfGroup(commands: seq<Item>, i: nat, acc: seq<Item>, fuel: nat, pops: Arity): (r: Outcome<(seq<Item>, nat)>)
    requires i < |commands| && IsCmd(commands[i], {0x34, 0x35})
    ensures r.Ok? ==> r.value.1 < |commands|
    decreases |commands|, fuel, |commands| - i, 1
  {
    var x := commands[i].instr;
    var isIfNot := x.command == 0x35;
    if |x.parameters| == 0 then Raise(IndexError)
    else
      var lp :- IndexOf(commands, x.parameters[0]);
      if lp < i then Raise(DecompilerError("Loops are not supported yet"))
      else if lp - 1 == i then Ok((acc + [IfElseBlock(isIfNot, false, [], NoElse)], i))
      else if IsCmd(commands[lp - 1], {0x34, 0x35}) then NestedIfGroup(commands, i, lp, acc, fuel, pops)
      else if IsCmd(commands[lp - 1], {0x36}) then ElseGroup(commands, i, lp, acc, fuel, pops)
      else
        var ifCmds :- Groups(commands[i + 1..lp + 1], fuel, pops);
        Ok((acc + [IfElseBlock(isIfNot, false, ifCmds, NoElse)], lp))
  }

  /** The branch whose label follows another branch (mscdec.py:512-527). */
  function NestedIfGroup(commands: seq<Item>, i: nat, lp: nat, acc: seq<Item>, fuel: nat, pops: Arity)
    : (r: Outcome<(seq<Item>, nat)>)
    requires i + 1 < lp < |commands| && IsCmd(commands[i], {0x34, 0x35}) && IsCmd(commands[lp - 1], {0x34, 0x35})
    ensures r.Ok? ==> r.value.1 < |commands|
    decreases |commands|, fuel, |commands| - i, 0
  {
    var isIfNot := commands[i].instr.command == 0x35;
    var inner := commands[lp - 1].instr;
    if |inner.parameters| == 0 then Raise(IndexError)
    else
      var b :- IndexOf(commands, inner.parameters[0]);
      var before := if b == 0 then commands[|commands| - 1] else commands[b - 1];
      if IsCmd(before, {0x36}) then NestedElseGroup(commands, i, lp, b, before.instr, acc, fuel, pops)
      else if lp == b then
        var ifCmds :- Groups(commands[i + 1..lp + 1], fuel, pops);
        var intermediate := IfElseBlock(isIfNot, false, ifCmds, NoElse);
        Ok((acc + [intermediate] + [intermediate], lp))
      else Raise(DecompilerError("What even happened"))
  }

  /** The nested branch whose own label `b` follows the else marker
      `elseMarker` (mscdec.py:516-520). */
  function NestedElseGroup(commands: seq<Item>, i: nat, lp: nat, b: nat, elseMarker: Instr, acc: seq<Item>, fuel: nat, pops: Arity)
    : (r: Outcome<(seq<Item>, nat)>)
    requires i + 1 < lp < |commands| && IsCmd(commands[i], {0x34, 0x35})
    ensures r.Ok? ==> r.value.1 < |commands|
    decreases |commands|, fuel, |commands| - i, -1
  {
    if |elseMarker.parameters| == 0 then Raise(IndexError)
    else
      var e :- IndexOf(commands, elseMarker.parameters[0]);
      var block :- ElseBlock(commands, commands[i].instr.command == 0x35, Slice(commands, i + 1, e + 1),
                             Slice(commands, lp + 1, b - 1), fuel, pops);
      Ok((acc + [block], e))
  }

  /** The branch whose label follows an else marker `0x36` (mscdec.py:528-546). */
  function ElseGroup(commands: seq<Item>, i: nat, lp: nat, acc: seq<Item>, fuel: nat, pops: Arity)
    : (r: Outcome<(seq<Item>, nat)>)
    requires i + 1 < lp < |commands| && IsCmd(commands[i], {0x34, 0x35}) && IsCmd(commands[lp - 1], {0x36})
    requires commands[i].instr.parameters != []
    ensures r.Ok? ==> r.value.1 < |commands|
    decreases |commands|, fuel, |commands| - i, 0
  {
    var x := commands[i].instr;
    var isIfNot := x.command == 0x35;
    var elseMarker := commands[lp - 1].instr;
    if |elseMarker.parameters| == 0 then Raise(IndexError)
    else
      var e :- IndexOf(commands, elseMarker.parameters[0]);
      var copyElse :- CopyElse(commands, i + 1, lp - 1, x.parameters[0]);
      var block :- ElseBlock(commands, isIfNot, if copyElse then Slice(commands, i + 1, e + 1) else commands[i + 1..lp - 1],
                             Slice(commands, lp + 1, e + 1), fuel, pops);
      Ok((acc + [block], e))
  }

  /** An `IfElseIntermediate` with both branches grouped (the if-part first);
      it pushes a value when the last command of its if-part does. */
  function ElseBlock(commands: seq<Item>, isIfNot: bool, ifPart: seq<Item>, elsePart: seq<Item>, fuel: nat, pops: Arity)
    : (r: Outcome<Item>)
    requires |ifPart| < |commands| && |elsePart| < |commands|
    ensures r.Ok? ==> r.value.IfElseBlock? && r.value.isNot == isIfNot && r.value.elseItems.Else?
    decreases |commands|, fuel, 0, 0
  {
    var ifCmds :- Groups(ifPart, fuel, pops);
    var elseCmds :- Groups(elsePart, fuel, pops);
    var pushBit :- IfPushBit(ifCmds);
    Ok(IfElseBlock(isIfNot, pushBit, ifCmds, Else(elseCmds)))
  }

  /** `pullOutGroups(commands)`, as the source's cursor loop. */
  method PullOutGroups(commands: seq<Item>, fuel: nat, pops: Arity) returns (r: Outcome<seq<Item>>)
    ensures r == Groups(commands, fuel, pops)
    decreases |commands|, 3
  {
    var newCommands: seq<Item> := [];
    var i: nat := 0;
    var budget: nat := fuel;
    while i < |commands|
      invariant i <= |commands|
      invariant GroupsFrom(commands, i, newCommands, budget, pops) == Groups(commands, fuel, pops)
      decreases budget, |commands| - i
    {
      var step := Regroup(commands, i, newCommands, budget, pops);
      if step.Raise? {
        return Raise(step.error);
      }
      newCommands := step.value.0;
      var next := step.value.1 + 1;
      if next <= i {
        if budget == 0 {
          return Raise(Diverged);
        }
        budget := budget - 1;
      }
      i := next;
    }
    return Ok(newCommands);
  }

  /** The body of the `pullOutGroups` loop. */
  method Regroup(commands: seq<Item>, i: nat, acc: seq<Item>, fuel: nat, pops: Arity) returns (r: Outcome<(seq<Item>, nat)>)
    requires i < |commands|
    ensures r == GroupStep(commands, i, acc, fuel, pops)
    decreases |commands|, 2
  {
    var cmd := commands[i];
    if cmd.Cmd? && cmd.instr.command == 0x2e {
      if |cmd.instr.parameters| == 0 {
        return Raise(IndexError);
      }
      var tryEnd := cmd.instr.parameters[0];
      var funCallGroup: seq<Item> := [];
      var j := i + 1;
      while j < |commands| && !Ends(commands[j], tryEnd)
        invariant i + 1 <= j <= |commands|
        invariant funCallGroup == commands[i + 1..j]
        invariant FirstEnd(commands, i + 1, tryEnd) == FirstEnd(commands, j, tryEnd)
        decreases |commands| - j
      {
        funCallGroup := funCallGroup + [commands[j]];
        j := j + 1;
      }
      if j == |commands| {
        return Raise(IndexError);
      }
      funCallGroup := funCallGroup + [commands[j]];
      assert funCallGroup == commands[i + 1..j + 1];
      var temp :- PullOutGroups(funCallGroup, fuel, pops);
      return Ok((acc + [CallGroup(cmd.instr.pushBit, temp), commands[j]], j));
    } else if cmd.Cmd? && cmd.instr.command in {0x38, 0x39} {
      var nc :- InsertCast(acc, cmd.instr, pops);
      return Ok((nc, i));
    } else if cmd.Cmd? && cmd.instr.command in {0x34, 0x35} {
      r := GroupIf(commands, i, acc, fuel, pops);
    } else {
      return Ok((acc + [cmd], i));
    }
  }

  method GroupIf(commands: seq<Item>, i: nat, acc: seq<Item>, fuel: nat, pops: Arity) returns (r: Outcome<(seq<Item>, nat)>)
    requires i < |commands| && IsCmd(commands[i], {0x34, 0x35})
    ensures r == IfGroup(commands, i, acc, fuel, pops)
    decreases |commands|, 1
  {
    var cmd := commands[i].instr;
    var isIfNot := cmd.command == 0x35;
    if |cmd.parameters| == 0 {
      return Raise(IndexError);
    }
    var labelPosition :- IndexOf(commands, cmd.parameters[0]);
    if labelPosition < i {
      return Raise(DecompilerError("Loops are not supported yet"));
    }
    var before := commands[labelPosition - 1];
    if labelPosition - 1 == i {
      return Ok((acc + [IfElseBlock(isIfNot, false, [], NoElse)], i));
    } else if before.Cmd? && before.instr.command in {0x34, 0x35} {
      r := GroupNestedIf(commands, i, labelPosition, acc, fuel, pops);
    } else if before.Cmd? && before.instr.command == 0x36 {
      r := GroupElse(commands, i, labelPosition, acc, fuel, pops);
    } else {
      var ifCommands :- PullOutGroups(commands[i + 1..labelPosition + 1], fuel, pops);
      return Ok((acc + [IfElseBlock(isIfNot, false, ifCommands, NoElse)], labelPosition));
    }
  }

  method GroupNestedIf(commands: seq<Item>, i: nat, lp: nat, acc: seq<Item>, fuel: nat, pops: Arity)
    returns (r: Outcome<(seq<Item>, nat)>)
    requires i + 1 < lp < |commands| && IsCmd(commands[i], {0x34, 0x35}) && IsCmd(commands[lp - 1], {0x34, 0x35})
    ensures r == NestedIfGroup(commands, i, lp, acc, fuel, pops)
    decreases |commands|, 0
  {
    var isIfNot := commands[i].instr.command == 0x35;
    var inner := commands[lp - 1].instr;
    if |inner.parameters| == 0 {
      return Raise(IndexError);
    }
    var badIfLabelPos :- IndexOf(commands, inner.parameters[0]);
    var before := if badIfLabelPos == 0 then commands[|commands| - 1] else commands[badIfLabelPos - 1];
    if before.Cmd? && before.instr.command == 0x36 {
      r := GroupNestedElse(commands, i, lp, badIfLabelPos, before.instr, acc, fuel, pops);
    } else if lp == badIfLabelPos {
      var ifCommands :- PullOutGroups(commands[i + 1..lp + 1], fuel, pops);
      var intermediate := IfElseBlock(isIfNot, false, ifCommands, NoElse);
      var newCommands := acc + [intermediate];
      // the shared append after the if/elif appends it a second time
      return Ok((newCommands + [intermediate], lp));
    } else {
      return Raise(DecompilerError("What even happened"));
    }
  }

  method GroupNestedElse(commands: seq<Item>, i: nat, lp: nat, badIfLabelPos: nat, elseMarker: Instr, acc: seq<Item>, fuel: nat, pops: Arity)
    returns (r: Outcome<(seq<Item>, nat)>)
    requires i + 1 < lp < |commands| && IsCmd(commands[i], {0x34, 0x35})
    ensures r == NestedElseGroup(commands, i, lp, badIfLabelPos, elseMarker, acc, fuel, pops)
    decreases |commands|, 0, 0
  {
    var isIfNot := commands[i].instr.command == 0x35;
    if |elseMarker.parameters| == 0 {
      return Raise(IndexError);
    }
    var badElseLabelPos :- IndexOf(commands, elseMarker.parameters[0]);
    var intermediate :- MakeElseBlock(commands, isIfNot, Slice(commands, i + 1, badElseLabelPos + 1),
                                      Slice(commands, lp + 1, badIfLabelPos as int - 1), fuel, pops);
    return Ok((acc + [intermediate], badElseLabelPos));
  }

  method GroupElse(commands: seq<Item>, i: nat, lp: nat, acc: seq<Item>, fuel: nat, pops: Arity)
    returns (r: Outcome<(seq<Item>, nat)>)
    requires i + 1 < lp < |commands| && IsCmd(commands[i], {0x34, 0x35}) && IsCmd(commands[lp - 1], {0x36})
    requires commands[i].instr.parameters != []
    ensures r == ElseGroup(commands, i, lp, acc, fuel, pops)
    decreases |commands|, 0
  {
    var cmd := commands[i].instr;
    var isIfNot := cmd.command == 0x35;
    var elseMarker := commands[lp - 1].instr;
    if |elseMarker.parameters| == 0 {
      return Raise(IndexError);
    }
    var elseLabelPos :- IndexOf(commands, elseMarker.parameters[0]);
    var copyElse := false;
    var j := i + 1;
    while j < lp - 1 && !copyElse
      invariant i + 1 <= j <= lp - 1
      invariant !copyElse ==> CopyElse(commands, i + 1, lp - 1, cmd.parameters[0]) == CopyElse(commands, j, lp - 1, cmd.parameters[0])
      invariant copyElse ==> CopyElse(commands, i + 1, lp - 1, cmd.parameters[0]) == Ok(true)
      decreases lp - 1 - j, if copyElse then 0 else 1
    {
      if commands[j].Cmd? && commands[j].instr.command in {0x34, 0x35} {
        if |commands[j].instr.parameters| == 0 {
          return Raise(IndexError);
        }
        if commands[j].instr.parameters[0] == cmd.parameters[0] {
          copyElse := true;
        }
      }
      if !copyElse {
        j := j + 1;
      }
    }
    var intermediate :- MakeElseBlock(commands, isIfNot, if copyElse then Slice(commands, i + 1, elseLabelPos + 1) else commands[i + 1..lp - 1],
                                      Slice(commands, lp + 1, elseLabelPos + 1), fuel, pops);
    return Ok((acc + [intermediate], elseLabelPos));
  }

  method MakeElseBlock(commands: seq<Item>, isIfNot: bool, ifPart: seq<Item>, elsePart: seq<Item>, fuel: nat, pops: Arity)
    returns (r: Outcome<Item>)
    requires |ifPart| < |commands| && |elsePart| < |commands|
    ensures r == ElseBlock(commands, isIfNot, ifPart, elsePart, fuel, pops)
    decreases |commands|, -1
  {
    var ifCommands :- PullOutGroups(ifPart, fuel, pops);
    var elseCommands :- PullOutGroups(elsePart, fuel, pops);
    var pushBit :- IfIsPushed(ifCommands);
    return Ok(IfElseBlock(isIfNot, pushBit, ifCommands, Else(elseCommands)));
  }

  // ---------------------------------------------------------------------
  // pullOutLoops (mscdec.py:557-578)

  /** A jump out of the loop body: a jump `4`/`5`/`0x36` to the label after
      the loop's closing branch. */
  predicate BreaksTo(x: Item, lab: Label)
  {
    IsCmd(x, {0x4, 0x5, 0x36}) && x.instr.parameters != [] && x.instr.parameters[0] == LabelRef(lab)
  }

  /** The list after the loop at mscdec.py:570-572 has run from `j` to `i`. */
  function Breaks(commands: seq<Item>, j: nat, i: nat, lab: Label): (r: Outcome<seq<Item>>)
    requires j <= i <= |commands|
    ensures r.Ok? ==> |r.value| == |commands|
    ensures r.Ok? ==> forall k :: 0 <= k < |commands| ==>
                        r.value[k] == if j <= k < i && BreaksTo(commands[k], lab) then BreakItem else commands[k]
    ensures r.Raise? ==> r.error == IndexError
    decreases i - j
  {
    if j == i then Ok(commands)
    else if IsCmd(commands[j], {0x4, 0x5, 0x36}) then
      if commands[j].instr.parameters == [] then Raise(IndexError)
      else if commands[j].instr.parameters[0] == LabelRef(lab) then Breaks(commands[j := BreakItem], j + 1, i, lab)
      else Breaks(commands, j + 1, i, lab)
    else Breaks(commands, j + 1, i, lab)
  }

  /** `isDoWhile`: false only when the item before the loop head is a jump
      whose operand is an index in `range(lp, i)`.  The opcode list is
      `[4, 5, 36]` with 36 in decimal. */
  function DoWhileTest(commands: seq<Item>, lp: nat, i: nat): Outcome<bool>
    requires lp < i < |commands|
  {
    var before := if lp == 0 then commands[|commands| - 1] else commands[lp - 1];
    if !IsCmd(before, {4, 5, 36}) then Ok(true)
    else if before.instr.parameters == [] then Raise(IndexError)
    else
      var p := before.instr.parameters[0];
      Ok(!(p.Int? && lp <= p.i < i))
  }

  /** `pullOutLoops(commands)`. */
  function Loops(commands: seq<Item>, fuel: nat, pops: Arity): Outcome<seq<Item>>
    decreases |commands|, |commands|, 2
  {
    LoopsFrom(commands, |commands| - 1, [], fuel, pops)
  }

  /** The backward loop from cursor `i` with `newCommands == acc`. */
  function LoopsFrom(commands: seq<Item>, i: int, acc: seq<Item>, fuel: nat, pops: Arity): Outcome<seq<Item>>
    requires -1 <= i < |commands|
    decreases |commands|, i + 1, 1
  {
    if i < 0 then Ok(acc)
    else if !IsCmd(commands[i], {0x34, 0x35}) then LoopsFrom(commands, i - 1, [commands[i]] + acc, fuel, pops)
    else if commands[i].instr.parameters == [] then Raise(IndexError)
    else
      var lp :- IndexOf(commands, commands[i].instr.parameters[0]);
      if lp >= i then LoopsFrom(commands, i - 1, [commands[i]] + acc, fuel, pops)
      else
        var loop :- LoopOf(commands, lp, i, fuel, pops);
        LoopsFrom(loop.1, lp - 1, [loop.0] + acc, fuel, pops)
  }

  /** The `WhileIntermediate` for a branch at `i` back to the label at `lp`,
      and the list with the loop's breaks marked. */
  function LoopOf(commands: seq<Item>, lp: nat, i: nat, fuel: nat, pops: Arity): (r: Outcome<(Item, seq<Item>)>)
    requires lp < i < |commands| && IsCmd(commands[i], {0x34, 0x35})
    ensures r.Ok? ==> |r.value.1| == |commands| && i + 1 < |commands|
    ensures r.Ok? ==> forall k :: 0 <= k < |commands| ==>
                        r.value.1[k] == if lp <= k < i && commands[i + 1].Lbl? && BreaksTo(commands[k], commands[i + 1].lab)
                                        then BreakItem else commands[k]
    ensures r.Ok? ==> r.value.0.WhileBlock? && r.value.0.isIfNot == (commands[i].instr.command == 0x35)
                      && DoWhileTest(commands, lp, i) == Ok(r.value.0.isDoWhile)
                      && Loops(r.value.1[lp..i], fuel, pops).Ok?
                      && Groups(Loops(r.value.1[lp..i], fuel, pops).value, fuel, pops) == Ok(r.value.0.body)
    decreases |commands|, i + 1, 0
  {
    var isIfNot := commands[i].instr.command == 0x35;
    var isDoWhile :- DoWhileTest(commands, lp, i);
    if i + 1 >= |commands| then Raise(IndexError)
    else
      var marked :- if commands[i + 1].Lbl? then Breaks(commands, lp, i, commands[i + 1].lab) else Ok(commands);
      var inner :- Loops(marked[lp..i], fuel, pops);
      var body :- Groups(inner, fuel, pops);
      Ok((WhileBlock(isDoWhile, body, isIfNot), marked))
  }

  /** `pullOutLoops(commands)`, as the source's backward loop; the list is
      updated in place where breaks are marked. */
  method PullOutLoops(commands: seq<Item>, fuel: nat, pops: Arity) returns (r: Outcome<seq<Item>>)
    ensures r == Loops(commands, fuel, pops)
    decreases |commands|, 1
  {
    var cmds := commands;
    var newCommands: seq<Item> := [];
    var i := |cmds| - 1;
    while i >= 0
      invariant -1 <= i < |cmds| && |cmds| == |commands|
      invariant LoopsFrom(cmds, i, newCommands, fuel, pops) == Loops(commands, fuel, pops)
      decreases i + 1
    {
      var cmd := cmds[i];
      if cmd.Cmd? && cmd.instr.command in {0x34, 0x35} {
        if |cmd.instr.parameters| == 0 {
          return Raise(IndexError);
        }
        var labelPosition :- IndexOf(cmds, cmd.instr.parameters[0]);
        if labelPosition < i {
          var loop :- MakeLoop(cmds, labelPosition, i, fuel, pops);
          newCommands := [loop.0] + newCommands;
          cmds := loop.1;
          i := labelPosition;
        } else {
          newCommands := [cmd] + newCommands;
        }
      } else {
        newCommands := [cmd] + newCommands;
      }
      i := i - 1;
    }
    return Ok(newCommands);
  }

  method MakeLoop(commands: seq<Item>, lp: nat, i: nat, fuel: nat, pops: Arity) returns (r: Outcome<(Item, seq<Item>)>)
    requires lp < i < |commands| && IsCmd(commands[i], {0x34, 0x35})
    ensures r == LoopOf(commands, lp, i, fuel, pops)
    decreases |commands|, 0
  {
    var isIfNot := commands[i].instr.command == 0x35;
    var isDoWhile :- DoWhileTest(commands, lp, i);
    if i + 1 >= |commands| {
      return Raise(IndexError);
    }
    var cmds := commands;
    if cmds[i + 1].Lbl? {
      var endLabel := cmds[i + 1].lab;
      var j := lp;
      while j < i
        invariant lp <= j <= i && |cmds| == |commands|
        invariant Breaks(commands, lp, i, endLabel) == Breaks(cmds, j, i, endLabel)
        invariant cmds[i + 1] == commands[i + 1]
      {
        if cmds[j].Cmd? && cmds[j].instr.command in {0x4, 0x5, 0x36} {
          if |cmds[j].instr.parameters| == 0 {
            return Raise(IndexError);
          }
          if cmds[j].instr.parameters[0] == LabelRef(endLabel) {
            cmds := cmds[j := BreakItem];
          }
        }
        j := j + 1;
      }
      assert Breaks(cmds, j, i, endLabel) == Ok(cmds);
    }
    var inner :- PullOutLoops(cmds[lp..i], fuel, pops);
    var body :- PullOutGroups(inner, fuel, pops);
    return Ok((WhileBlock(isDoWhile, body, isIfNot), cmds));
  }
}
