/** The label pass that ends the disassembly of each script: every jump
    target gets a `Label` named `loc_<target in upper-case hex>`, the jumps'
    first parameters are replaced by their labels, and each label is
    inserted into the command list just before the instruction at its
    position. */
module JumpLabels {
  import opened PyOps
  import opened Bytecode

  /** The opcodes whose first parameter is a jump target. */
  const JumpFamily: set<int> := {0x4, 0x5, 0x2e, 0x34, 0x35, 0x36}

  function LocLabel(target: int): Label
  {
    Label("loc_" + UpperHex(target))
  }

  /** Distinct targets get distinct labels. */
  lemma LocLabelInjective(a: int, b: int)
    requires LocLabel(a) == LocLabel(b)
    ensures a == b
  {
    var sa, sb := "loc_" + UpperHex(a), "loc_" + UpperHex(b);
    assert sa == sb;
    assert sa[4..] == UpperHex(a) && sb[4..] == UpperHex(b);
    UpperHexInjective(a, b);
  }

  predicate IsJump(c: Instr)
  {
    c.command in JumpFamily
  }

  /** A jump whose target cannot be formatted: none at all (`IndexError`) or
      not an integer (`TypeError` from `"%X"`). */
  predicate BadJump(c: Instr)
  {
    IsJump(c) && (|c.parameters| == 0 || !c.parameters[0].Int?)
  }

  predicate GoodJump(c: Instr)
  {
    IsJump(c) && |c.parameters| > 0 && c.parameters[0].Int?
  }

  function Target(c: Instr): int
    requires GoodJump(c)
  {
    c.parameters[0].i
  }

  /** The targets of the well-formed jumps among `cmds`. */
  function Targets(cmds: seq<Instr>): set<int>
    decreases |cmds|
  {
    if cmds == [] then {}
    else
      var last := cmds[|cmds| - 1];
      Targets(cmds[..|cmds| - 1]) + (if GoodJump(last) then {Target(last)} else {})
  }

  lemma {:induction false} TargetsMembers(cmds: seq<Instr>, t: int)
    ensures t in Targets(cmds) <==> exists k :: 0 <= k < |cmds| && GoodJump(cmds[k]) && Target(cmds[k]) == t
    decreases |cmds|
  {
    if cmds != [] {
      var front := cmds[..|cmds| - 1];
      TargetsMembers(front, t);
      assert forall k :: 0 <= k < |front| ==> front[k] == cmds[k];
    }
  }

  /** The jump with its target replaced by the target's label. */
  function Relabel(c: Instr): (d: Instr)
    requires GoodJump(c)
    ensures d.command == c.command && d.pushBit == c.pushBit && d.commandPosition == c.commandPosition
    ensures |d.parameters| == |c.parameters| && d.parameters[0] == LabelRef(LocLabel(Target(c)))
    ensures forall k :: 1 <= k < |c.parameters| ==> d.parameters[k] == c.parameters[k]
  {
    c.(parameters := c.parameters[0 := LabelRef(LocLabel(Target(c)))])
  }

  /** `k` is the first well-formed jump to its target. */
  predicate FirstJumpTo(cmds: seq<Instr>, k: nat)
    requires k < |cmds| && GoodJump(cmds[k])
  {
    Target(cmds[k]) !in Targets(cmds[..k])
  }

  /** That is, no earlier well-formed jump has the same target. */
  lemma FirstJumpToMeaning(cmds: seq<Instr>, k: nat)
    requires k < |cmds| && GoodJump(cmds[k])
    ensures FirstJumpTo(cmds, k) <==> forall j :: 0 <= j < k && GoodJump(cmds[j]) ==> Target(cmds[j]) != Target(cmds[k])
  {
    TargetsMembers(cmds[..k], Target(cmds[k]));
    assert forall j :: 0 <= j < k ==> cmds[..k][j] == cmds[j];
  }

  /** What the disasm.py loop leaves at index `k`. */
  function FirstRelabelled(cmds: seq<Instr>, k: nat): Instr
    requires k < |cmds|
  {
    if GoodJump(cmds[k]) && FirstJumpTo(cmds, k) then Relabel(cmds[k]) else cmds[k]
  }

  /** What the disasmlib.py loop leaves at index `k`. */
  function Relabelled(cmds: seq<Instr>, k: nat): Instr
    requires k < |cmds|
  {
    if GoodJump(cmds[k]) then Relabel(cmds[k]) else cmds[k]
  }

  /** The instructions after the disasmlib.py loop. */
  function RelabelAll(cmds: seq<Instr>): (out: seq<Instr>)
    ensures |out| == |cmds|
  {
    seq(|cmds|, k requires 0 <= k < |cmds| => Relabelled(cmds, k))
  }

  lemma RelabelAllIs(cmds: seq<Instr>, out: seq<Instr>)
    requires |out| == |cmds| && forall k :: 0 <= k < |cmds| ==> out[k] == Relabelled(cmds, k)
    ensures out == RelabelAll(cmds)
  {
  }

  lemma FirstRelabelAllIs(cmds: seq<Instr>, out: seq<Instr>)
    requires |out| == |cmds| && forall k :: 0 <= k < |cmds| ==> out[k] == FirstRelabelled(cmds, k)
    ensures out == FirstRelabelAll(cmds)
  {
  }

  /** The instructions after the disasm.py loop. */
  function FirstRelabelAll(cmds: seq<Instr>): (out: seq<Instr>)
    ensures |out| == |cmds|
  {
    seq(|cmds|, k requires 0 <= k < |cmds| => FirstRelabelled(cmds, k))
  }

  lemma FirstStep(cmds: seq<Instr>, k: nat, seen: map<int, Label>)
    requires k < |cmds| && GoodJump(cmds[k]) && seen.Keys == Targets(cmds[..k])
    ensures FirstRelabelled(cmds, k) == if Target(cmds[k]) in seen then cmds[k]
      else cmds[k].(parameters := cmds[k].parameters[0 := LabelRef(LocLabel(Target(cmds[k])))])
  {
  }

  lemma TargetsPrefix(cmds: seq<Instr>, k: nat)
    requires k < |cmds|
    ensures Targets(cmds[..k + 1]) == Targets(cmds[..k]) + (if GoodJump(cmds[k]) then {Target(cmds[k])} else {})
  {
    assert cmds[..k + 1][..k] == cmds[..k];
  }

  lemma RelabelledSnoc(cmds: seq<Instr>, out: seq<Instr>, x: Instr)
    requires |out| < |cmds| && forall j :: 0 <= j < |out| ==> out[j] == Relabelled(cmds, j)
    requires x == Relabelled(cmds, |out|)
    ensures forall j :: 0 <= j < |out| + 1 ==> (out + [x])[j] == Relabelled(cmds, j)
  {
  }

  lemma FirstRelabelledSnoc(cmds: seq<Instr>, out: seq<Instr>, x: Instr)
    requires |out| < |cmds| && forall j :: 0 <= j < |out| ==> out[j] == FirstRelabelled(cmds, j)
    requires x == FirstRelabelled(cmds, |out|)
    ensures forall j :: 0 <= j < |out| + 1 ==> (out + [x])[j] == FirstRelabelled(cmds, j)
  {
  }

  /** After `k` steps of either loop: no bad jump so far, and `seen` maps
      every target met to its label. */
  ghost predicate SeenUpTo(cmds: seq<Instr>, k: nat, seen: map<int, Label>)
    requires k <= |cmds|
  {
    (forall j :: 0 <= j < k ==> !BadJump(cmds[j]))
    && seen.Keys == Targets(cmds[..k])
    && (forall t :: t in seen ==> seen[t] == LocLabel(t))
  }

  /** One step of the disasmlib.py loop, at instruction `k`. */
  method LabelJump(cmds: seq<Instr>, k: nat, out: seq<Instr>, seen: map<int, Label>)
    returns (r: Outcome<(seq<Instr>, map<int, Label>)>)
    requires k < |cmds| && |out| == k && SeenUpTo(cmds, k, seen)
    requires forall j :: 0 <= j < k ==> out[j] == Relabelled(cmds, j)
    ensures r.Raise? <==> BadJump(cmds[k])
    ensures r.Ok? ==> |r.value.0| == k + 1 && SeenUpTo(cmds, k + 1, r.value.1)
    ensures r.Ok? ==> forall j :: 0 <= j < k + 1 ==> r.value.0[j] == Relabelled(cmds, j)
  {
    var c := cmds[k];
    TargetsPrefix(cmds, k);
    if !IsJump(c) {
      RelabelledSnoc(cmds, out, c);
      return Ok((out + [c], seen));
    }
    if |c.parameters| == 0 {
      return Raise(IndexError);
    }
    var target := c.parameters[0];
    if !target.Int? {
      return Raise(TypeError);
    }
    var jumpPositions := seen;
    if target.i !in jumpPositions {
      jumpPositions := jumpPositions[target.i := LocLabel(target.i)];
    }
    var relabelled := c.(parameters := c.parameters[0 := LabelRef(jumpPositions[target.i])]);
    RelabelledSnoc(cmds, out, relabelled);
    return Ok((out + [relabelled], jumpPositions));
  }

  /** The first loop of the pass in disasmlib.py (lines 218-223): every jump
      gets the label of its target, one label per distinct target.  The map
      returned is `jumpPositions`, keyed by the target. */
  method LabelJumps(cmds: seq<Instr>) returns (r: Outcome<(seq<Instr>, map<int, Label>)>)
    ensures r.Raise? <==> exists k :: 0 <= k < |cmds| && BadJump(cmds[k])
    ensures r.Ok? ==> r.value.1.Keys == Targets(cmds)
    ensures r.Ok? ==> forall t :: t in r.value.1 ==> r.value.1[t] == LocLabel(t)
    ensures r.Ok? ==> |r.value.0| == |cmds|
    ensures r.Ok? ==> r.value.0 == RelabelAll(cmds)
  {
    var out: seq<Instr> := [];
    var jumpPositions: map<int, Label> := map[];
    var k := 0;
    while k < |cmds|
      invariant 0 <= k <= |cmds| && |out| == k
      invariant SeenUpTo(cmds, k, jumpPositions)
      invariant forall j :: 0 <= j < k ==> out[j] == Relabelled(cmds, j)
    {
      var step := LabelJump(cmds, k, out, jumpPositions);
      if step.Raise? {
        return Raise(step.error);
      }
      out, jumpPositions := step.value.0, step.value.1;
      k := k + 1;
    }
    assert cmds[..k] == cmds;
    RelabelAllIs(cmds, out);
    return Ok((out, jumpPositions));
  }

  /** One step of the disasm.py loop, at instruction `k`. */
  method LabelFirstJump(cmds: seq<Instr>, k: nat, out: seq<Instr>, seen: map<int, Label>)
    returns (r: Outcome<(seq<Instr>, map<int, Label>)>)
    requires k < |cmds| && |out| == k && SeenUpTo(cmds, k, seen)
    requires forall j :: 0 <= j < k ==> out[j] == FirstRelabelled(cmds, j)
    ensures r.Raise? <==> BadJump(cmds[k])
    ensures r.Ok? ==> |r.value.0| == k + 1 && SeenUpTo(cmds, k + 1, r.value.1)
    ensures r.Ok? ==> forall j :: 0 <= j < k + 1 ==> r.value.0[j] == FirstRelabelled(cmds, j)
  {
    var c := cmds[k];
    TargetsPrefix(cmds, k);
    if !IsJump(c) {
      FirstRelabelledSnoc(cmds, out, c);
      return Ok((out + [c], seen));
    }
    if |c.parameters| == 0 {
      return Raise(IndexError);
    }
    var target := c.parameters[0];
    if !target.Int? {
      return Raise(TypeError);
    }
    FirstStep(cmds, k, seen);
    if target.i in seen {
      FirstRelabelledSnoc(cmds, out, c);
      return Ok((out + [c], seen));
    }
    var jumpPositions := seen[target.i := LocLabel(target.i)];
    var relabelled := c.(parameters := c.parameters[0 := LabelRef(jumpPositions[target.i])]);
    FirstRelabelledSnoc(cmds, out, relabelled);
    return Ok((out + [relabelled], jumpPositions));
  }

  /** The same loop in disasm.py (lines 168-173): the replacement sits inside
      the test for a new target, so only the first jump to each target gets
      its label and later ones keep the integer. */
  method LabelFirstJumps(cmds: seq<Instr>) returns (r: Outcome<(seq<Instr>, map<int, Label>)>)
    ensures r.Raise? <==> exists k :: 0 <= k < |cmds| && BadJump(cmds[k])
    ensures r.Ok? ==> r.value.1.Keys == Targets(cmds)
    ensures r.Ok? ==> forall t :: t in r.value.1 ==> r.value.1[t] == LocLabel(t)
    ensures r.Ok? ==> |r.value.0| == |cmds|
    ensures r.Ok? ==> r.value.0 == FirstRelabelAll(cmds)
  {
    var out: seq<Instr> := [];
    var jumpPositions: map<int, Label> := map[];
    var k := 0;
    while k < |cmds|
      invariant 0 <= k <= |cmds| && |out| == k
      invariant SeenUpTo(cmds, k, jumpPositions)
      invariant forall j :: 0 <= j < k ==> out[j] == FirstRelabelled(cmds, j)
    {
      var step := LabelFirstJump(cmds, k, out, jumpPositions);
      if step.Raise? {
        return Raise(step.error);
      }
      out, jumpPositions := step.value.0, step.value.1;
      k := k + 1;
    }
    assert cmds[..k] == cmds;
    FirstRelabelAllIs(cmds, out);
    return Ok((out, jumpPositions));
  }

  /** The label, if any, that goes just before an instruction. */
  function LabelBefore(c: Instr, labels: map<int, Label>): seq<Item>
  {
    if c.commandPosition in labels then [Lbl(labels[c.commandPosition])] else []
  }

  /** The command list after the labels are inserted. */
  function Labelled(cmds: seq<Instr>, labels: map<int, Label>): seq<Item>
    decreases |cmds|
  {
    if cmds == [] then []
    else Labelled(cmds[..|cmds| - 1], labels) + LabelBefore(cmds[|cmds| - 1], labels) + [Cmd(cmds[|cmds| - 1])]
  }

  /** The command list before: every instruction as an item. */
  function Cmds(cmds: seq<Instr>): (items: seq<Item>)
    ensures |items| == |cmds| && forall k :: 0 <= k < |cmds| ==> items[k] == Cmd(cmds[k])
  {
    seq(|cmds|, k requires 0 <= k < |cmds| => Cmd(cmds[k]))
  }

  lemma LabelledSnoc(cmds: seq<Instr>, labels: map<int, Label>, n: nat)
    requires n < |cmds|
    ensures Labelled(cmds[..n + 1], labels) == Labelled(cmds[..n], labels) + LabelBefore(cmds[n], labels) + [Cmd(cmds[n])]
  {
    assert cmds[..n + 1][..n] == cmds[..n];
  }

  lemma CmdsUncons(cmds: seq<Instr>, n: nat)
    requires n < |cmds|
    ensures Cmds(cmds[n..]) == [Cmd(cmds[n])] + Cmds(cmds[n + 1..])
  {
  }

  /** One step of the loop: the label for `c`, if any, goes in at `|done|`. */
  lemma InsertStep(done: seq<Item>, c: Instr, rest: seq<Item>, labels: map<int, Label>)
    ensures var items := done + [Cmd(c)] + rest;
      (if c.commandPosition in labels then items[..|done|] + [Lbl(labels[c.commandPosition])] + items[|done|..] else items)
      == done + LabelBefore(c, labels) + [Cmd(c)] + rest
  {
    var items := done + [Cmd(c)] + rest;
    assert items[..|done|] == done;
    assert items[|done|..] == [Cmd(c)] + rest;
  }

  /** One pass of the loop below keeps its invariant. */
  lemma InsertInvariant(cmds: seq<Instr>, labels: map<int, Label>, n: nat, items: seq<Item>)
    requires n < |cmds| && items == Labelled(cmds[..n], labels) + Cmds(cmds[n..])
    ensures var j := |Labelled(cmds[..n], labels)|;
      && j < |items| && items[j] == Cmd(cmds[n])
      && (if cmds[n].commandPosition in labels then items[..j] + [Lbl(labels[cmds[n].commandPosition])] + items[j..] else items)
         == Labelled(cmds[..n + 1], labels) + Cmds(cmds[n + 1..])
      && |Labelled(cmds[..n + 1], labels)| == j + (if cmds[n].commandPosition in labels then 2 else 1)
  {
    var done, c, rest := Labelled(cmds[..n], labels), cmds[n], Cmds(cmds[n + 1..]);
    CmdsUncons(cmds, n);
    assert items == done + [Cmd(c)] + rest;
    InsertStep(done, c, rest, labels);
    LabelledSnoc(cmds, labels, n);
  }

  /** The second loop of the pass (disasmlib.py lines 225-232, disasm.py
      lines 175-182), inserting labels into the list it walks and stepping
      over each one it inserts. */
  method InsertLabels(cmds: seq<Instr>, labels: map<int, Label>) returns (items: seq<Item>)
    ensures items == Labelled(cmds, labels)
  {
    items := Cmds(cmds);
    var j := 0;
    ghost var n := 0;
    assert cmds[n..] == cmds;
    while j < |items|
      invariant 0 <= n <= |cmds|
      invariant items == Labelled(cmds[..n], labels) + Cmds(cmds[n..])
      invariant j == |Labelled(cmds[..n], labels)|
      decreases |cmds| - n
    {
      InsertInvariant(cmds, labels, n, items);
      var cmd := items[j];
      if cmd.Cmd? && cmd.instr.commandPosition in labels {
        items := items[..j] + [Lbl(labels[cmd.instr.commandPosition])] + items[j..];
        j := j + 1;
      }
      j := j + 1;
      n := n + 1;
    }
    assert cmds[..n] == cmds;
  }

  /** The items with the labels taken out. */
  function StripLabels(items: seq<Item>): seq<Item>
    decreases |items|
  {
    if items == [] then []
    else StripLabels(items[..|items| - 1]) + (if items[|items| - 1].Lbl? then [] else [items[|items| - 1]])
  }

  lemma {:induction false} StripLabelsAppend(a: seq<Item>, b: seq<Item>)
    ensures StripLabels(a + b) == StripLabels(a) + StripLabels(b)
    decreases |b|
  {
    if b == [] {
      assert a + b == a;
    } else {
      var b' := b[..|b| - 1];
      assert (a + b)[..|a + b| - 1] == a + b';
      StripLabelsAppend(a, b');
    }
  }

  lemma StripBeforeCmd(a: seq<Item>, c: Instr, labels: map<int, Label>)
    ensures StripLabels(a + LabelBefore(c, labels) + [Cmd(c)]) == StripLabels(a) + [Cmd(c)]
  {
    var b := LabelBefore(c, labels);
    StripLabelsAppend(a + b, [Cmd(c)]);
    StripLabelsAppend(a, b);
    assert StripLabels([Cmd(c)]) == [Cmd(c)] by {
      assert [Cmd(c)][..0] == [];
    }
    assert StripLabels(b) == [] by {
      if b != [] { assert b[..0] == []; }
    }
  }

  lemma CmdsSnoc(cmds: seq<Instr>)
    requires cmds != []
    ensures Cmds(cmds) == Cmds(cmds[..|cmds| - 1]) + [Cmd(cmds[|cmds| - 1])]
  {
  }

  /** Inserting labels keeps the instructions and their order: taking the
      labels out again gives back the list before. */
  lemma {:induction false} LabelsStripBack(cmds: seq<Instr>, labels: map<int, Label>)
    ensures StripLabels(Labelled(cmds, labels)) == Cmds(cmds)
    decreases |cmds|
  {
    if cmds != [] {
      var front, last := cmds[..|cmds| - 1], cmds[|cmds| - 1];
      LabelsStripBack(front, labels);
      StripBeforeCmd(Labelled(front, labels), last, labels);
      CmdsSnoc(cmds);
    }
  }

  /** Every label stands immediately before the instruction at its target,
      and every instruction at a target has its label immediately before
      it. */
  lemma {:induction false} LabelsAdjacent(cmds: seq<Instr>, labels: map<int, Label>)
    ensures forall t :: 0 <= t < |Labelled(cmds, labels)| && Labelled(cmds, labels)[t].Lbl? ==>
      t + 1 < |Labelled(cmds, labels)| && Labelled(cmds, labels)[t + 1].Cmd?
      && Labelled(cmds, labels)[t + 1].instr.commandPosition in labels
      && Labelled(cmds, labels)[t].lab == labels[Labelled(cmds, labels)[t + 1].instr.commandPosition]
    ensures forall t :: (0 <= t < |Labelled(cmds, labels)| && Labelled(cmds, labels)[t].Cmd?
                         && Labelled(cmds, labels)[t].instr.commandPosition in labels) ==>
      t > 0 && Labelled(cmds, labels)[t - 1] == Lbl(labels[Labelled(cmds, labels)[t].instr.commandPosition])
    decreases |cmds|
  {
    if cmds != [] {
      var front, last := cmds[..|cmds| - 1], cmds[|cmds| - 1];
      LabelsAdjacent(front, labels);
      var a := Labelled(front, labels);
      var L := Labelled(cmds, labels);
      assert L == a + LabelBefore(last, labels) + [Cmd(last)];
      forall t | 0 <= t < |L| && L[t].Lbl?
        ensures t + 1 < |L| && L[t + 1].Cmd? && L[t + 1].instr.commandPosition in labels
          && L[t].lab == labels[L[t + 1].instr.commandPosition]
      {
        if t < |a| {
          assert a[t] == L[t];
          assert a[t + 1] == L[t + 1];
        }
      }
      forall t | 0 <= t < |L| && L[t].Cmd? && L[t].instr.commandPosition in labels
        ensures t > 0 && L[t - 1] == Lbl(labels[L[t].instr.commandPosition])
      {
        if t < |a| {
          assert a[t] == L[t];
          assert a[t - 1] == L[t - 1];
        }
      }
    }
  }

  /** The label of every instruction at a target is in the list. */
  lemma {:induction false} LabelPresent(cmds: seq<Instr>, labels: map<int, Label>, k: nat)
    requires k < |cmds| && cmds[k].commandPosition in labels
    ensures Lbl(labels[cmds[k].commandPosition]) in Labelled(cmds, labels)
    decreases |cmds|
  {
    var front, last := cmds[..|cmds| - 1], cmds[|cmds| - 1];
    if k < |cmds| - 1 {
      assert front[k] == cmds[k];
      LabelPresent(front, labels, k);
    }
  }

  /** With the labels of the pass, a jump to a target that is the position
      of an instruction can be followed: the first item equal to its label
      exists, and the item after it is an instruction at that position. */
  lemma JumpResolves(cmds: seq<Instr>, labels: map<int, Label>, target: int, k: nat)
    requires forall t :: t in labels ==> labels[t] == LocLabel(t)
    requires target in labels && k < |cmds| && cmds[k].commandPosition == target
    ensures IndexOfTarget(Labelled(cmds, labels), LabelRef(LocLabel(target))).Some?
    ensures var at := IndexOfTarget(Labelled(cmds, labels), LabelRef(LocLabel(target))).value;
      at + 1 < |Labelled(cmds, labels)| && Labelled(cmds, labels)[at + 1].Cmd?
      && Labelled(cmds, labels)[at + 1].instr.commandPosition == target
  {
    var L := Labelled(cmds, labels);
    LabelPresent(cmds, labels, k);
    LabelsAdjacent(cmds, labels);
    var found := IndexOfTarget(L, LabelRef(LocLabel(target)));
    assert found.Some?;
    var at := found.value;
    assert L[at].Lbl?;
    var p := L[at + 1].instr.commandPosition;
    assert labels[p] == LocLabel(target);
    LocLabelInjective(p, target);
  }
}
