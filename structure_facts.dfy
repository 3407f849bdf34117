/** What the structurer guarantees: every call, branch and cast marker is
    consumed, straight-line code passes through unchanged, casts land after
    the value they convert, and the quirks of the source (the doubled block,
    the do-while test on label operands) show on concrete inputs. */
module StructureFacts {
  import opened PyOps
  import opened Bytecode
  import opened Structure

  /** A command that the grouping pass has to consume: a call, a branch or a
      cast marker. */
  predicate Marker(x: Item)
  {
    IsCmd(x, {0x2e, 0x34, 0x35, 0x38, 0x39})
  }

  /** No marker at any depth. */
  predicate Settled(x: Item)
    decreases x
  {
    !Marker(x) &&
    match x
    case CallGroup(_, items) => forall k :: 0 <= k < |items| ==> Settled(items[k])
    case IfElseBlock(_, _, ifItems, NoElse) => forall k :: 0 <= k < |ifItems| ==> Settled(ifItems[k])
    case IfElseBlock(_, _, ifItems, Else(elseItems)) =>
      (forall k :: 0 <= k < |ifItems| ==> Settled(ifItems[k])) && (forall k :: 0 <= k < |elseItems| ==> Settled(elseItems[k]))
    case WhileBlock(_, body, _) => forall k :: 0 <= k < |body| ==> Settled(body[k])
    case _ => true
  }

  predicate AllSettled(s: seq<Item>)
  {
    forall k :: 0 <= k < |s| ==> Settled(s[k])
  }

  /** Input the passes accept: plain commands, and structured items only when
      they are settled already. */
  predicate Ready(s: seq<Item>)
  {
    forall k :: 0 <= k < |s| ==> s[k].Cmd? || Settled(s[k])
  }

  lemma ReadySlice(c: seq<Item>, a: int, b: int)
    requires Ready(c)
    ensures Ready(Slice(c, a, b))
  {
    var lo := Clamp(a, |c|);
    var hi := Clamp(b, |c|);
    if lo < hi {
      assert Slice(c, a, b) == c[lo..hi];
      forall k | 0 <= k < hi - lo ensures c[lo..hi][k].Cmd? || Settled(c[lo..hi][k]) {
        assert c[lo..hi][k] == c[lo + k];
      }
    }
  }

  lemma ReadySub(c: seq<Item>, a: nat, b: nat)
    requires Ready(c) && a <= b <= |c|
    ensures Ready(c[a..b])
  {
    forall k | 0 <= k < b - a ensures c[a..b][k].Cmd? || Settled(c[a..b][k]) {
      assert c[a..b][k] == c[a + k];
    }
  }

  lemma CastInsertedSettled(nc: seq<Item>, marker: Instr, pops: Arity)
    requires AllSettled(nc)
    ensures CastInserted(nc, marker, pops).Ok? ==> AllSettled(CastInserted(nc, marker, pops).value)
  {
    var p := CastPosition(nc, |nc| - 1, marker, pops);
    if p.Ok? && p.value.Some? {
      var q := p.value.value;
      var r := nc[..q + 1] + [CastItem(CastType(marker.command))] + nc[q + 1..];
      forall k | 0 <= k < |r| ensures Settled(r[k]) {
        if k <= q {
          assert r[k] == nc[k];
        } else if k > q + 1 {
          assert r[k] == nc[k - 1];
        }
      }
    }
  }

  /** The result of the grouping pass is settled throughout when its input is
      ready (mscdec.py:469-555). */
  lemma {:induction false} GroupsSettled(c: seq<Item>, fuel: nat, pops: Arity)
    requires Ready(c)
    ensures Groups(c, fuel, pops).Ok? ==> AllSettled(Groups(c, fuel, pops).value)
    decreases |c|, fuel, |c| + 1, 4
  {
    GroupsFromSettled(c, 0, [], fuel, pops);
  }

  lemma {:induction false} GroupsFromSettled(c: seq<Item>, i: nat, acc: seq<Item>, fuel: nat, pops: Arity)
    requires i <= |c| && Ready(c) && AllSettled(acc)
    ensures GroupsFrom(c, i, acc, fuel, pops).Ok? ==> AllSettled(GroupsFrom(c, i, acc, fuel, pops).value)
    decreases |c|, fuel, |c| - i, 3
  {
    if i < |c| {
      GroupStepSettled(c, i, acc, fuel, pops);
      var step := GroupStep(c, i, acc, fuel, pops);
      if step.Ok? {
        var next := step.value.1 + 1;
        if next > i {
          GroupsFromSettled(c, next, step.value.0, fuel, pops);
        } else if fuel > 0 {
          GroupsFromSettled(c, next, step.value.0, fuel - 1, pops);
        }
      }
    }
  }

  lemma {:induction false} GroupStepSettled(c: seq<Item>, i: nat, acc: seq<Item>, fuel: nat, pops: Arity)
    requires i < |c| && Ready(c) && AllSettled(acc)
    ensures GroupStep(c, i, acc, fuel, pops).Ok? ==> AllSettled(GroupStep(c, i, acc, fuel, pops).value.0)
    decreases |c|, fuel, |c| - i, 2
  {
    var x := c[i];
    if IsCmd(x, {0x2e}) {
      if |x.instr.parameters| > 0 {
        var k := FirstEnd(c, i + 1, x.instr.parameters[0]);
        if k.Some? {
          ReadySub(c, i + 1, k.value + 1);
          GroupsSettled(c[i + 1..k.value + 1], fuel, pops);
        }
      }
    } else if IsCmd(x, {0x38, 0x39}) {
      CastInsertedSettled(acc, x.instr, pops);
    } else if IsCmd(x, {0x34, 0x35}) {
      IfGroupSettled(c, i, acc, fuel, pops);
    }
  }

  lemma BlockSettled(isNot: bool, pushBit: bool, ifItems: seq<Item>, elseItems: ElsePart)
    requires AllSettled(ifItems) && (elseItems.Else? ==> AllSettled(elseItems.items))
    ensures Settled(IfElseBlock(isNot, pushBit, ifItems, elseItems))
  {
  }

  lemma AppendSettled(acc: seq<Item>, more: seq<Item>)
    requires AllSettled(acc) && AllSettled(more)
    ensures AllSettled(acc + more)
  {
    forall k | 0 <= k < |acc + more| ensures Settled((acc + more)[k]) {
      if k >= |acc| { assert (acc + more)[k] == more[k - |acc|]; }
    }
  }

  lemma {:induction false} IfGroupSettled(c: seq<Item>, i: nat, acc: seq<Item>, fuel: nat, pops: Arity)
    requires i < |c| && IsCmd(c[i], {0x34, 0x35}) && Ready(c) && AllSettled(acc)
    ensures IfGroup(c, i, acc, fuel, pops).Ok? ==> AllSettled(IfGroup(c, i, acc, fuel, pops).value.0)
    decreases |c|, fuel, |c| - i, 1
  {
    var x := c[i].instr;
    var isIfNot := x.command == 0x35;
    if |x.parameters| > 0 {
      var lp := IndexOf(c, x.parameters[0]);
      if lp.Ok? && lp.value == i + 1 {
        BlockSettled(isIfNot, false, [], NoElse);
        AppendSettled(acc, [IfElseBlock(isIfNot, false, [], NoElse)]);
      } else if lp.Ok? && lp.value > i + 1 {
        if IsCmd(c[lp.value - 1], {0x34, 0x35}) {
          NestedIfSettled(c, i, lp.value, acc, fuel, pops);
        } else if IsCmd(c[lp.value - 1], {0x36}) {
          ElseSettled(c, i, lp.value, acc, fuel, pops);
        } else {
          PlainIfSettled(c, i, lp.value, acc, fuel, pops);
        }
      }
    }
  }

  lemma {:induction false} PlainIfSettled(c: seq<Item>, i: nat, lp: nat, acc: seq<Item>, fuel: nat, pops: Arity)
    requires i + 1 < lp < |c| && IsCmd(c[i], {0x34, 0x35}) && Ready(c) && AllSettled(acc)
    ensures var ifs := Groups(c[i + 1..lp + 1], fuel, pops);
            ifs.Ok? ==> AllSettled(acc + [IfElseBlock(c[i].instr.command == 0x35, false, ifs.value, NoElse)])
    decreases |c|, fuel, |c| - i, 0
  {
    ReadySub(c, i + 1, lp + 1);
    GroupsSettled(c[i + 1..lp + 1], fuel, pops);
    var ifs := Groups(c[i + 1..lp + 1], fuel, pops);
    if ifs.Ok? {
      var isIfNot := c[i].instr.command == 0x35;
      BlockSettled(isIfNot, false, ifs.value, NoElse);
      AppendSettled(acc, [IfElseBlock(isIfNot, false, ifs.value, NoElse)]);
    }
  }

  lemma {:induction false} NestedIfSettled(c: seq<Item>, i: nat, lp: nat, acc: seq<Item>, fuel: nat, pops: Arity)
    requires i + 1 < lp < |c| && IsCmd(c[i], {0x34, 0x35}) && IsCmd(c[lp - 1], {0x34, 0x35})
    requires Ready(c) && AllSettled(acc)
    ensures NestedIfGroup(c, i, lp, acc, fuel, pops).Ok? ==> AllSettled(NestedIfGroup(c, i, lp, acc, fuel, pops).value.0)
    decreases |c|, fuel, |c| - i, 0
  {
    var inner := c[lp - 1].instr;
    if |inner.parameters| > 0 {
      var b := IndexOf(c, inner.parameters[0]);
      if b.Ok? {
        var before := if b.value == 0 then c[|c| - 1] else c[b.value - 1];
        if IsCmd(before, {0x36}) {
          NestedElseSettled(c, i, lp, b.value, before.instr, acc, fuel, pops);
        } else if lp == b.value {
          NestedSameLabelSettled(c, i, lp, acc, fuel, pops);
        }
      }
    }
  }

  lemma {:induction false} NestedElseSettled(c: seq<Item>, i: nat, lp: nat, b: nat, m: Instr, acc: seq<Item>, fuel: nat, pops: Arity)
    requires i + 1 < lp < |c| && IsCmd(c[i], {0x34, 0x35}) && Ready(c) && AllSettled(acc)
    ensures NestedElseGroup(c, i, lp, b, m, acc, fuel, pops).Ok? ==> AllSettled(NestedElseGroup(c, i, lp, b, m, acc, fuel, pops).value.0)
    decreases |c|, fuel, |c| - i, -1, 1
  {
    if |m.parameters| > 0 {
      var e := IndexOf(c, m.parameters[0]);
      if e.Ok? {
        NestedElseFoundSettled(c, i, lp, b, m, e.value, acc, fuel, pops);
      }
    }
  }

  lemma {:induction false} NestedElseFoundSettled(c: seq<Item>, i: nat, lp: nat, b: nat, m: Instr, e: nat, acc: seq<Item>, fuel: nat, pops: Arity)
    requires i + 1 < lp < |c| && IsCmd(c[i], {0x34, 0x35}) && Ready(c) && AllSettled(acc)
    requires m.parameters != [] && IndexOf(c, m.parameters[0]) == Ok(e)
    ensures NestedElseGroup(c, i, lp, b, m, acc, fuel, pops).Ok? ==> AllSettled(NestedElseGroup(c, i, lp, b, m, acc, fuel, pops).value.0)
    decreases |c|, fuel, |c| - i, -1, 0
  {
    var isIfNot := c[i].instr.command == 0x35;
    var ifPart := Slice(c, i + 1, e + 1);
    var elsePart := Slice(c, lp + 1, b as int - 1);
    SlicesReady(c, i + 1, e + 1, lp + 1, b as int - 1);
    ElseBlockSettled(c, isIfNot, ifPart, elsePart, fuel, pops);
    NestedElseShape(c, i, lp, b, m, e, acc, fuel, pops);
    var blk := ElseBlock(c, isIfNot, ifPart, elsePart, fuel, pops);
    if blk.Ok? {
      AppendSettled(acc, [blk.value]);
    }
  }

  lemma NestedElseShape(c: seq<Item>, i: nat, lp: nat, b: nat, m: Instr, e: nat, acc: seq<Item>, fuel: nat, pops: Arity)
    requires i + 1 < lp < |c| && IsCmd(c[i], {0x34, 0x35}) && m.parameters != [] && IndexOf(c, m.parameters[0]) == Ok(e)
    ensures var blk := ElseBlock(c, c[i].instr.command == 0x35, Slice(c, i + 1, e + 1), Slice(c, lp + 1, b as int - 1), fuel, pops);
            NestedElseGroup(c, i, lp, b, m, acc, fuel, pops) == if blk.Ok? then Ok((acc + [blk.value], e)) else Raise(blk.error)
  {
  }

  lemma SlicesReady(c: seq<Item>, a1: int, b1: int, a2: int, b2: int)
    requires Ready(c)
    ensures Ready(Slice(c, a1, b1)) && Ready(Slice(c, a2, b2))
  {
    ReadySlice(c, a1, b1);
    ReadySlice(c, a2, b2);
  }

  lemma {:induction false} NestedSameLabelSettled(c: seq<Item>, i: nat, lp: nat, acc: seq<Item>, fuel: nat, pops: Arity)
    requires i + 1 < lp < |c| && IsCmd(c[i], {0x34, 0x35}) && IsCmd(c[lp - 1], {0x34, 0x35})
    requires Ready(c) && AllSettled(acc)
    requires c[lp - 1].instr.parameters != [] && IndexOf(c, c[lp - 1].instr.parameters[0]) == Ok(lp)
    ensures NestedIfGroup(c, i, lp, acc, fuel, pops).Ok? ==> AllSettled(NestedIfGroup(c, i, lp, acc, fuel, pops).value.0)
    decreases |c|, fuel, |c| - i, -1
  {
    var isIfNot := c[i].instr.command == 0x35;
    ReadySub(c, i + 1, lp + 1);
    GroupsSettled(c[i + 1..lp + 1], fuel, pops);
    NestedSameLabelShape(c, i, lp, acc, fuel, pops);
    var ifs := Groups(c[i + 1..lp + 1], fuel, pops);
    if ifs.Ok? {
      TwiceSettled(acc, IfElseBlock(isIfNot, false, ifs.value, NoElse));
    }
  }

  lemma NestedSameLabelShape(c: seq<Item>, i: nat, lp: nat, acc: seq<Item>, fuel: nat, pops: Arity)
    requires i + 1 < lp < |c| && IsCmd(c[i], {0x34, 0x35}) && IsCmd(c[lp - 1], {0x34, 0x35})
    requires c[lp - 1].instr.parameters != [] && IndexOf(c, c[lp - 1].instr.parameters[0]) == Ok(lp)
    ensures var ifs := Groups(c[i + 1..lp + 1], fuel, pops);
            ifs.Ok? ==> NestedIfGroup(c, i, lp, acc, fuel, pops)
                        == (var blk := IfElseBlock(c[i].instr.command == 0x35, false, ifs.value, NoElse); Ok((acc + [blk] + [blk], lp)))
    ensures Groups(c[i + 1..lp + 1], fuel, pops).Raise? ==> NestedIfGroup(c, i, lp, acc, fuel, pops).Raise?
  {
  }

  lemma TwiceSettled(acc: seq<Item>, blk: Item)
    requires AllSettled(acc) && blk.IfElseBlock? && blk.elseItems.NoElse? && AllSettled(blk.ifItems) && !Marker(blk)
    ensures AllSettled(acc + [blk] + [blk])
  {
    BlockSettled(blk.isNot, blk.pushBit, blk.ifItems, NoElse);
    AppendSettled(acc, [blk]);
    AppendSettled(acc + [blk], [blk]);
  }

  lemma {:induction false} ElseSettled(c: seq<Item>, i: nat, lp: nat, acc: seq<Item>, fuel: nat, pops: Arity)
    requires i + 1 < lp < |c| && IsCmd(c[i], {0x34, 0x35}) && IsCmd(c[lp - 1], {0x36})
    requires c[i].instr.parameters != []
    requires Ready(c) && AllSettled(acc)
    ensures ElseGroup(c, i, lp, acc, fuel, pops).Ok? ==> AllSettled(ElseGroup(c, i, lp, acc, fuel, pops).value.0)
    decreases |c|, fuel, |c| - i, 0
  {
    var elseMarker := c[lp - 1].instr;
    if |elseMarker.parameters| > 0 {
      var e := IndexOf(c, elseMarker.parameters[0]);
      var copyElse := CopyElse(c, i + 1, lp - 1, c[i].instr.parameters[0]);
      if e.Ok? && copyElse.Ok? {
        ElseFoundSettled(c, i, lp, e.value, copyElse.value, acc, fuel, pops);
      }
    }
  }

  /** The else-group of an if at `i` whose label `lp` follows an else marker
      jumping to `e`. */
  lemma ElseGroupShape(c: seq<Item>, i: nat, lp: nat, e: nat, copyElse: bool, acc: seq<Item>, fuel: nat, pops: Arity)
    requires i + 1 < lp < |c| && IsCmd(c[i], {0x34, 0x35}) && IsCmd(c[lp - 1], {0x36})
    requires c[i].instr.parameters != []
    requires c[lp - 1].instr.parameters != [] && IndexOf(c, c[lp - 1].instr.parameters[0]) == Ok(e)
    requires CopyElse(c, i + 1, lp - 1, c[i].instr.parameters[0]) == Ok(copyElse)
    ensures var ifPart := if copyElse then Slice(c, i + 1, e + 1) else c[i + 1..lp - 1];
            var blk := ElseBlock(c, c[i].instr.command == 0x35, ifPart, Slice(c, lp + 1, e + 1), fuel, pops);
            ElseGroup(c, i, lp, acc, fuel, pops) == if blk.Ok? then Ok((acc + [blk.value], e)) else Raise(blk.error)
  {
  }

  lemma {:induction false} ElseFoundSettled(c: seq<Item>, i: nat, lp: nat, e: nat, copyElse: bool, acc: seq<Item>, fuel: nat, pops: Arity)
    requires i + 1 < lp < |c| && IsCmd(c[i], {0x34, 0x35}) && IsCmd(c[lp - 1], {0x36})
    requires c[i].instr.parameters != []
    requires Ready(c) && AllSettled(acc)
    requires c[lp - 1].instr.parameters != [] && IndexOf(c, c[lp - 1].instr.parameters[0]) == Ok(e)
    requires CopyElse(c, i + 1, lp - 1, c[i].instr.parameters[0]) == Ok(copyElse)
    ensures ElseGroup(c, i, lp, acc, fuel, pops).Ok? ==> AllSettled(ElseGroup(c, i, lp, acc, fuel, pops).value.0)
    decreases |c|, fuel, |c| - i, -1
  {
    var isIfNot := c[i].instr.command == 0x35;
    var ifPart := if copyElse then Slice(c, i + 1, e + 1) else c[i + 1..lp - 1];
    var elsePart := Slice(c, lp + 1, e + 1);
    ElsePartsReady(c, i, lp, e, copyElse);
    ElseBlockSettled(c, isIfNot, ifPart, elsePart, fuel, pops);
    ElseGroupShape(c, i, lp, e, copyElse, acc, fuel, pops);
    var blk := ElseBlock(c, isIfNot, ifPart, elsePart, fuel, pops);
    if blk.Ok? {
      AppendSettled(acc, [blk.value]);
    }
  }

  lemma ElsePartsReady(c: seq<Item>, i: nat, lp: nat, e: nat, copyElse: bool)
    requires i + 1 < lp < |c| && Ready(c)
    ensures Ready(if copyElse then Slice(c, i + 1, e + 1) else c[i + 1..lp - 1])
    ensures Ready(Slice(c, lp + 1, e + 1))
  {
    if copyElse {
      ReadySlice(c, i + 1, e + 1);
    } else {
      ReadySub(c, i + 1, lp - 1);
    }
    ReadySlice(c, lp + 1, e + 1);
  }

  lemma {:induction false} ElseBlockSettled(c: seq<Item>, isIfNot: bool, ifPart: seq<Item>, elsePart: seq<Item>, fuel: nat, pops: Arity)
    requires |ifPart| < |c| && |elsePart| < |c| && Ready(ifPart) && Ready(elsePart)
    ensures ElseBlock(c, isIfNot, ifPart, elsePart, fuel, pops).Ok? ==> Settled(ElseBlock(c, isIfNot, ifPart, elsePart, fuel, pops).value)
    decreases |c|, fuel, 0, -2
  {
    GroupsSettled(ifPart, fuel, pops);
    GroupsSettled(elsePart, fuel, pops);
  }

  /** Marking breaks keeps a list ready. */
  lemma BreaksReady(c: seq<Item>, j: nat, i: nat, lab: Label)
    requires j <= i <= |c| && Ready(c)
    ensures Breaks(c, j, i, lab).Ok? ==> Ready(Breaks(c, j, i, lab).value)
  {
  }

  /** The loop pass keeps a ready list ready; every loop it builds is settled
      (mscdec.py:557-578). */
  lemma {:induction false} LoopsReady(c: seq<Item>, fuel: nat, pops: Arity)
    requires Ready(c)
    ensures Loops(c, fuel, pops).Ok? ==> Ready(Loops(c, fuel, pops).value)
    decreases |c|, |c|, 2
  {
    LoopsFromReady(c, |c| - 1, [], fuel, pops);
  }

  lemma {:induction false} LoopsFromReady(c: seq<Item>, i: int, acc: seq<Item>, fuel: nat, pops: Arity)
    requires -1 <= i < |c| && Ready(c) && Ready(acc)
    ensures LoopsFrom(c, i, acc, fuel, pops).Ok? ==> Ready(LoopsFrom(c, i, acc, fuel, pops).value)
    decreases |c|, i + 1, 1
  {
    if i >= 0 {
      assert Ready([c[i]] + acc) by {
        forall k | 0 <= k < |acc| + 1 ensures ([c[i]] + acc)[k].Cmd? || Settled(([c[i]] + acc)[k]) {
          if k > 0 { assert ([c[i]] + acc)[k] == acc[k - 1]; }
        }
      }
      if !IsCmd(c[i], {0x34, 0x35}) {
        LoopsFromReady(c, i - 1, [c[i]] + acc, fuel, pops);
      } else if c[i].instr.parameters != [] {
        var lp := IndexOf(c, c[i].instr.parameters[0]);
        if lp.Ok? {
          if lp.value >= i {
            LoopsFromReady(c, i - 1, [c[i]] + acc, fuel, pops);
          } else {
            LoopOfReady(c, lp.value, i, fuel, pops);
            var loop := LoopOf(c, lp.value, i, fuel, pops);
            if loop.Ok? {
              assert Ready([loop.value.0] + acc) by {
                forall k | 0 <= k < |acc| + 1 ensures ([loop.value.0] + acc)[k].Cmd? || Settled(([loop.value.0] + acc)[k]) {
                  if k > 0 { assert ([loop.value.0] + acc)[k] == acc[k - 1]; }
                }
              }
              LoopsFromReady(loop.value.1, lp.value - 1, [loop.value.0] + acc, fuel, pops);
            }
          }
        }
      }
    }
  }

  lemma {:induction false} LoopOfReady(c: seq<Item>, lp: nat, i: nat, fuel: nat, pops: Arity)
    requires lp < i < |c| && IsCmd(c[i], {0x34, 0x35}) && Ready(c)
    ensures LoopOf(c, lp, i, fuel, pops).Ok? ==>
              Settled(LoopOf(c, lp, i, fuel, pops).value.0) && Ready(LoopOf(c, lp, i, fuel, pops).value.1)
    decreases |c|, i + 1, 0
  {
    var r := LoopOf(c, lp, i, fuel, pops);
    if r.Ok? {
      var marked := r.value.1;
      assert Ready(marked) by {
        forall k | 0 <= k < |marked| ensures marked[k].Cmd? || Settled(marked[k]) {
          assert marked[k] == BreakItem || marked[k] == c[k];
        }
      }
      ReadySub(marked, lp, i);
      LoopsReady(marked[lp..i], fuel, pops);
      GroupsSettled(Loops(marked[lp..i], fuel, pops).value, fuel, pops);
    }
  }

  /** The passes as `decompileFunc` chains them (mscdec.py:412): once both
      succeed, no call, branch or cast marker is left anywhere. */
  lemma Structured(c: seq<Item>, fuel: nat, pops: Arity)
    requires Ready(c)
    requires Loops(c, fuel, pops).Ok?
    ensures Groups(Loops(c, fuel, pops).value, fuel, pops).Ok? ==> AllSettled(Groups(Loops(c, fuel, pops).value, fuel, pops).value)
  {
    LoopsReady(c, fuel, pops);
    GroupsSettled(Loops(c, fuel, pops).value, fuel, pops);
  }

  // ---------------------------------------------------------------------
  // Straight-line code

  predicate NoMarkers(s: seq<Item>)
  {
    forall k :: 0 <= k < |s| ==> !Marker(s[k])
  }

  lemma {:induction false} GroupsFromPlain(c: seq<Item>, i: nat, acc: seq<Item>, fuel: nat, pops: Arity)
    requires i <= |c| && NoMarkers(c)
    ensures GroupsFrom(c, i, acc, fuel, pops) == Ok(acc + c[i..])
    decreases |c| - i
  {
    if i == |c| {
      assert acc + c[i..] == acc;
    } else {
      assert GroupStep(c, i, acc, fuel, pops) == Ok((acc + [c[i]], i));
      GroupsFromPlain(c, i + 1, acc + [c[i]], fuel, pops);
      assert acc + [c[i]] + c[i + 1..] == acc + c[i..];
    }
  }

  /** Code with no call, branch or cast marker comes out of the grouping pass
      as it went in. */
  lemma GroupsOfPlain(c: seq<Item>, fuel: nat, pops: Arity)
    requires NoMarkers(c)
    ensures Groups(c, fuel, pops) == Ok(c)
  {
    GroupsFromPlain(c, 0, [], fuel, pops);
    assert [] + c[0..] == c;
  }

  /** No branch in the list goes back to an earlier label. */
  predicate Forward(c: seq<Item>)
  {
    forall k :: 0 <= k < |c| && IsCmd(c[k], {0x34, 0x35}) ==>
      c[k].instr.parameters != [] && IndexOf(c, c[k].instr.parameters[0]).Ok?
      && IndexOf(c, c[k].instr.parameters[0]).value >= k
  }

  lemma {:induction false} LoopsFromForward(c: seq<Item>, i: int, acc: seq<Item>, fuel: nat, pops: Arity)
    requires -1 <= i < |c| && Forward(c)
    ensures LoopsFrom(c, i, acc, fuel, pops) == Ok(c[..i + 1] + acc)
    decreases i + 1
  {
    if i < 0 {
      assert c[..i + 1] + acc == acc;
    } else {
      LoopsFromForward(c, i - 1, [c[i]] + acc, fuel, pops);
      assert c[..i] + ([c[i]] + acc) == c[..i + 1] + acc;
    }
  }

  /** Without a backward branch the loop pass changes nothing. */
  lemma LoopsOfForward(c: seq<Item>, fuel: nat, pops: Arity)
    requires Forward(c)
    ensures Loops(c, fuel, pops) == Ok(c)
  {
    LoopsFromForward(c, |c| - 1, [], fuel, pops);
    assert c[..|c|] + [] == c;
  }

  // ---------------------------------------------------------------------
  // Casts (mscdec.py:487-498)

  /** A cast marker is dropped, and its `Cast` goes directly after the
      nearest earlier value-pushing item at which the running push count
      equals the marker's operand; every other item keeps its place and
      order.  With no such item, the list is left as it was. */
  lemma CastPlacement(nc: seq<Item>, marker: Instr, pops: Arity)
    requires CastInserted(nc, marker, pops).Ok?
    ensures var r := CastInserted(nc, marker, pops).value;
            || (r == nc && forall m :: 0 <= m < |nc| && Pushes(nc[m]) ==> marker.parameters[0] != Int(PushedBack(nc, m, pops)))
            || exists k :: 1 <= k < |r| && r[k] == CastItem(CastType(marker.command)) && r[..k] + r[k + 1..] == nc
                           && Pushes(nc[k - 1]) && marker.parameters[0] == Int(PushedBack(nc, k - 1, pops))
                           && forall m :: k - 1 < m < |nc| && Pushes(nc[m]) ==> marker.parameters[0] != Int(PushedBack(nc, m, pops))
  {
    var p := CastPosition(nc, |nc| - 1, marker, pops);
    var r := CastInserted(nc, marker, pops).value;
    if p.value.Some? {
      var q := p.value.value;
      var k := q + 1;
      var cast := CastItem(CastType(marker.command));
      assert r == nc[..k] + [cast] + nc[k..];
      assert r[k] == cast;
      assert r[..k] + r[k + 1..] == nc by {
        assert r[..k] == nc[..k];
        assert r[k + 1..] == nc[k..];
      }
      assert Pushes(nc[k - 1]) && marker.parameters[0] == Int(PushedBack(nc, k - 1, pops));
    } else {
      assert r == nc;
    }
  }

  /** The cast marker itself never stays in the list. */
  lemma CastMarkerDropped(c: seq<Item>, i: nat, acc: seq<Item>, fuel: nat, pops: Arity)
    requires i < |c| && IsCmd(c[i], {0x38, 0x39}) && GroupStep(c, i, acc, fuel, pops).Ok?
    ensures var r := GroupStep(c, i, acc, fuel, pops).value;
            r.1 == i && (r.0 == acc || multiset(r.0) == multiset(acc) + multiset{CastItem(CastType(c[i].instr.command))})
  {
    var p := CastPosition(acc, |acc| - 1, c[i].instr, pops);
    var cast := CastItem(CastType(c[i].instr.command));
    if p.value.Some? {
      var q := p.value.value;
      assert acc == acc[..q + 1] + acc[q + 1..];
      assert multiset(acc[..q + 1] + [cast] + acc[q + 1..]) == multiset(acc) + multiset{cast};
    }
  }

  // ---------------------------------------------------------------------
  // Concrete behaviour of the source

  const L := Label("loc_9")

  /** `if (a) { if (b) {} }` where both branches jump to the same label: the
      grouping pass appends the block twice (mscdec.py:521-527). */
  lemma DoubleAppend(pops: Arity)
    ensures var inner := IfElseBlock(true, false, [], NoElse);
            var block := IfElseBlock(false, false, [inner, Lbl(L)], NoElse);
            Groups([Cmd(Instr(0x34, [LabelRef(L)], false, 0x10)), Cmd(Instr(0x35, [LabelRef(L)], false, 0x15)), Lbl(L)], 1, pops)
              == Ok([block, block])
  {
    var c := [Cmd(Instr(0x34, [LabelRef(L)], false, 0x10)), Cmd(Instr(0x35, [LabelRef(L)], false, 0x15)), Lbl(L)];
    var sub := [Cmd(Instr(0x35, [LabelRef(L)], false, 0x15)), Lbl(L)];
    assert c[1..3] == sub;
    assert FirstIndex(c, Lbl(L), 2) == Some(2);
    assert FirstIndex(c, Lbl(L), 1) == Some(2);
    assert IndexOf(c, LabelRef(L)) == Ok(2);
    assert FirstIndex(sub, Lbl(L), 1) == Some(1);
    assert IndexOf(sub, LabelRef(L)) == Ok(1);
    var inner := IfElseBlock(true, false, [], NoElse);
    assert [] + [inner] == [inner];
    assert IfGroup(sub, 0, [], 1, pops) == Ok(([inner], 0));
    assert GroupStep(sub, 0, [], 1, pops) == Ok(([inner], 0));
    assert [inner] + [Lbl(L)] == [inner, Lbl(L)];
    assert GroupStep(sub, 1, [inner], 1, pops) == Ok(([inner, Lbl(L)], 1));
    assert GroupsFrom(sub, 2, [inner, Lbl(L)], 1, pops) == Ok([inner, Lbl(L)]);
    assert GroupsFrom(sub, 1, [inner], 1, pops) == Ok([inner, Lbl(L)]);
    assert Groups(sub, 1, pops) == Ok([inner, Lbl(L)]);
    var block := IfElseBlock(false, false, [inner, Lbl(L)], NoElse);
    assert [] + [block] + [block] == [block, block];
    assert NestedIfGroup(c, 0, 2, [], 1, pops) == Ok(([block, block], 2));
    assert IfGroup(c, 0, [], 1, pops) == Ok(([block, block], 2));
    assert GroupStep(c, 0, [], 1, pops) == Ok(([block, block], 2));
    assert GroupsFrom(c, 3, [block, block], 1, pops) == Ok([block, block]);
  }

  /** Jump operands are labels, so the `range(lp, i)` test of the do-while
      check never holds and a loop comes out as do-while whenever the item
      before its head is not a jump with an integer operand (mscdec.py:564-566). */
  lemma DoWhileForLabelOperands(c: seq<Item>, lp: nat, i: nat)
    requires lp < i < |c|
    requires var before := if lp == 0 then c[|c| - 1] else c[lp - 1];
             !IsCmd(before, {4, 5, 36}) || (before.instr.parameters != [] && !before.instr.parameters[0].Int?)
    ensures DoWhileTest(c, lp, i) == Ok(true)
  {
  }

  /** The opcode list of that check is decimal: a `0x36` else-jump before the
      loop head does not make it a plain while loop. */
  lemma DoWhileIgnoresElse(c: seq<Item>, lp: nat, i: nat)
    requires 0 < lp < i < |c| && IsCmd(c[lp - 1], {0x36})
    ensures DoWhileTest(c, lp, i) == Ok(true)
  {
  }
}
