/** Properties of the reference analysis: how a walk ends and where its
    cursor goes, that the fuel bound only cuts walks short, and what the
    steps of the first and later passes do to the operands they select. */
module DisasmFacts {
  import opened PyOps
  import opened Bytecode
  import opened Disasm

  // ---------------------------------------------------------------------
  // How a walk ends and where its cursor goes (disasmlib.py:66-69, 140-151)
  // ---------------------------------------------------------------------

  /** A cursor past the last instruction ends the walk with `return True`. */
  lemma RanOffEndPastLast(t: Tables, name: string, st: AState, i: nat, passCount: nat, endPosition: Option<nat>, budget: nat)
    requires Fits(st) && i >= |st.cmds|
    ensures Run(t, name, st, i, passCount, endPosition, budget) == Ok(Exit(RanOffEnd, st, i))
  {
  }

  /** A sub-walk at or past its end position with an empty stack ends with
      `return False`, before any step. */
  lemma RejoinsAtEnd(t: Tables, name: string, st: AState, i: nat, passCount: nat, endPosition: Option<nat>, budget: nat)
    requires Fits(st) && i < |st.cmds| && endPosition.Some? && i >= endPosition.value && st.stack == []
    ensures Run(t, name, st, i, passCount, endPosition, budget) == Ok(Exit(Rejoined, st, i))
  {
  }

  /** Together with `Run`'s own postconditions: a walk is `Rejoined` exactly
      when it reaches a cursor inside the script, at or past its end position,
      with an empty stack. */
  lemma RejoinedExactly(t: Tables, name: string, st: AState, i: nat, passCount: nat, endPosition: Option<nat>, budget: nat)
    requires Fits(st) && i < |st.cmds|
    ensures (Run(t, name, st, i, passCount, endPosition, budget) == Ok(Exit(Rejoined, st, i)))
        <==> endPosition.Some? && i >= endPosition.value && st.stack == []
  {
  }

  /** After a step at `i` that does not end the walk, the walk goes on from
      `Next(cmds, i)`: the jump's target instruction for 4, 5 and 0x36 (the
      next one when no instruction has that position), `i + 1` otherwise. */
  lemma ContinuesAtNext(t: Tables, name: string, st: AState, i: nat, passCount: nat, endPosition: Option<nat>, budget: nat,
                        st1: AState, j: nat)
    requires Fits(st) && i < |st.cmds| && budget > 0
    requires !(endPosition.Some? && i >= endPosition.value && st.stack == [])
    requires Turn(t, name, st, i, passCount, budget - 1) == Ok((false, st1))
    requires Next(st1.cmds, i) == Ok(j)
    ensures Run(t, name, st, i, passCount, endPosition, budget) == Run(t, name, st1, j, passCount, endPosition, budget - 1)
  {
    assert Proceed(t, name, st, i, passCount, endPosition, budget - 1) == Run(t, name, st1, j, passCount, endPosition, budget - 1);
  }

  /** An instruction other than a jump or else moves the cursor by one. */
  lemma NextOfPlain(cmds: seq<Instr>, i: nat)
    requires i < |cmds| && cmds[i].command !in JumpOrElse
    ensures Next(cmds, i) == Ok(i + 1)
  {
  }

  /** A jump or else moves the cursor to the first instruction whose position
      is the jump's target. */
  lemma NextOfJump(cmds: seq<Instr>, i: nat, j: nat)
    requires i < |cmds| && cmds[i].command in JumpOrElse && cmds[i].parameters != []
    requires j < |cmds| && cmds[i].parameters[0] == Int(cmds[j].commandPosition)
    requires forall k :: 0 <= k < j ==> cmds[i].parameters[0] != Int(cmds[k].commandPosition)
    ensures Next(cmds, i) == Ok(j)
  {
    var target := cmds[i].parameters[0];
    assert exists k :: 0 <= k < |cmds| && target == Int(cmds[k].commandPosition) by {
      assert target == Int(cmds[j].commandPosition);
    }
  }

  // ---------------------------------------------------------------------
  // The fuel bound only cuts walks short
  // ---------------------------------------------------------------------

  /** A walk result the fuel bound did not decide. */
  predicate Settled(r: Outcome<Exit>)
  {
    r.Raise? || r.value.walk != OutOfFuel
  }

  /** A walk that ends within `budget` steps ends the same way, in the same
      state, with one step more. */
  lemma {:induction false} RunMore(t: Tables, name: string, st: AState, i: nat, passCount: nat, endPosition: Option<nat>, budget: nat)
    requires Fits(st) && Settled(Run(t, name, st, i, passCount, endPosition, budget))
    ensures Run(t, name, st, i, passCount, endPosition, budget + 1) == Run(t, name, st, i, passCount, endPosition, budget)
    decreases budget, 1
  {
    if i < |st.cmds| && !(endPosition.Some? && i >= endPosition.value && st.stack == []) && budget > 0 {
      var x := Turn(t, name, st, i, passCount, budget - 1);
      if x.Raise? {
        TurnMore(t, name, st, i, passCount, budget - 1);
      } else if !x.value.0 {
        TurnMore(t, name, st, i, passCount, budget - 1);
        var a := Advance(t, name, x.value.1, i, passCount, endPosition, budget - 1);
        assert Run(t, name, st, i, passCount, endPosition, budget) == a;
        AdvanceMore(t, name, x.value.1, i, passCount, endPosition, budget - 1);
        assert Run(t, name, st, i, passCount, endPosition, budget + 1) == a;
      }
    }
  }

  lemma {:induction false} AdvanceMore(t: Tables, name: string, st: AState, i: nat, passCount: nat, endPosition: Option<nat>, budget: nat)
    requires Fits(st) && i < |st.cmds| && Settled(Advance(t, name, st, i, passCount, endPosition, budget))
    ensures Advance(t, name, st, i, passCount, endPosition, budget + 1) == Advance(t, name, st, i, passCount, endPosition, budget)
    decreases budget, 2
  {
    var next := Next(st.cmds, i);
    if next.Ok? {
      RunMore(t, name, st, next.value, passCount, endPosition, budget);
    }
  }

  lemma {:induction false} TurnMore(t: Tables, name: string, st: AState, i: nat, passCount: nat, budget: nat)
    requires Fits(st) && i < |st.cmds|
    requires var x := Turn(t, name, st, i, passCount, budget); x.Raise? || !x.value.0
    ensures Turn(t, name, st, i, passCount, budget + 1) == Turn(t, name, st, i, passCount, budget)
    decreases budget, 6
  {
    var st1 := StepFn(t, name, st, i, passCount);
    if st1.Ok? && st1.value.cmds[i].command in Branches {
      BranchMore(t, name, st1.value, i, passCount, budget);
    }
  }

  lemma {:induction false} BranchMore(t: Tables, name: string, st: AState, i: nat, passCount: nat, budget: nat)
    requires Fits(st) && i < |st.cmds|
    requires var b := Branch(t, name, st, i, passCount, budget); b.Raise? || b.value.0 != Some(OutOfFuel)
    ensures Branch(t, name, st, i, passCount, budget + 1) == Branch(t, name, st, i, passCount, budget)
    decreases budget, 5
  {
    match Param(st.cmds[i], 0)
    case None =>
    case Some(target) =>
      match IndexOfPosition(st.cmds, target)
      case None =>
      case Some(jumpIndex) =>
        SubWalkMore(t, name, st, jumpIndex, passCount, budget);
  }

  lemma {:induction false} SubWalkMore(t: Tables, name: string, st: AState, jumpIndex: nat, passCount: nat, budget: nat)
    requires Fits(st) && jumpIndex < |st.cmds|
    requires var b := SubWalk(t, name, st, jumpIndex, passCount, budget); b.Raise? || b.value.0 != Some(OutOfFuel)
    ensures SubWalk(t, name, st, jumpIndex, passCount, budget + 1) == SubWalk(t, name, st, jumpIndex, passCount, budget)
    decreases budget, 4
  {
    var prev := st.cmds[if jumpIndex == 0 then |st.cmds| - 1 else jumpIndex - 1];
    var elseBefore := if t.variant == Current then prev.command in JumpOrElse else prev.command == 0x36;
    if elseBefore {
      match Param(prev, 0)
      case None =>
      case Some(blockEnd) =>
        EmuMore(t, name, st, jumpIndex, passCount, IndexOfPosition(st.cmds, blockEnd), budget);
    } else if |st.stack| > 0 {
      EmuMore(t, name, st, jumpIndex, passCount, Some(jumpIndex), budget);
    }
  }

  lemma {:induction false} EmuMore(t: Tables, name: string, st: AState, startIndex: nat, passCount: nat, endPosition: Option<nat>, fuel: nat)
    requires Fits(st) && Settled(Emu(t, name, st, startIndex, passCount, endPosition, fuel))
    ensures Emu(t, name, st, startIndex, passCount, endPosition, fuel + 1) == Emu(t, name, st, startIndex, passCount, endPosition, fuel)
    decreases fuel, 3
  {
    RunMore(t, name, if endPosition.None? then st.(clearedPaths := []) else st, startIndex, passCount, endPosition, fuel);
  }

  /** A walk that ends within `fuel` steps ends the same way with any larger
      bound: the bound never changes a result it does not cut short. */
  lemma {:induction false} EmuAnyMore(t: Tables, name: string, st: AState, startIndex: nat, passCount: nat, endPosition: Option<nat>, fuel: nat, fuel': nat)
    requires Fits(st) && fuel <= fuel' && Settled(Emu(t, name, st, startIndex, passCount, endPosition, fuel))
    ensures Emu(t, name, st, startIndex, passCount, endPosition, fuel') == Emu(t, name, st, startIndex, passCount, endPosition, fuel)
    decreases fuel' - fuel
  {
    if fuel < fuel' {
      EmuMore(t, name, st, startIndex, passCount, endPosition, fuel);
      EmuAnyMore(t, name, st, startIndex, passCount, endPosition, fuel + 1, fuel');
    }
  }

  /** A top-level walk that does not diverge within `fuel` steps gives the
      same result with any larger bound. */
  lemma TopWalkMore(t: Tables, name: string, cmds: seq<Instr>, calledVars: map<string, seq<Value>>, pass: nat, fuel: nat, fuel': nat)
    requires fuel <= fuel' && TopWalk(t, name, cmds, calledVars, pass, fuel) != Raise(Diverged)
    ensures TopWalk(t, name, cmds, calledVars, pass, fuel') == TopWalk(t, name, cmds, calledVars, pass, fuel)
  {
    EmuAnyMore(t, name, AState(cmds, [], [], calledVars), 0, pass, None, fuel, fuel');
  }

  lemma {:induction false} PassFromMore(t: Tables, scripts: seq<Script>, work: seq<seq<Instr>>, calledVars: map<string, seq<Value>>,
                                        pass: nat, s: nat, fuel: nat, fuel': nat)
    requires t.names == ScriptNames(scripts) && RewritesAll(t, scripts, work) && s <= |scripts| && fuel <= fuel'
    requires PassFrom(t, scripts, work, calledVars, pass, s, fuel) != Raise(Diverged)
    ensures PassFrom(t, scripts, work, calledVars, pass, s, fuel') == PassFrom(t, scripts, work, calledVars, pass, s, fuel)
    decreases |scripts| - s
  {
    if s < |scripts| {
      var walk := TopWalk(t, t.names[scripts[s].start], work[s], calledVars, pass, fuel);
      TopWalkMore(t, t.names[scripts[s].start], work[s], calledVars, pass, fuel, fuel');
      if walk.Ok? {
        RewritesTransitive(t.variant, t.names, t.strings, scripts[s].cmds, work[s], walk.value.cmds);
        PassFromMore(t, scripts, work[s := walk.value.cmds], walk.value.calledVars, pass, s + 1, fuel, fuel');
      }
    }
  }

  lemma {:induction false} PassesMore(t: Tables, scripts: seq<Script>, work: seq<seq<Instr>>, calledVars: map<string, seq<Value>>,
                                      pass: nat, fuel: nat, fuel': nat)
    requires t.names == ScriptNames(scripts) && RewritesAll(t, scripts, work) && fuel <= fuel'
    requires Passes(t, scripts, work, calledVars, pass, fuel) != Raise(Diverged)
    ensures Passes(t, scripts, work, calledVars, pass, fuel') == Passes(t, scripts, work, calledVars, pass, fuel)
    decreases 2 - pass
  {
    if pass < 2 {
      var x := PassFrom(t, scripts, work, calledVars, pass, 0, fuel);
      PassFromMore(t, scripts, work, calledVars, pass, 0, fuel, fuel');
      if x.Ok? {
        PassesMore(t, scripts, x.value.0, x.value.1, pass + 1, fuel, fuel');
      }
    }
  }

  lemma {:induction false} FinalWalksMore(t: Tables, scripts: seq<Script>, work: seq<seq<Instr>>, calledVars: map<string, seq<Value>>,
                                          s: nat, fuel: nat, fuel': nat)
    requires t.names == ScriptNames(scripts) && |work| == |scripts| && s <= |scripts| && fuel <= fuel'
    requires FinalWalks(t, scripts, work, calledVars, s, fuel) != Raise(Diverged)
    ensures FinalWalks(t, scripts, work, calledVars, s, fuel') == FinalWalks(t, scripts, work, calledVars, s, fuel)
    decreases |scripts| - s
  {
    if s < |scripts| {
      var walk := TopWalk(t, t.names[scripts[s].start], work[s], calledVars, 2, fuel);
      TopWalkMore(t, t.names[scripts[s].start], work[s], calledVars, 2, fuel, fuel');
      if walk.Ok? {
        FinalWalksMore(t, scripts, work, walk.value.calledVars, s + 1, fuel, fuel');
      }
    }
  }

  /** The whole reference analysis of `disasm`, when it does not diverge
      within `fuel` steps per walk, gives the same scripts with any larger
      bound: the bound cuts off only walks the source would never end. */
  lemma {:induction false} AnalysedMore(t: Tables, scripts: seq<Script>, fuel: nat, fuel': nat)
    requires t.names == ScriptNames(scripts) && fuel <= fuel'
    requires Analysed(t, scripts, fuel) != Raise(Diverged)
    ensures Analysed(t, scripts, fuel') == Analysed(t, scripts, fuel)
  {
    var x := Passes(t, scripts, Originals(scripts), map[], 0, fuel);
    PassesMore(t, scripts, Originals(scripts), map[], 0, fuel, fuel');
    if x.Ok? {
      FinalWalksMore(t, scripts, x.value.0, x.value.1, 0, fuel, fuel');
    }
  }

  // ---------------------------------------------------------------------
  // What the steps do to the operands they select (disasmlib.py:33-53, 81-117)
  // ---------------------------------------------------------------------

  /** Every instruction of `st'` is the one of `st`, or a resolvable push of
      `st` resolved. */
  predicate ResolvedFrom(t: Tables, st: AState, st': AState)
  {
    |st'.cmds| == |st.cmds|
    && forall e :: 0 <= e < |st.cmds| ==> st'.cmds[e] == st.cmds[e] || (Resolvable(t.names, st.cmds[e]) && st'.cmds[e] == Resolved(t, st.cmds[e]))
  }

  /** `updateScriptReference` changes no instruction but by resolving it. */
  lemma UpdateRefResolvedFrom(t: Tables, name: string, st: AState, popped: seq<nat>, index: int)
    requires InScript(st.cmds, popped) && UpdateRef(t, name, st, popped, index).Ok?
    ensures ResolvedFrom(t, st, UpdateRef(t, name, st, popped, index).value)
  {
  }

  /** A resolved push is never an integer push again, so later resolutions
      leave it alone and `ResolvedFrom` composes. */
  lemma ResolvedFromTransitive(t: Tables, a: AState, b: AState, c: AState)
    requires ResolvedFrom(t, a, b) && ResolvedFrom(t, b, c)
    ensures ResolvedFrom(t, a, c)
  {
    forall e | 0 <= e < |a.cmds|
      ensures c.cmds[e] == a.cmds[e] || (Resolvable(t.names, a.cmds[e]) && c.cmds[e] == Resolved(t, a.cmds[e]))
    {
      if b.cmds[e] != a.cmds[e] {
        assert !Resolvable(t.names, b.cmds[e]);
      }
    }
  }

  /** What `updateScriptReference` did to an entry stays done through any
      later resolutions and slot-list growth. */
  lemma DoneKept(t: Tables, name: string, st: AState, st1: AState, st2: AState, e: nat)
    requires e < |st.cmds| && e < |st1.cmds| && Done(t, name, st, st1, e)
    requires ResolvedFrom(t, st1, st2) && Grows(st1.calledVars, st2.calledVars)
    ensures e < |st2.cmds| && Done(t, name, st, st2, e)
  {
    if Resolvable(t.names, st.cmds[e]) {
      assert !Resolvable(t.names, st1.cmds[e]);
    }
  }

  /** What `updateScriptReference` did in a state reached from `st` by
      resolutions is done relative to `st`. */
  lemma DoneFrom(t: Tables, name: string, st: AState, st1: AState, st2: AState, e: nat)
    requires ResolvedFrom(t, st, st1) && e < |st.cmds| && e < |st2.cmds| && Done(t, name, st1, st2, e)
    requires ResolvedFrom(t, st1, st2)
    ensures Done(t, name, st, st2, e)
  {
    if st1.cmds[e] != st.cmds[e] {
      assert !Resolvable(t.names, st1.cmds[e]);
    }
  }

  /** `popped[-(n+1)]` in disasmlib.py and `popped[n+1]` in disasm.py. */
  lemma ArgIndexSelects(variant: Variant, popped: seq<nat>, n: nat)
    requires n + 1 < |popped|
    ensures variant == Current ==> At(popped, ArgIndex(variant, n)) == Some(popped[|popped| - (n + 1)])
    ensures variant == Legacy ==> At(popped, ArgIndex(variant, n)) == Some(popped[n + 1])
  {
  }

  /** The slots `Forward` walks from position `k`, `list[k:]`, are all
      integers, and nothing changes but by resolution. */
  lemma {:induction false} ForwardKeeps(t: Tables, name: string, st: AState, callee: string, popped: seq<nat>, k: nat)
    requires InScript(st.cmds, popped) && callee in st.calledVars
    requires Forward(t, name, st, callee, popped, k).Ok?
    ensures ResolvedFrom(t, st, Forward(t, name, st, callee, popped, k).value)
    ensures forall j :: k <= j < |st.calledVars[callee]| ==> st.calledVars[callee][j].Int?
    decreases LoadSlots(st.cmds, popped) - Elements(st.calledVars[callee]), |st.calledVars[callee]| - k
  {
    var list := st.calledVars[callee];
    var r := Forward(t, name, st, callee, popped, k).value;
    if k < |list| {
      if list[k].i + 1 < |popped| {
        var index := ArgIndex(t.variant, list[k].i);
        var st1 := UpdateRef(t, name, st, popped, index).value;
        LoadSlotsStable(t.variant, t.names, t.strings, st.cmds, st1.cmds, popped);
        assert callee != name ==> st1.calledVars[callee] == list;
        Shrinks(LoadSlots(st.cmds, popped), list, st1.calledVars[callee]);
        ForwardKeeps(t, name, st1, callee, popped, k + 1);
        UpdateRefResolvedFrom(t, name, st, popped, index);
        ResolvedFromTransitive(t, st, st1, r);
      } else {
        ForwardKeeps(t, name, st, callee, popped, k + 1);
      }
    }
  }

  /** Each slot `n` of `list[k:]` with `n + 1 < len(popped)` has its
      argument `popped[ArgIndex(n)]` resolved, relative to the state the loop
      started in. */
  lemma {:induction false} ForwardResolves(t: Tables, name: string, st: AState, callee: string, popped: seq<nat>, k: nat)
    requires InScript(st.cmds, popped) && callee in st.calledVars
    requires Forward(t, name, st, callee, popped, k).Ok?
    ensures forall j :: k <= j < |st.calledVars[callee]| && st.calledVars[callee][j].Int? && st.calledVars[callee][j].i + 1 < |popped| ==>
      At(popped, ArgIndex(t.variant, st.calledVars[callee][j].i)).Some?
      && Done(t, name, st, Forward(t, name, st, callee, popped, k).value, At(popped, ArgIndex(t.variant, st.calledVars[callee][j].i)).value)
    decreases LoadSlots(st.cmds, popped) - Elements(st.calledVars[callee]), |st.calledVars[callee]| - k
  {
    var list := st.calledVars[callee];
    var r := Forward(t, name, st, callee, popped, k).value;
    ForwardKeeps(t, name, st, callee, popped, k);
    if k < |list| {
      if list[k].i + 1 < |popped| {
        var index := ArgIndex(t.variant, list[k].i);
        var st1 := UpdateRef(t, name, st, popped, index).value;
        LoadSlotsStable(t.variant, t.names, t.strings, st.cmds, st1.cmds, popped);
        assert callee != name ==> st1.calledVars[callee] == list;
        Shrinks(LoadSlots(st.cmds, popped), list, st1.calledVars[callee]);
        assert r == Forward(t, name, st1, callee, popped, k + 1).value;
        ForwardResolves(t, name, st1, callee, popped, k + 1);
        ForwardKeeps(t, name, st1, callee, popped, k + 1);
        UpdateRefResolvedFrom(t, name, st, popped, index);
        assert list <= st1.calledVars[callee];
        DoneKept(t, name, st, st1, r, At(popped, index).value);
        LiftDone(t, name, st, st1, r, popped, list, st1.calledVars[callee], k);
      } else {
        ForwardResolves(t, name, st, callee, popped, k + 1);
      }
    }
  }

  /** The slots after `k` of a list that grew into `list1`, resolved in
      `r` relative to `st1`, are resolved relative to `st`. */
  lemma LiftDone(t: Tables, name: string, st: AState, st1: AState, r: AState, popped: seq<nat>, list: seq<Value>, list1: seq<Value>, k: nat)
    requires InScript(st.cmds, popped) && ResolvedFrom(t, st, st1) && ResolvedFrom(t, st1, r) && list <= list1
    requires forall j :: k < j < |list1| && list1[j].Int? && list1[j].i + 1 < |popped| ==>
      At(popped, ArgIndex(t.variant, list1[j].i)).Some? && Done(t, name, st1, r, At(popped, ArgIndex(t.variant, list1[j].i)).value)
    ensures forall j :: k < j < |list| && list[j].Int? && list[j].i + 1 < |popped| ==>
      At(popped, ArgIndex(t.variant, list[j].i)).Some? && Done(t, name, st, r, At(popped, ArgIndex(t.variant, list[j].i)).value)
  {
    forall j | k < j < |list| && list[j].Int? && list[j].i + 1 < |popped|
      ensures At(popped, ArgIndex(t.variant, list[j].i)).Some? && Done(t, name, st, r, At(popped, ArgIndex(t.variant, list[j].i)).value)
    {
      assert list1[j] == list[j];
      DoneFrom(t, name, st, st1, r, At(popped, ArgIndex(t.variant, list[j].i)).value);
    }
  }

  /** A call (0x2f-0x31) in the first pass resolves its target operand,
      `popped[0]`. */
  lemma FirstPassResolvesCall(t: Tables, name: string, st: AState, i: nat, popped: seq<nat>)
    requires i < |st.cmds| && InScript(st.cmds, popped) && st.cmds[i].command in Calls
    requires FirstPass(t, name, st, i, popped).Ok?
    ensures popped != [] && Done(t, name, st, FirstPass(t, name, st, i, popped).value, popped[0])
  {
  }

  /** A store into a global that holds a script offset resolves the stored
      operand, `popped[0]`. */
  lemma GlobalStoreResolves(t: Tables, name: string, st: AState, c: Instr, popped: seq<nat>, k: int)
    requires InScript(st.cmds, popped) && |c.parameters| >= 2 && c.parameters[0] == Int(1) && c.parameters[1] == Int(k)
    requires GvIsOffset(k) == Some(true) && GlobalStore(t, name, st, c, popped).Ok?
    ensures popped != [] && Done(t, name, st, GlobalStore(t, name, st, c, popped).value, popped[0])
  {
  }

  /** A call through a constant script reference resolves, for every call
      target slot `n` of the called script with `n + 1 < len(popped)`, the
      argument that fills it. */
  lemma CallForwardResolves(t: Tables, name: string, st: AState, popped: seq<nat>, callee: string)
    requires InScript(st.cmds, popped) && popped != [] && st.cmds[popped[0]].command in PushConstant
    requires st.cmds[popped[0]].parameters != [] && JumpScriptName(t.names, st.cmds[popped[0]].parameters[0]) == Some(callee)
    requires callee in st.calledVars && CallForward(t, name, st, popped).Ok?
    ensures forall j :: 0 <= j < |st.calledVars[callee]| && st.calledVars[callee][j].Int? && st.calledVars[callee][j].i + 1 < |popped| ==>
      At(popped, ArgIndex(t.variant, st.calledVars[callee][j].i)).Some?
      && Done(t, name, st, CallForward(t, name, st, popped).value, At(popped, ArgIndex(t.variant, st.calledVars[callee][j].i)).value)
  {
    ForwardResolves(t, name, st, callee, popped, 0);
  }
}
