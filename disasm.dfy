/** The reference analysis: a forward walk over a script that keeps a stack
    of references to the instructions whose results are still on the
    evaluation stack, resolves integer operands that name a script into that
    script's name, and records which local slots of a script are used as
    dynamic call targets.  Then the label pass, which turns every jump target
    into a `Label`.

    Both copies of this pass are modelled: disasmlib.py (`Current`) and the
    older standalone disasm.py (`Legacy`), which differ in a few places noted
    where they occur. */
module Disasm {
  import opened PyOps
  import opened Bytecode
  import opened JumpLabels

  datatype Variant = Current | Legacy

  /** How a walk ended: `Rejoined` is the source's `return False` (the
      sub-walk reached its end position with an empty stack), `RanOffEnd` its
      `return True`; `OutOfFuel` is the model's bound on a walk the source
      would continue forever. */
  datatype Walk = Rejoined | RanOffEnd | OutOfFuel

  /** A script as the container reader gives it: its name, its starting
      position (`bounds[0]`) and its instructions. */
  datatype Script = Script(name: string, start: int, cmds: seq<Instr>)

  const JumpOrElse: set<int> := {4, 5, 0x36}
  const Branches: set<int> := {0x34, 0x35}
  const Calls: set<int> := {0x2f, 0x30, 0x31}
  const PushConstant: set<int> := {0xA, 0xD}

  /** The global slots that hold script offsets (`gvIsOffset`). */
  const OffsetGlobals: set<int> := {7, 11, 12, 13, 14, 15, 16, 21, 22, 23, 25, 26, 27, 28, 30,
    34, 35, 36, 37, 39, 40, 41, 42, 43, 44, 56, 57, 58, 59, 60, 61}

  /** `gvIsOffset[k]` on the 64-entry list, with Python's negative indexes. */
  function GvIsOffset(k: int): Option<bool>
  {
    if 0 <= k < 64 then Some(k in OffsetGlobals)
    else if -64 <= k < 0 then Some(k + 64 in OffsetGlobals)
    else None
  }

  /** What a resolved script offset becomes: a `ScriptRef` in disasmlib.py,
      the plain name string in disasm.py. */
  function NameRef(variant: Variant, name: string): (v: Value)
    ensures variant == Current ==> v.ScriptRef? && v.ref == name
    ensures variant == Legacy ==> v.Str? && v.s == name
  {
    if variant == Current then ScriptRef(name) else Str(name)
  }

  /** `scriptNames` as `disasm` builds it: each starting position keeps the
      name of the first script found there.  (`scriptOffsets` is the list of
      its keys.) */
  function ScriptNames(scripts: seq<Script>): (m: map<int, string>)
    ensures forall k :: 0 <= k < |scripts| ==> scripts[k].start in m
  {
    if scripts == [] then map[]
    else
      var front := scripts[..|scripts| - 1];
      var m0 := ScriptNames(front);
      var last := scripts[|scripts| - 1];
      assert forall k :: 0 <= k < |front| ==> front[k] == scripts[k];
      if last.start in m0 then m0 else m0[last.start := last.name]
  }

  /** Only starting positions of scripts are named. */
  lemma {:induction false} ScriptNamesOnlyStarts(scripts: seq<Script>, p: int)
    requires p in ScriptNames(scripts)
    ensures exists k :: 0 <= k < |scripts| && scripts[k].start == p
    decreases |scripts|
  {
    var front := scripts[..|scripts| - 1];
    if p in ScriptNames(front) {
      ScriptNamesOnlyStarts(front, p);
      var k :| 0 <= k < |front| && front[k].start == p;
      assert scripts[k] == front[k];
    }
  }

  /** The name kept for a position is that of the first script there. */
  lemma {:induction false} ScriptNamesFirst(scripts: seq<Script>, k: nat)
    requires k < |scripts|
    requires forall j :: 0 <= j < k ==> scripts[j].start != scripts[k].start
    ensures ScriptNames(scripts)[scripts[k].start] == scripts[k].name
    decreases |scripts|
  {
    var front := scripts[..|scripts| - 1];
    assert forall j :: 0 <= j < |front| ==> front[j] == scripts[j];
    if k < |scripts| - 1 {
      ScriptNamesFirst(front, k);
    } else if scripts[k].start in ScriptNames(front) {
      ScriptNamesOnlyStarts(front, scripts[k].start);
    }
  }

  /** The sign bit of a single-precision pattern, as `bits & 0x80000000`
      masks it (Python masks in two's complement, so any integer has one). */
  function SignBit(bits: int): bool
  {
    (bits % 0x1_0000_0000) / 0x8000_0000 == 1
  }

  /** `((bits & 0x7f800000) >> 23) - 127`: the unbiased exponent. */
  function Exponent(bits: int): (e: int)
    ensures -127 <= e <= 128
  {
    (bits % 0x1_0000_0000) / 0x80_0000 % 0x100 - 127
  }

  /** `bits & 0x007fffff`: the mantissa field. */
  function Mantissa(bits: int): (m: int)
    ensures 0 <= m < 0x80_0000
  {
    bits % 0x80_0000
  }

  /** `guessIsFloat(bits)` (disasmlib.py): whether a constant's bit pattern
      looks like a float.  What the pattern means as a float is outside the
      model: the facts the source asks of it come in as `tinyOrNan` (its
      absolute value is below 1e-6, or it is NaN) and `huge` (its absolute
      value is at least 1e7).  `pack("I", bits)` rejects a pattern outside 32
      bits, after the zero test. */
  function GuessIsFloat(bits: int, tinyOrNan: bool, huge: bool): (r: Outcome<bool>)
    ensures bits == 0 ==> r == Ok(false)
    ensures r.Raise? <==> bits != 0 && !(0 <= bits < 0x1_0000_0000)
    ensures r == Ok(true) && !tinyOrNan && !SignBit(bits) ==> !huge
  {
    if bits == 0 then Ok(false)
    else if !(0 <= bits < 0x1_0000_0000) then Raise(StructError)
    else if tinyOrNan then Ok(false)
    else if SignBit(bits) then Ok(true)
    else if huge then Ok(false)
    else if Exponent(bits) == -127 && Mantissa(bits) == 0 then Ok(true)
    else if -30 <= Exponent(bits) <= 30 then Ok(true)
    else if Mantissa(bits) % 0x1_0000 == 0 then Ok(true)
    else Ok(false)
  }

  /** The three fields together give back the 32-bit pattern. */
  lemma FieldsRebuild(bits: int)
    requires 0 <= bits < 0x1_0000_0000
    ensures bits == (if SignBit(bits) then 0x8000_0000 else 0) + (Exponent(bits) + 127) * 0x80_0000 + Mantissa(bits)
  {
    var high := bits / 0x80_0000;
    assert bits == high * 0x80_0000 + Mantissa(bits);
    assert high < 0x200;
    var sign := high / 0x100;
    assert high == sign * 0x100 + high % 0x100;
    assert bits / 0x8000_0000 == sign;
    assert (bits % 0x1_0000_0000) == bits;
  }

  /** A positive pattern with a zero exponent field and a zero mantissa has
      its sign bit set, so the `+- 0.0` test of `guessIsFloat` is reached only
      by patterns it cannot match: */
  lemma PlusMinusZeroNeedsSign(bits: int)
    requires 0 < bits < 0x1_0000_0000
    requires Exponent(bits) == -127 && Mantissa(bits) == 0
    ensures SignBit(bits)
  {
    FieldsRebuild(bits);
  }

  /** so `guessIsFloat` is the same function without that test. */
  lemma GuessIsFloatWithoutZeroTest(bits: int, tinyOrNan: bool, huge: bool)
    ensures GuessIsFloat(bits, tinyOrNan, huge) ==
      if bits == 0 then Ok(false)
      else if !(0 <= bits < 0x1_0000_0000) then Raise(StructError)
      else Ok(!tinyOrNan && (SignBit(bits) || (!huge && (-30 <= Exponent(bits) <= 30 || Mantissa(bits) % 0x1_0000 == 0))))
  {
    if 0 < bits < 0x1_0000_0000 && Exponent(bits) == -127 && Mantissa(bits) == 0 {
      PlusMinusZeroNeedsSign(bits);
    }
  }

  /** The rewrite the analysis may make to a first parameter: none, a
      resolved script offset, or (disasmlib.py only) a printf format index
      replaced by the string-table entry. */
  predicate ParamRewrite(variant: Variant, names: map<int, string>, strings: seq<string>, a: Value, b: Value)
  {
    b == a
    || (a.Int? && a.i in names && b == NameRef(variant, names[a.i]))
    || (variant == Current && a.Int? && At(strings, a.i).Some? && b == Str(At(strings, a.i).value))
  }

  /** `b` is `a` with at most its first parameter rewritten. */
  predicate InstrRewrite(variant: Variant, names: map<int, string>, strings: seq<string>, a: Instr, b: Instr)
  {
    && b.command == a.command && b.pushBit == a.pushBit && b.commandPosition == a.commandPosition
    && |b.parameters| == |a.parameters|
    && (|a.parameters| > 0 ==> ParamRewrite(variant, names, strings, a.parameters[0], b.parameters[0]))
    && (forall k :: 1 <= k < |a.parameters| ==> b.parameters[k] == a.parameters[k])
  }

  predicate Rewrites(variant: Variant, names: map<int, string>, strings: seq<string>, a: seq<Instr>, b: seq<Instr>)
  {
    |b| == |a| && forall k :: 0 <= k < |a| ==> InstrRewrite(variant, names, strings, a[k], b[k])
  }

  /** A rewritten parameter is never an integer, so it is never rewritten
      again: successive walks compose into one rewrite. */
  lemma RewritesTransitive(variant: Variant, names: map<int, string>, strings: seq<string>, a: seq<Instr>, b: seq<Instr>, c: seq<Instr>)
    requires Rewrites(variant, names, strings, a, b) && Rewrites(variant, names, strings, b, c)
    ensures Rewrites(variant, names, strings, a, c)
  {
    forall k | 0 <= k < |a|
      ensures InstrRewrite(variant, names, strings, a[k], c[k])
    {
      assert InstrRewrite(variant, names, strings, a[k], b[k]);
      assert InstrRewrite(variant, names, strings, b[k], c[k]);
      if |a[k].parameters| > 0 {
        var x, y, z := a[k].parameters[0], b[k].parameters[0], c[k].parameters[0];
        assert ParamRewrite(variant, names, strings, x, y);
        assert y != x ==> !y.Int?;
        assert ParamRewrite(variant, names, strings, y, z);
        assert !y.Int? ==> z == y;
      }
    }
  }

  /** The entries `popCount` pops, top of the stack first; an underflow
      simply yields fewer. */
  function Popped(stack: seq<nat>, count: nat): (r: seq<nat>)
    ensures |r| == if count < |stack| then count else |stack|
    ensures forall k :: 0 <= k < |r| ==> r[k] == stack[|stack| - 1 - k]
  {
    var m := if count < |stack| then count else |stack|;
    seq(m, k requires 0 <= k < m => stack[|stack| - 1 - k])
  }

  /** The stack left after popping `count` entries (all of them, if fewer). */
  function Below(stack: seq<nat>, count: nat): (r: seq<nat>)
    ensures |r| == if count < |stack| then |stack| - count else 0
    ensures r == stack[..|r|]
  {
    if count < |stack| then stack[..|stack| - count] else []
  }

  /** `list.append` guarded by `not in`: add a slot at most once. */
  function AddOnce(list: seq<Value>, x: Value): (r: seq<Value>)
    ensures x in r
    ensures forall y :: y in r <==> y in list || y == x
    ensures x in list ==> r == list
    ensures x !in list ==> r == list + [x]
    ensures NoDuplicates(list) ==> NoDuplicates(r)
  {
    if x in list then list else list + [x]
  }

  predicate NoDuplicates(list: seq<Value>)
  {
    forall j, k :: 0 <= j < k < |list| ==> list[j] != list[k]
  }

  /** The slots that the local loads among `popped` read. */
  ghost function LoadSlots(cmds: seq<Instr>, popped: seq<nat>): set<Value>
  {
    set p | p in popped && p < |cmds| && cmds[p].command == 0xB && |cmds[p].parameters| > 1 :: cmds[p].parameters[1]
  }

  function Elements(list: seq<Value>): set<Value>
  {
    set v | v in list
  }

  /** The script a call's constant operand names, if any: a known offset,
      or a name an earlier pass already put there. */
  function JumpScriptName(names: map<int, string>, v: Value): (r: Option<string>)
    ensures v.Int? ==> (r.Some? <==> v.i in names) && (r.Some? ==> r.value == names[v.i])
    ensures v.Str? ==> r == Some(v.s)
    ensures v.ScriptRef? ==> r == Some(v.ref)
    ensures !v.Int? && !v.Str? && !v.ScriptRef? ==> r.None?
  {
    match v
    case Int(o) => if o in names then Some(names[o]) else None
    case Str(s) => Some(s)
    case ScriptRef(s) => Some(s)
    case _ => None
  }

  /** Rewriting first parameters leaves the slots of local loads alone. */
  lemma LoadSlotsStable(variant: Variant, names: map<int, string>, strings: seq<string>, a: seq<Instr>, b: seq<Instr>, popped: seq<nat>)
    requires Rewrites(variant, names, strings, a, b)
    ensures LoadSlots(a, popped) == LoadSlots(b, popped)
  {
    forall p | p in popped && p < |a|
      ensures a[p].command == b[p].command && |a[p].parameters| == |b[p].parameters|
      ensures |a[p].parameters| > 1 ==> a[p].parameters[1] == b[p].parameters[1]
    {
      assert InstrRewrite(variant, names, strings, a[p], b[p]);
    }
  }


  /** One more distinct slot from `slots` leaves fewer slots to add. */
  lemma Shrinks(slots: set<Value>, list: seq<Value>, list': seq<Value>)
    requires GrowsByOne(list, list', slots)
    ensures list' == list || slots - Elements(list') < slots - Elements(list)
  {
    if list' != list {
      var x := list'[|list|];
      assert list' == list + [x];
      assert x in slots - Elements(list);
      assert x !in slots - Elements(list');
    }
  }

  /** `slots'` is `slots`, or `slots` with one element of `from` that it
      lacked appended. */
  predicate GrowsByOne(slots: seq<Value>, slots': seq<Value>, from: set<Value>)
  {
    slots' == slots
    || (|slots'| == |slots| + 1 && slots'[..|slots|] == slots && slots'[|slots|] in from && slots'[|slots|] !in slots)
  }

  /** The state the walks share: the walked script's instructions (whose
      parameters are rewritten in place), the stack of references into them,
      `clearedPaths`, and `scriptCalledVars`. */
  datatype AState = AState(cmds: seq<Instr>, stack: seq<nat>, clearedPaths: seq<int>, calledVars: map<string, seq<Value>>)

  /** What stays fixed over a whole disassembly: the variant, the operand
      counts `COMMAND_STACKPOPS`, `scriptNames` and the string table. */
  datatype Tables = Tables(variant: Variant, pops: Arity, names: map<int, string>, strings: seq<string>)

  /** Every stack entry refers to an instruction of the script. */
  predicate Fits(st: AState)
  {
    forall k :: 0 <= k < |st.stack| ==> st.stack[k] < |st.cmds|
  }

  predicate InScript(cmds: seq<Instr>, popped: seq<nat>)
  {
    forall k :: 0 <= k < |popped| ==> popped[k] < |cmds|
  }

  predicate Distinct(calledVars: map<string, seq<Value>>)
  {
    forall key :: key in calledVars ==> NoDuplicates(calledVars[key])
  }

  /** `scriptCalledVars[name]`, or the empty list the source creates for a
      script that has none yet. */
  function SlotsOf(calledVars: map<string, seq<Value>>, name: string): seq<Value>
  {
    if name in calledVars then calledVars[name] else []
  }

  /** No script's slot list disappears, and each only grows at its end. */
  predicate Grows(m: map<string, seq<Value>>, m': map<string, seq<Value>>)
  {
    forall key :: key in m ==> key in m' && m[key] <= m'[key]
  }

  /** What every action of the analysis keeps: the script changes only in
      first parameters, slot lists only grow, and slot lists without
      duplicates keep none. */
  predicate Steady(t: Tables, st: AState, st': AState)
  {
    && Rewrites(t.variant, t.names, t.strings, st.cmds, st'.cmds)
    && Grows(st.calledVars, st'.calledVars)
    && (Distinct(st.calledVars) ==> Distinct(st'.calledVars))
  }

  lemma SteadyTransitive(t: Tables, a: AState, b: AState, c: AState)
    requires Steady(t, a, b) && Steady(t, b, c)
    ensures Steady(t, a, c)
  {
    RewritesTransitive(t.variant, t.names, t.strings, a.cmds, b.cmds, c.cmds);
    forall key | key in a.calledVars
      ensures key in c.calledVars && a.calledVars[key] <= c.calledVars[key]
    {
      var x, y, z := a.calledVars[key], b.calledVars[key], c.calledVars[key];
      assert x == y[..|x|] && y == z[..|y|];
    }
  }

  /** A step that may raise: on success it keeps `Steady`, the stack and
      `clearedPaths`. */
  predicate Acts(t: Tables, st: AState, r: Outcome<AState>)
  {
    r.Ok? ==> Steady(t, st, r.value) && r.value.stack == st.stack && r.value.clearedPaths == st.clearedPaths
  }

  /** A constant push whose operand is a known script offset
      (the test of disasmlib.py:37-39). */
  predicate Resolvable(names: map<int, string>, c: Instr)
  {
    c.command in PushConstant && |c.parameters| > 0 && c.parameters[0].Int? && c.parameters[0].i in names
  }

  /** That push with the offset replaced by the script's name. */
  function Resolved(t: Tables, c: Instr): (d: Instr)
    requires Resolvable(t.names, c)
    ensures InstrRewrite(t.variant, t.names, t.strings, c, d)
    ensures d.parameters[0] == NameRef(t.variant, t.names[c.parameters[0].i]) && !d.parameters[0].Int?
  {
    c.(parameters := c.parameters[0 := NameRef(t.variant, t.names[c.parameters[0].i])])
  }

  /** A load of a local variable slot: `0xB` with `parameters[0] == 0`. */
  predicate LocalLoad(c: Instr)
  {
    c.command == 0xB && |c.parameters| > 1 && IsInt(c.parameters[0], 0)
  }

  /** The effect `updateScriptReference` has on the entry `e`, as seen in
      `st'` for an entry that stood as in `st`: a resolvable push carries its
      script's name, and a local load's slot is recorded for the walking
      script. */
  predicate Done(t: Tables, name: string, st: AState, st': AState, e: nat)
    requires e < |st.cmds| && e < |st'.cmds|
  {
    && (Resolvable(t.names, st.cmds[e]) ==> st'.cmds[e] == Resolved(t, st.cmds[e]))
    && (LocalLoad(st.cmds[e]) ==> st.cmds[e].parameters[1] in SlotsOf(st'.calledVars, name))
  }

  /** `updateScriptReference(popped, index, name)` (disasmlib.py:33-53,
      disasm.py:28-47). */
  function UpdateRef(t: Tables, name: string, st: AState, popped: seq<nat>, index: int): (r: Outcome<AState>)
    requires InScript(st.cmds, popped)
    ensures At(popped, index).None? ==> r == Raise(IndexError)
    ensures Acts(t, st, r)
    ensures r.Ok? ==> forall k :: 0 <= k < |st.cmds| && k != At(popped, index).value ==> r.value.cmds[k] == st.cmds[k]
    ensures r.Ok? ==> forall key :: key in r.value.calledVars && key != name ==> key in st.calledVars && r.value.calledVars[key] == st.calledVars[key]
    ensures r.Ok? ==> GrowsByOne(SlotsOf(st.calledVars, name), SlotsOf(r.value.calledVars, name), LoadSlots(st.cmds, popped))
    ensures r.Ok? ==> Done(t, name, st, r.value, At(popped, index).value)
    ensures At(popped, index).Some? && Resolvable(t.names, st.cmds[At(popped, index).value]) ==>
      r == Ok(st.(cmds := st.cmds[At(popped, index).value := Resolved(t, st.cmds[At(popped, index).value])]))
    ensures At(popped, index).Some? && LocalLoad(st.cmds[At(popped, index).value]) ==>
      var c := st.cmds[At(popped, index).value];
      r == Ok(st.(calledVars := st.calledVars[name := AddOnce(SlotsOf(st.calledVars, name), c.parameters[1])]))
    ensures At(popped, index).Some? ==>
      var c := st.cmds[At(popped, index).value];
      r.Raise? <==> (c.command in PushConstant && c.parameters == []) || (c.command == 0xB && (c.parameters == [] || (IsInt(c.parameters[0], 0) && |c.parameters| == 1)))
    ensures At(popped, index).Some? && !Resolvable(t.names, st.cmds[At(popped, index).value]) && !LocalLoad(st.cmds[At(popped, index).value]) && r.Ok? ==> r == Ok(st)
  {
    var entry := At(popped, index);
    if entry.None? then Raise(IndexError)
    else
      var e := entry.value;
      assert e in popped;
      var c := st.cmds[e];
      if c.command in PushConstant && c.parameters == [] then Raise(IndexError)
      else if Resolvable(t.names, c) then Ok(st.(cmds := st.cmds[e := Resolved(t, c)]))
      else if c.command != 0xB then Ok(st)
      else if c.parameters == [] then Raise(IndexError)
      else if !IsInt(c.parameters[0], 0) then Ok(st)
      else if |c.parameters| == 1 then Raise(IndexError)
      else
        assert c.parameters[1] in LoadSlots(st.cmds, popped);
        Ok(st.(calledVars := st.calledVars[name := AddOnce(SlotsOf(st.calledVars, name), c.parameters[1])]))
  }

  /** The printf step of the first pass (disasmlib.py:86-88): a format operand
      that is a constant push of a string-table index is replaced by that
      string. */
  function Printf(t: Tables, st: AState, popped: seq<nat>): (r: Outcome<AState>)
    requires t.variant == Current && InScript(st.cmds, popped)
    ensures popped == [] ==> r == Raise(IndexError)
    ensures Acts(t, st, r) && (r.Ok? ==> r.value.calledVars == st.calledVars)
    ensures r.Ok? ==> forall k :: 0 <= k < |st.cmds| && k != popped[|popped| - 1] ==> r.value.cmds[k] == st.cmds[k]
    ensures popped != [] ==>
      var c := st.cmds[popped[|popped| - 1]];
      c.command in PushConstant && |c.parameters| > 0 && c.parameters[0].Int? && At(t.strings, c.parameters[0].i).Some? ==>
        r == Ok(st.(cmds := st.cmds[popped[|popped| - 1] := c.(parameters := c.parameters[0 := Str(At(t.strings, c.parameters[0].i).value)])]))
    ensures popped != [] ==>
      var c := st.cmds[popped[|popped| - 1]];
      c.command !in PushConstant || (|c.parameters| > 0 && c.parameters[0].Str?) ==> r == Ok(st)
  {
    var last := At(popped, -1);
    if last.None? then Raise(IndexError)
    else
      var e := last.value;
      assert e in popped;
      var c := st.cmds[e];
      if c.command !in PushConstant then Ok(st)
      else if c.parameters == [] then Raise(IndexError)
      else if c.parameters[0].Str? then Ok(st)
      else if !c.parameters[0].Int? then Raise(TypeError)
      else
        var text := At(t.strings, c.parameters[0].i);
        if text.None? then Raise(IndexError)
        else
          var d := c.(parameters := c.parameters[0 := Str(text.value)]);
          assert InstrRewrite(t.variant, t.names, t.strings, c, d);
          Ok(st.(cmds := st.cmds[e := d]))
  }

  /** The sys-call step of the first pass (disasmlib.py:90-98): calls 0 and
      3 resolve `popped[0]`, call 0x29 `popped[1]`; the second 0x29 test is
      never reached. */
  function SysCall(t: Tables, name: string, st: AState, c: Instr, popped: seq<nat>): (r: Outcome<AState>)
    requires InScript(st.cmds, popped)
    ensures Acts(t, st, r)
    ensures |c.parameters| < 2 ==> r == Raise(IndexError)
    ensures |c.parameters| >= 2 && c.parameters[1] in {Int(0), Int(3)} ==> r == UpdateRef(t, name, st, popped, 0)
    ensures |c.parameters| >= 2 && c.parameters[1] == Int(0x29) ==> r == UpdateRef(t, name, st, popped, 1)
    ensures |c.parameters| >= 2 && c.parameters[1] !in {Int(0), Int(3), Int(0x29)} ==> r == Ok(st)
  {
    var p1 := Param(c, 1);
    if p1.None? then Raise(IndexError)
    else if IsInt(p1.value, 0) || IsInt(p1.value, 3) then UpdateRef(t, name, st, popped, 0)
    else if IsInt(p1.value, 0x29) then UpdateRef(t, name, st, popped, 1)
    else Ok(st)
  }

  /** The global-store step of the first pass (disasmlib.py:100-101): a store
      into a global that `gvIsOffset` marks resolves `popped[0]`. */
  function GlobalStore(t: Tables, name: string, st: AState, c: Instr, popped: seq<nat>): (r: Outcome<AState>)
    requires InScript(st.cmds, popped)
    ensures Acts(t, st, r)
    ensures c.parameters == [] ==> r == Raise(IndexError)
    ensures c.parameters != [] && c.parameters[0] != Int(1) ==> r == Ok(st)
    ensures |c.parameters| >= 2 && c.parameters[0] == Int(1) && c.parameters[1].Int? ==>
      match GvIsOffset(c.parameters[1].i)
      case None => r == Raise(IndexError)
      case Some(offset) => r == if offset then UpdateRef(t, name, st, popped, 0) else Ok(st)
  {
    var p0 := Param(c, 0);
    if p0.None? then Raise(IndexError)
    else if !IsInt(p0.value, 1) then Ok(st)
    else
      var p1 := Param(c, 1);
      if p1.None? then Raise(IndexError)
      else if !p1.value.Int? then Raise(TypeError)
      else
        match GvIsOffset(p1.value.i)
        case None => Raise(IndexError)
        case Some(offset) => if offset then UpdateRef(t, name, st, popped, 0) else Ok(st)
  }

  /** A first-pass step (`passCount == 0`, disasmlib.py:81-101) at
      instruction `i`, as the source's four tests in sequence. */
  function FirstPass(t: Tables, name: string, st: AState, i: nat, popped: seq<nat>): (r: Outcome<AState>)
    requires i < |st.cmds| && InScript(st.cmds, popped)
    ensures Acts(t, st, r)
    ensures st.cmds[i].command in Calls ==> r == UpdateRef(t, name, st, popped, 0)
    ensures st.cmds[i].command == 0x2c ==> r == if t.variant == Current then Printf(t, st, popped) else Ok(st)
    ensures st.cmds[i].command == 0x2d ==> r == SysCall(t, name, st, st.cmds[i], popped)
    ensures st.cmds[i].command == 0x1C ==> r == GlobalStore(t, name, st, st.cmds[i], popped)
    ensures st.cmds[i].command !in Calls + {0x2c, 0x2d, 0x1C} ==> r == Ok(st)
  {
    var c := st.cmds[i];
    var s1 :- if c.command in Calls then UpdateRef(t, name, st, popped, 0) else Ok(st);
    var s2 :- if t.variant == Current && c.command == 0x2c then Printf(t, s1, popped) else Ok(s1);
    var s3 :- if c.command == 0x2d then SysCall(t, name, s2, c, popped) else Ok(s2);
    if c.command == 0x1C then GlobalStore(t, name, s3, c, popped) else Ok(s3)
  }

  /** The index into `popped` of the argument that fills slot `n` of the
      called script: `popped[-(n+1)]` in disasmlib.py:117, `popped[n+1]` in
      disasm.py:107. */
  function ArgIndex(variant: Variant, n: int): int
  {
    if variant == Current then -(n + 1) else n + 1
  }

  /** The loop over `scriptCalledVars[callee]` from position `k`
      (disasmlib.py:115-117): each slot `n` with `n + 1 < len(popped)`
      resolves the argument `ArgIndex(n)`.  The list may grow while it is
      walked, as in the source, but only by slots the popped loads read. */
  function Forward(t: Tables, name: string, st: AState, callee: string, popped: seq<nat>, k: nat): (r: Outcome<AState>)
    requires InScript(st.cmds, popped) && callee in st.calledVars
    ensures Acts(t, st, r)
    ensures r.Ok? ==> forall j :: k <= j < |st.calledVars[callee]| ==> st.calledVars[callee][j].Int?
    decreases LoadSlots(st.cmds, popped) - Elements(st.calledVars[callee]), |st.calledVars[callee]| - k
  {
    var list := st.calledVars[callee];
    if k >= |list| then Ok(st)
    else if !list[k].Int? then Raise(TypeError)
    else if list[k].i + 1 < |popped| then
      match UpdateRef(t, name, st, popped, ArgIndex(t.variant, list[k].i))
      case Raise(e) => Raise(e)
      case Ok(st1) =>
        LoadSlotsStable(t.variant, t.names, t.strings, st.cmds, st1.cmds, popped);
        assert callee != name ==> st1.calledVars[callee] == list;
        Shrinks(LoadSlots(st.cmds, popped), list, st1.calledVars[callee]);
        var r := Forward(t, name, st1, callee, popped, k + 1);
        if r.Ok? then
          SteadyTransitive(t, st, st1, r.value);
          IntsFrom(list, st1.calledVars[callee], k);
          r
        else r
    else
      var r := Forward(t, name, st, callee, popped, k + 1);
      if r.Ok? then IntsFrom(list, list, k); r else r
  }

  /** A list whose slot `k` is an integer, and which a list of integers from
      `k + 1` on extends, holds integers from `k` on. */
  lemma IntsFrom(list: seq<Value>, list1: seq<Value>, k: nat)
    requires k < |list| && list[k].Int? && list <= list1
    requires forall j :: k + 1 <= j < |list1| ==> list1[j].Int?
    ensures forall j :: k <= j < |list| ==> list[j].Int?
  {
    forall j | k < j < |list| ensures list[j].Int? {
      assert list[j] == list1[j];
    }
  }

  /** A store into a local slot that holds a call target (disasmlib.py:103-105). */
  function SlotStore(t: Tables, name: string, st: AState, c: Instr, popped: seq<nat>): (r: Outcome<AState>)
    requires InScript(st.cmds, popped) && name in st.calledVars
    ensures Acts(t, st, r)
    ensures |c.parameters| >= 2 && IsInt(c.parameters[0], 0) && c.parameters[1] in st.calledVars[name] ==>
      r == UpdateRef(t, name, st, popped, 0)
    ensures |c.parameters| >= 1 && !IsInt(c.parameters[0], 0) ==> r == Ok(st)
    ensures |c.parameters| >= 2 && c.parameters[1] !in st.calledVars[name] ==> r == Ok(st)
  {
    var p0 := Param(c, 0);
    if p0.None? then Raise(IndexError)
    else if !IsInt(p0.value, 0) then Ok(st)
    else
      var p1 := Param(c, 1);
      if p1.None? then Raise(IndexError)
      else if p1.value in st.calledVars[name] then UpdateRef(t, name, st, popped, 0)
      else Ok(st)
  }

  /** A call through a constant script reference passes on the arguments
      that fill the called script's call-target slots (disasmlib.py:106-117). */
  function CallForward(t: Tables, name: string, st: AState, popped: seq<nat>): (r: Outcome<AState>)
    requires InScript(st.cmds, popped)
    ensures Acts(t, st, r)
    ensures popped == [] ==> r == Raise(IndexError)
    ensures popped != [] && st.cmds[popped[0]].command !in PushConstant ==> r == Ok(st)
    ensures popped != [] && st.cmds[popped[0]].command in PushConstant && st.cmds[popped[0]].parameters != [] ==>
      var callee := JumpScriptName(t.names, st.cmds[popped[0]].parameters[0]);
      r == if callee.Some? && callee.value in st.calledVars then Forward(t, name, st, callee.value, popped, 0) else Ok(st)
  {
    var first := At(popped, 0);
    if first.None? then Raise(IndexError)
    else
      var pc := st.cmds[first.value];
      if pc.command !in PushConstant then Ok(st)
      else
        var p0 := Param(pc, 0);
        if p0.None? then Raise(IndexError)
        else
          var callee := JumpScriptName(t.names, p0.value);
          if callee.Some? && callee.value in st.calledVars then Forward(t, name, st, callee.value, popped, 0) else Ok(st)
  }

  /** A later-pass step (`passCount >= 1`, disasmlib.py:102-117) at
      instruction `i`, as the source's two tests in sequence. */
  function LaterPass(t: Tables, name: string, st: AState, i: nat, popped: seq<nat>): (r: Outcome<AState>)
    requires i < |st.cmds| && InScript(st.cmds, popped)
    ensures Acts(t, st, r)
    ensures st.cmds[i].command in {0x1C, 0x41} ==>
      r == if name in st.calledVars then SlotStore(t, name, st, st.cmds[i], popped) else Ok(st)
    ensures st.cmds[i].command in Calls ==> r == CallForward(t, name, st, popped)
    ensures st.cmds[i].command !in Calls + {0x1C, 0x41} ==> r == Ok(st)
  {
    var c := st.cmds[i];
    var s1 :- if (c.command == 0x1C || c.command == 0x41) && name in st.calledVars then SlotStore(t, name, st, c, popped) else Ok(st);
    if c.command in Calls then CallForward(t, name, s1, popped) else Ok(s1)
  }

  /** The part of one walk step before branching (disasmlib.py:71-124): pop
      the operands, run the pass's step, then push the previous instruction
      again for `0x32` (the last one, as `script[-1]`, at index 0), and this
      one if its push bit is set. */
  function StepFn(t: Tables, name: string, st: AState, i: nat, passCount: nat): (r: Outcome<AState>)
    requires Fits(st) && i < |st.cmds|
    ensures r.Ok? ==> Steady(t, st, r.value) && Fits(r.value) && r.value.clearedPaths == st.clearedPaths
    ensures r.Ok? ==> r.value.stack == Below(st.stack, t.pops(st.cmds[i].command, st.cmds[i].parameters))
                                      + (if st.cmds[i].command == 0x32 then [if i == 0 then |st.cmds| - 1 else i - 1] else [])
                                      + (if st.cmds[i].pushBit then [i] else [])
  {
    var s1 :- Act(t, name, st, i, passCount);
    Ok(s1.(stack := Pushes(st.cmds, i, s1.stack)))
  }

  /** Pop the operands of instruction `i` and run the pass's step on them
      (disasmlib.py:71-117). */
  function Act(t: Tables, name: string, st: AState, i: nat, passCount: nat): (r: Outcome<AState>)
    requires Fits(st) && i < |st.cmds|
    ensures r.Ok? ==> Steady(t, st, r.value) && |r.value.cmds| == |st.cmds| && r.value.clearedPaths == st.clearedPaths
    ensures r.Ok? ==> r.value.stack == Below(st.stack, t.pops(st.cmds[i].command, st.cmds[i].parameters))
    ensures r.Ok? ==> forall k :: 0 <= k < |r.value.stack| ==> r.value.stack[k] < |st.cmds|
  {
    var c := st.cmds[i];
    var n := t.pops(c.command, c.parameters);
    var popped := Popped(st.stack, n);
    var below := st.(stack := Below(st.stack, n));
    if passCount == 0 then FirstPass(t, name, below, i, popped) else LaterPass(t, name, below, i, popped)
  }

  /** The pushes after the step at `i` (disasmlib.py:119-124). */
  function Pushes(cmds: seq<Instr>, i: nat, stack: seq<nat>): (r: seq<nat>)
    requires i < |cmds|
    ensures r == stack + (if cmds[i].command == 0x32 then [if i == 0 then |cmds| - 1 else i - 1] else [])
                      + (if cmds[i].pushBit then [i] else [])
    ensures (forall k :: 0 <= k < |stack| ==> stack[k] < |cmds|) ==> forall k :: 0 <= k < |r| ==> r[k] < |cmds|
  {
    var s2 := if cmds[i].command == 0x32 then stack + [if i == 0 then |cmds| - 1 else i - 1] else stack;
    if cmds[i].pushBit then s2 + [i] else s2
  }

  /** Where the cursor moves after instruction `i` (disasmlib.py:140-148):
      a jump or else goes to the instruction at its target position, or to
      the next one when there is none; any other instruction goes to the
      next one. */
  function Next(cmds: seq<Instr>, i: nat): (r: Outcome<nat>)
    requires i < |cmds|
    ensures cmds[i].command !in JumpOrElse ==> r == Ok(i + 1)
    ensures cmds[i].command in JumpOrElse ==> (r.Raise? <==> cmds[i].parameters == [])
    ensures cmds[i].command in JumpOrElse && r.Ok? ==>
      var target := cmds[i].parameters[0];
      if exists k :: 0 <= k < |cmds| && target == Int(cmds[k].commandPosition)
      then r.value < |cmds| && target == Int(cmds[r.value].commandPosition)
           && forall k :: 0 <= k < r.value ==> target != Int(cmds[k].commandPosition)
      else r.value == i + 1
  {
    if cmds[i].command !in JumpOrElse then Ok(i + 1)
    else
      match Param(cmds[i], 0)
      case None => Raise(IndexError)
      case Some(target) =>
        match IndexOfPosition(cmds, target)
        case None => Ok(i + 1)
        case Some(j) => Ok(j)
  }

  /** How a walk ended, its final state, and where the cursor stood. */
  datatype Exit = Exit(walk: Walk, st: AState, at: nat)

  /** The analysis loop of `emuScript` from cursor `i` with `budget` steps
      left (disasmlib.py:66-151). */
  function Run(t: Tables, name: string, st: AState, i: nat, passCount: nat, endPosition: Option<nat>, budget: nat): (r: Outcome<Exit>)
    requires Fits(st)
    ensures r.Ok? ==> Steady(t, st, r.value.st) && Fits(r.value.st)
    ensures r.Ok? && r.value.walk == Rejoined ==>
      endPosition.Some? && endPosition.value <= r.value.at < |st.cmds| && r.value.st.stack == []
    ensures r.Ok? && r.value.walk == RanOffEnd ==> r.value.at >= |st.cmds|
    decreases budget, 1
  {
    if i >= |st.cmds| then Ok(Exit(RanOffEnd, st, i))
    else if endPosition.Some? && i >= endPosition.value && st.stack == [] then Ok(Exit(Rejoined, st, i))
    else if budget == 0 then Ok(Exit(OutOfFuel, st, i))
    else Proceed(t, name, st, i, passCount, endPosition, budget - 1)
  }

  /** One pass of the loop body at `i`, with `budget` steps left after it:
      the turn, then, unless a sub-walk ran out of fuel, the move on. */
  function Proceed(t: Tables, name: string, st: AState, i: nat, passCount: nat, endPosition: Option<nat>, budget: nat): (r: Outcome<Exit>)
    requires Fits(st) && i < |st.cmds|
    ensures r.Ok? ==> Steady(t, st, r.value.st) && Fits(r.value.st)
    ensures r.Ok? && r.value.walk == Rejoined ==>
      endPosition.Some? && endPosition.value <= r.value.at < |st.cmds| && r.value.st.stack == []
    ensures r.Ok? && r.value.walk == RanOffEnd ==> r.value.at >= |st.cmds|
    decreases budget, 7
  {
    var x :- Turn(t, name, st, i, passCount, budget);
    if x.0 then Ok(Exit(OutOfFuel, x.1, i))
    else Chain(t, st, x.1, Advance(t, name, x.1, i, passCount, endPosition, budget))
  }

  /** Where `Run` stops at once: past the last instruction, at the end
      position with an empty stack, or out of budget. */
  lemma RunStops(t: Tables, name: string, st: AState, i: nat, passCount: nat, endPosition: Option<nat>, budget: nat)
    requires Fits(st)
    ensures i >= |st.cmds| ==> Run(t, name, st, i, passCount, endPosition, budget) == Ok(Exit(RanOffEnd, st, i))
    ensures i < |st.cmds| && endPosition.Some? && i >= endPosition.value && st.stack == [] ==>
      Run(t, name, st, i, passCount, endPosition, budget) == Ok(Exit(Rejoined, st, i))
    ensures i < |st.cmds| && !(endPosition.Some? && i >= endPosition.value && st.stack == []) && budget == 0 ==>
      Run(t, name, st, i, passCount, endPosition, budget) == Ok(Exit(OutOfFuel, st, i))
  {
  }

  /** One turn of the walk at `i`: the step, then, for a conditional branch,
      its sub-walk; `true` when that sub-walk ran out of fuel. */
  function Turn(t: Tables, name: string, st: AState, i: nat, passCount: nat, budget: nat): (r: Outcome<(bool, AState)>)
    requires Fits(st) && i < |st.cmds|
    ensures r.Ok? ==> Steady(t, st, r.value.1) && Fits(r.value.1)
    decreases budget, 6
  {
    var st1 :- StepFn(t, name, st, i, passCount);
    if st1.cmds[i].command !in Branches then Ok((false, st1))
    else
      var b :- Branch(t, name, st1, i, passCount, budget);
      SteadyTransitive(t, st, st1, b.1);
      Ok((b.0 == Some(OutOfFuel), b.1))
  }

  /** `r`, known to keep `Steady` from `st1`, keeps it from `st`. */
  function Chain(t: Tables, st: AState, st1: AState, r: Outcome<Exit>): (r': Outcome<Exit>)
    requires Steady(t, st, st1) && (r.Ok? ==> Steady(t, st1, r.value.st))
    ensures r' == r && (r.Ok? ==> Steady(t, st, r.value.st))
  {
    if r.Ok? then SteadyTransitive(t, st, st1, r.value.st); r else r
  }

  /** Move the cursor past instruction `i` and go on walking. */
  function Advance(t: Tables, name: string, st: AState, i: nat, passCount: nat, endPosition: Option<nat>, budget: nat): (r: Outcome<Exit>)
    requires Fits(st) && i < |st.cmds|
    ensures r.Ok? ==> Steady(t, st, r.value.st) && Fits(r.value.st)
    ensures r.Ok? && r.value.walk == Rejoined ==>
      endPosition.Some? && endPosition.value <= r.value.at < |st.cmds| && r.value.st.stack == []
    ensures r.Ok? && r.value.walk == RanOffEnd ==> r.value.at >= |st.cmds|
    decreases budget, 2
  {
    var next :- Next(st.cmds, i);
    Run(t, name, st, next, passCount, endPosition, budget)
  }

  /** A conditional branch at `i` (disasmlib.py:126-138): walk from its
      target as a sub-walk on the same stack, ending at the end of the
      if/else block when an else or jump stands just before the target
      (disasm.py only looks for an else), or at the target itself when the
      stack is not empty; then record the branch in `clearedPaths`.  The
      first component is the sub-walk's result, None when neither arm is
      walked. */
  function Branch(t: Tables, name: string, st: AState, i: nat, passCount: nat, budget: nat): (r: Outcome<(Option<Walk>, AState)>)
    requires Fits(st) && i < |st.cmds|
    ensures r.Ok? ==> Steady(t, st, r.value.1) && Fits(r.value.1)
    decreases budget, 5
  {
    var target :- (match Param(st.cmds[i], 0) case None => Raise(IndexError) case Some(v) => Ok(v));
    var jumpIndex :- (match IndexOfPosition(st.cmds, target) case None => Raise(TypeError) case Some(j) => Ok(j));
    var sub :- SubWalk(t, name, st, jumpIndex, passCount, budget);
    if sub.0 == Some(OutOfFuel) then Ok(sub)
    else
      var s := sub.1;
      var position := s.cmds[i].commandPosition;
      Ok((sub.0, s.(clearedPaths := if position in s.clearedPaths then s.clearedPaths else s.clearedPaths + [position])))
  }

  /** The sub-walk of a conditional branch whose target is instruction
      `jumpIndex`; None when neither arm is walked. */
  function SubWalk(t: Tables, name: string, st: AState, jumpIndex: nat, passCount: nat, budget: nat): (r: Outcome<(Option<Walk>, AState)>)
    requires Fits(st) && jumpIndex < |st.cmds|
    ensures r.Ok? ==> Steady(t, st, r.value.1) && Fits(r.value.1)
    decreases budget, 4
  {
    var prev := st.cmds[if jumpIndex == 0 then |st.cmds| - 1 else jumpIndex - 1];
    var elseBefore := if t.variant == Current then prev.command in JumpOrElse else prev.command == 0x36;
    if elseBefore then
      (match Param(prev, 0)
       case None => Raise(IndexError)
       case Some(blockEnd) =>
         var x :- Emu(t, name, st, jumpIndex, passCount, IndexOfPosition(st.cmds, blockEnd), budget);
         Ok((Some(x.walk), x.st)))
    else if |st.stack| > 0 then
      var x :- Emu(t, name, st, jumpIndex, passCount, Some(jumpIndex), budget);
      Ok((Some(x.walk), x.st))
    else Ok((None, st))
  }

  /** `emuScript(script, startIndex, stack, passCount, endPosition)`
      (disasmlib.py:60-151, disasm.py:54-141) with at most `fuel` steps per
      walk: a top-level walk (no end position) empties `clearedPaths`
      first. */
  function Emu(t: Tables, name: string, st: AState, startIndex: nat, passCount: nat, endPosition: Option<nat>, fuel: nat): (r: Outcome<Exit>)
    requires Fits(st)
    ensures r.Ok? ==> Steady(t, st, r.value.st) && Fits(r.value.st)
    ensures r.Ok? && r.value.walk == Rejoined ==>
      endPosition.Some? && endPosition.value <= r.value.at < |st.cmds| && r.value.st.stack == []
    ensures r.Ok? && r.value.walk == RanOffEnd ==> r.value.at >= |st.cmds|
    decreases fuel, 3
  {
    Run(t, name, if endPosition.None? then st.(clearedPaths := []) else st, startIndex, passCount, endPosition, fuel)
  }

  /** The outcome of a method that changed its object's state to `st`. */
  function Resulting(r: Outcome<()>, st: AState): Outcome<AState>
  {
    if r.Raise? then Raise(r.error) else Ok(st)
  }

  function WithState<T>(r: Outcome<T>, st: AState): Outcome<(T, AState)>
  {
    if r.Raise? then Raise(r.error) else Ok((r.value, st))
  }

  /** `r` and `st` are the walk and the state of the exit `e`. */
  predicate Walked(r: Outcome<Walk>, st: AState, e: Outcome<Exit>)
  {
    r == WalkOf(e) && (r.Ok? ==> st == e.value.st)
  }

  function WalkOf(r: Outcome<Exit>): Outcome<Walk>
  {
    if r.Raise? then Raise(r.error) else Ok(r.value.walk)
  }

  /** The analysis state of the source's globals during one script's walk:
      that script's instructions (whose parameters it rewrites in place), the
      stack of instruction references shared by the walk and all its
      sub-walks, `clearedPaths`, and `scriptCalledVars`, which persists over
      all scripts and passes.  Each method computes the function of the same
      step on `St()`. */
  class Analyzer {
    const variant: Variant
    const pops: Arity
    const names: map<int, string>
    const strings: seq<string>
    var scriptName: string
    var cmds: seq<Instr>
    var stack: seq<nat>
    var clearedPaths: seq<int>
    var calledVars: map<string, seq<Value>>

    function St(): AState
      reads this
    {
      AState(cmds, stack, clearedPaths, calledVars)
    }

    function Tab(): Tables
    {
      Tables(variant, pops, names, strings)
    }

    ghost predicate Valid()
      reads this
    {
      Fits(St()) && Distinct(calledVars)
    }

    constructor (variant: Variant, pops: Arity, names: map<int, string>, strings: seq<string>)
      ensures Valid()
      ensures this.variant == variant && this.pops == pops && this.names == names && this.strings == strings
      ensures cmds == [] && stack == [] && clearedPaths == [] && calledVars == map[]
    {
      this.variant := variant;
      this.pops := pops;
      this.names := names;
      this.strings := strings;
      scriptName := "";
      cmds := [];
      stack := [];
      clearedPaths := [];
      calledVars := map[];
    }

    /** Starts the walk of one script: `emuScript(script, 0, [], pass)`. */
    method Load(name: string, script: seq<Instr>)
      requires Valid()
      modifies this
      ensures Valid()
      ensures scriptName == name && St() == AState(script, [], [], old(calledVars))
    {
      scriptName := name;
      cmds := script;
      stack := [];
      clearedPaths := [];
    }

    /** `for _ in range(popCount): popped.append(stack.pop())`, where the
        `IndexError` of an empty stack is caught and ends the loop. */
    method PopOperands(count: nat) returns (popped: seq<nat>)
      requires Valid()
      modifies this
      ensures Valid()
      ensures popped == Popped(old(stack), count) && stack == Below(old(stack), count)
      ensures cmds == old(cmds) && calledVars == old(calledVars) && clearedPaths == old(clearedPaths)
      ensures scriptName == old(scriptName)
      ensures InScript(cmds, popped)
    {
      popped := [];
      var n := 0;
      while n < count && |stack| > 0
        invariant 0 <= n <= count
        invariant n <= |old(stack)| && stack == old(stack)[..|old(stack)| - n]
        invariant popped == Popped(old(stack), n)
        invariant cmds == old(cmds) && calledVars == old(calledVars) && clearedPaths == old(clearedPaths)
        invariant scriptName == old(scriptName)
        invariant Valid()
        decreases count - n
      {
        popped := popped + [stack[|stack| - 1]];
        stack := stack[..|stack| - 1];
        n := n + 1;
      }
    }

    /** `updateScriptReference(popped, index, scriptName)`: if the entry is a
        constant push of a known script offset, replace the offset by the
        script's name; if it is a load of a local slot, record the slot in
        `scriptCalledVars[scriptName]` unless it is there already. */
    method UpdateScriptReference(popped: seq<nat>, index: int) returns (r: Outcome<()>)
      requires Valid() && InScript(cmds, popped)
      modifies this
      ensures Valid() && scriptName == old(scriptName)
      ensures Resulting(r, St()) == UpdateRef(Tab(), scriptName, old(St()), popped, index)
    {
      var entry := At(popped, index);
      if entry.None? {
        return Raise(IndexError);
      }
      var e := entry.value;
      assert e in popped;
      var c := cmds[e];
      if c.command in PushConstant {
        if c.parameters == [] {
          return Raise(IndexError);
        }
        if c.parameters[0].Int? && c.parameters[0].i in names {
          cmds := cmds[e := Resolved(Tab(), c)];
        }
      }
      if c.command == 0xB {
        if c.parameters == [] {
          return Raise(IndexError);
        }
        if IsInt(c.parameters[0], 0) {
          if |c.parameters| == 1 {
            return Raise(IndexError);
          }
          var list := if scriptName in calledVars then calledVars[scriptName] else [];
          calledVars := calledVars[scriptName := AddOnce(list, c.parameters[1])];
        }
      }
      return Ok(());
    }

    /** The printf step of the first pass. */
    method PrintfFormat(popped: seq<nat>) returns (r: Outcome<()>)
      requires Valid() && variant == Current && InScript(cmds, popped)
      modifies this
      ensures Valid() && scriptName == old(scriptName)
      ensures Resulting(r, St()) == Printf(Tab(), old(St()), popped)
    {
      var last := At(popped, -1);
      if last.None? {
        return Raise(IndexError);
      }
      var e := last.value;
      assert e in popped;
      var pc := cmds[e];
      if pc.command in PushConstant {
        var p0 := Param(pc, 0);
        if p0.None? {
          return Raise(IndexError);
        }
        if !p0.value.Str? {
          if !p0.value.Int? {
            return Raise(TypeError);
          }
          var text := At(strings, p0.value.i);
          if text.None? {
            return Raise(IndexError);
          }
          cmds := cmds[e := pc.(parameters := pc.parameters[0 := Str(text.value)])];
        }
      }
      return Ok(());
    }

    /** The sys-call step of the first pass. */
    method SysCallStep(c: Instr, popped: seq<nat>) returns (r: Outcome<()>)
      requires Valid() && InScript(cmds, popped)
      modifies this
      ensures Valid() && scriptName == old(scriptName)
      ensures Resulting(r, St()) == SysCall(Tab(), scriptName, old(St()), c, popped)
    {
      var p1 := Param(c, 1);
      if p1.None? {
        return Raise(IndexError);
      }
      if IsInt(p1.value, 0) || IsInt(p1.value, 3) {
        r := UpdateScriptReference(popped, 0);
      } else if IsInt(p1.value, 0x29) {
        r := UpdateScriptReference(popped, 1);
      } else {
        r := Ok(());
      }
    }

    /** The global-store step of the first pass. */
    method GlobalStoreStep(c: Instr, popped: seq<nat>) returns (r: Outcome<()>)
      requires Valid() && InScript(cmds, popped)
      modifies this
      ensures Valid() && scriptName == old(scriptName)
      ensures Resulting(r, St()) == GlobalStore(Tab(), scriptName, old(St()), c, popped)
    {
      var p0 := Param(c, 0);
      if p0.None? {
        return Raise(IndexError);
      }
      if IsInt(p0.value, 1) {
        var p1 := Param(c, 1);
        if p1.None? {
          return Raise(IndexError);
        }
        if !p1.value.Int? {
          return Raise(TypeError);
        }
        var g := GvIsOffset(p1.value.i);
        if g.None? {
          return Raise(IndexError);
        }
        if g.value {
          r := UpdateScriptReference(popped, 0);
          return;
        }
      }
      return Ok(());
    }

    /** A first-pass step (`passCount == 0`) at instruction `i`: calls, printf
        (disasmlib.py only), sys calls and stores of offset-holding globals
        pass their operands to `updateScriptReference`. */
    method FirstPassStep(i: nat, popped: seq<nat>) returns (r: Outcome<()>)
      requires Valid() && i < |cmds| && InScript(cmds, popped)
      modifies this
      ensures Valid() && scriptName == old(scriptName)
      ensures Resulting(r, St()) == FirstPass(Tab(), scriptName, old(St()), i, popped)
    {
      var c := cmds[i];
      r := Ok(());
      if c.command in Calls {
        r := UpdateScriptReference(popped, 0);
        if r.Raise? { return; }
      }
      if variant == Current && c.command == 0x2c {
        r := PrintfFormat(popped);
        if r.Raise? { return; }
      }
      if c.command == 0x2d {
        r := SysCallStep(c, popped);
        if r.Raise? { return; }
      }
      if c.command == 0x1C {
        r := GlobalStoreStep(c, popped);
      }
    }

    /** The loop over `scriptCalledVars[callee]`: each slot `n` of the callee
        that holds a call target takes the argument `ArgIndex(n)`.  The list
        may grow while it is walked, as in the source; it only grows by slots
        not yet in it, read by the loads among `popped`, which bounds the
        walk. */
    method ForwardArguments(callee: string, popped: seq<nat>) returns (r: Outcome<()>)
      requires Valid() && callee in calledVars && InScript(cmds, popped)
      modifies this
      ensures Valid() && scriptName == old(scriptName)
      ensures Resulting(r, St()) == Forward(Tab(), scriptName, old(St()), callee, popped, 0)
    {
      ghost var slots := LoadSlots(cmds, popped);
      var k := 0;
      while k < |calledVars[callee]|
        invariant Valid() && callee in calledVars && InScript(cmds, popped)
        invariant LoadSlots(cmds, popped) == slots
        invariant scriptName == old(scriptName)
        invariant Forward(Tab(), scriptName, old(St()), callee, popped, 0) == Forward(Tab(), scriptName, St(), callee, popped, k)
        decreases slots - Elements(calledVars[callee]), |calledVars[callee]| - k
      {
        var slot := calledVars[callee][k];
        if !slot.Int? {
          return Raise(TypeError);
        }
        if slot.i + 1 < |popped| {
          ghost var before := St();
          r := UpdateScriptReference(popped, ArgIndex(variant, slot.i));
          if r.Raise? { return; }
          LoadSlotsStable(variant, names, strings, before.cmds, cmds, popped);
          assert callee != scriptName ==> calledVars[callee] == before.calledVars[callee];
          Shrinks(slots, before.calledVars[callee], calledVars[callee]);
        }
        k := k + 1;
      }
      return Ok(());
    }

    /** A store into a slot known to hold a call target passes its operand
        on. */
    method SlotStoreStep(c: Instr, popped: seq<nat>) returns (r: Outcome<()>)
      requires Valid() && scriptName in calledVars && InScript(cmds, popped)
      modifies this
      ensures Valid() && scriptName == old(scriptName)
      ensures Resulting(r, St()) == SlotStore(Tab(), scriptName, old(St()), c, popped)
    {
      var p0 := Param(c, 0);
      if p0.None? {
        return Raise(IndexError);
      }
      if IsInt(p0.value, 0) {
        var p1 := Param(c, 1);
        if p1.None? {
          return Raise(IndexError);
        }
        if p1.value in calledVars[scriptName] {
          r := UpdateScriptReference(popped, 0);
          return;
        }
      }
      return Ok(());
    }

    /** A call through a constant script name passes on the arguments that
        fill that script's call-target slots. */
    method CallForwardStep(popped: seq<nat>) returns (r: Outcome<()>)
      requires Valid() && InScript(cmds, popped)
      modifies this
      ensures Valid() && scriptName == old(scriptName)
      ensures Resulting(r, St()) == CallForward(Tab(), scriptName, old(St()), popped)
    {
      var first := At(popped, 0);
      if first.None? {
        return Raise(IndexError);
      }
      var pc := cmds[first.value];
      if pc.command in PushConstant {
        var p0 := Param(pc, 0);
        if p0.None? {
          return Raise(IndexError);
        }
        var jump := JumpScriptName(names, p0.value);
        if jump.Some? && jump.value in calledVars {
          r := ForwardArguments(jump.value, popped);
          return;
        }
      }
      return Ok(());
    }

    /** A later-pass step (`passCount >= 1`) at instruction `i`. */
    method LaterPassStep(i: nat, popped: seq<nat>) returns (r: Outcome<()>)
      requires Valid() && i < |cmds| && InScript(cmds, popped)
      modifies this
      ensures Valid() && scriptName == old(scriptName)
      ensures Resulting(r, St()) == LaterPass(Tab(), scriptName, old(St()), i, popped)
    {
      var c := cmds[i];
      r := Ok(());
      if (c.command == 0x1C || c.command == 0x41) && scriptName in calledVars {
        r := SlotStoreStep(c, popped);
        if r.Raise? { return; }
      }
      if c.command in Calls {
        r := CallForwardStep(popped);
      }
    }

    /** The part of one walk step before branching. */
    method Step(i: nat, passCount: nat) returns (r: Outcome<()>)
      requires Valid() && i < |cmds|
      modifies this
      ensures Valid() && scriptName == old(scriptName)
      ensures Resulting(r, St()) == StepFn(Tab(), scriptName, old(St()), i, passCount)
    {
      r := ActStep(i, passCount);
      if r.Raise? { return; }
      ghost var acted := St();
      assert StepFn(Tab(), scriptName, old(St()), i, passCount) == Ok(acted.(stack := Pushes(old(cmds), i, acted.stack)));
      stack := Pushes(cmds, i, stack);
    }

    /** Pop the operands and run the pass's step. */
    method ActStep(i: nat, passCount: nat) returns (r: Outcome<()>)
      requires Valid() && i < |cmds|
      modifies this
      ensures Valid() && scriptName == old(scriptName)
      ensures Resulting(r, St()) == Act(Tab(), scriptName, old(St()), i, passCount)
    {
      var c := cmds[i];
      var popped := PopOperands(pops(c.command, c.parameters));
      if passCount == 0 {
        r := FirstPassStep(i, popped);
      } else {
        r := LaterPassStep(i, popped);
      }
    }

    /** A conditional branch at `i`: the sub-walk from its target, then the
        `clearedPaths` record. */
    method WalkBranch(i: nat, passCount: nat, depth: nat, budget: nat) returns (r: Outcome<Option<Walk>>)
      requires Valid() && i < |cmds|
      modifies this
      ensures Valid() && scriptName == old(scriptName)
      ensures WithState(r, St()) == Branch(Tab(), scriptName, old(St()), i, passCount, budget)
      decreases budget, 4
    {
      var target := Param(cmds[i], 0);
      if target.None? {
        return Raise(IndexError);
      }
      var found := IndexOfPosition(cmds, target.value);
      if found.None? {
        return Raise(TypeError);
      }
      r := SubWalkStep(found.value, passCount, depth, budget);
      if r.Raise? || r.value == Some(OutOfFuel) {
        return;
      }
      if cmds[i].commandPosition !in clearedPaths {
        clearedPaths := clearedPaths + [cmds[i].commandPosition];
      }
    }

    /** The sub-walk of a conditional branch whose target is `jumpIndex`. */
    method SubWalkStep(jumpIndex: nat, passCount: nat, depth: nat, budget: nat) returns (r: Outcome<Option<Walk>>)
      requires Valid() && jumpIndex < |cmds|
      modifies this
      ensures Valid() && scriptName == old(scriptName)
      ensures WithState(r, St()) == SubWalk(Tab(), scriptName, old(St()), jumpIndex, passCount, budget)
      decreases budget, 3
    {
      var prev := cmds[if jumpIndex == 0 then |cmds| - 1 else jumpIndex - 1];
      var elseBefore := if variant == Current then prev.command in JumpOrElse else prev.command == 0x36;
      if elseBefore {
        var blockEnd := Param(prev, 0);
        if blockEnd.None? {
          return Raise(IndexError);
        }
        var sub := EmuScript(jumpIndex, passCount, IndexOfPosition(cmds, blockEnd.value), depth + 1, budget);
        if sub.Raise? {
          return Raise(sub.error);
        }
        r := Ok(Some(sub.value));
      } else if |stack| > 0 {
        var sub := EmuScript(jumpIndex, passCount, Some(jumpIndex), depth + 1, budget);
        if sub.Raise? {
          return Raise(sub.error);
        }
        r := Ok(Some(sub.value));
      } else {
        r := Ok(None);
      }
    }

    /** One turn of the walk at `i`: the step and, for a conditional branch,
        its sub-walk. */
    method TakeTurn(i: nat, passCount: nat, depth: nat, budget: nat) returns (r: Outcome<bool>)
      requires Valid() && i < |cmds|
      modifies this
      ensures Valid() && scriptName == old(scriptName)
      ensures WithState(r, St()) == Turn(Tab(), scriptName, old(St()), i, passCount, budget)
      decreases budget, 5
    {
      var step := Step(i, passCount);
      if step.Raise? {
        return Raise(step.error);
      }
      if cmds[i].command in Branches {
        var sub := WalkBranch(i, passCount, depth, budget);
        if sub.Raise? {
          return Raise(sub.error);
        }
        return Ok(sub.value == Some(OutOfFuel));
      }
      return Ok(false);
    }

    /** One turn of the loop of `emuScript` at `i`: the walk ends there
        (`stop`: rejoined, out of fuel, or raised), or it takes the turn and
        moves on to the instruction `next`. */
    method WalkTurn(i: nat, passCount: nat, endPosition: Option<nat>, depth: nat, budget: nat) returns (stop: Option<Outcome<Walk>>, next: nat)
      requires Valid() && i < |cmds|
      modifies this
      ensures Valid() && scriptName == old(scriptName)
      ensures stop.Some? ==> Walked(stop.value, St(), Run(Tab(), scriptName, old(St()), i, passCount, endPosition, budget))
      ensures stop.None? ==>
        budget > 0 && Run(Tab(), scriptName, old(St()), i, passCount, endPosition, budget) == Run(Tab(), scriptName, St(), next, passCount, endPosition, budget - 1)
      decreases budget, 0
    {
      RunStops(Tab(), scriptName, St(), i, passCount, endPosition, budget);
      if endPosition.Some? && i >= endPosition.value && |stack| == 0 {
        return Some(Ok(Rejoined)), 0;
      }
      if budget == 0 {
        return Some(Ok(OutOfFuel)), 0;
      }
      stop, next := ProceedStep(i, passCount, endPosition, depth, budget - 1);
    }

    /** The loop body at `i` with `budget` steps left after it: the turn,
        then the move to the next instruction. */
    method ProceedStep(i: nat, passCount: nat, endPosition: Option<nat>, depth: nat, budget: nat) returns (stop: Option<Outcome<Walk>>, next: nat)
      requires Valid() && i < |cmds|
      modifies this
      ensures Valid() && scriptName == old(scriptName)
      ensures stop.Some? ==> Walked(stop.value, St(), Proceed(Tab(), scriptName, old(St()), i, passCount, endPosition, budget))
      ensures stop.None? ==>
        Proceed(Tab(), scriptName, old(St()), i, passCount, endPosition, budget) == Run(Tab(), scriptName, St(), next, passCount, endPosition, budget)
      decreases budget, 6
    {
      ghost var before := St();
      var starved := TakeTurn(i, passCount, depth, budget);
      if starved.Raise? {
        return Some(Raise(starved.error)), 0;
      }
      if starved.value {
        assert Turn(Tab(), scriptName, before, i, passCount, budget) == Ok((true, St()));
        return Some(Ok(OutOfFuel)), 0;
      }
      assert Proceed(Tab(), scriptName, before, i, passCount, endPosition, budget)
          == Chain(Tab(), before, St(), Advance(Tab(), scriptName, St(), i, passCount, endPosition, budget));
      var n := Next(cmds, i);
      if n.Raise? {
        return Some(Raise(n.error)), 0;
      }
      return None, n.value;
    }

    /** `emuScript(script, startIndex, stack, passCount, endPosition, depth)`:
        walk from `startIndex` over the instructions, one `Step` each, walking
        the taken side of each conditional branch as a sub-walk on the same
        stack, with at most `fuel` steps per walk. */
    method EmuScript(startIndex: nat, passCount: nat, endPosition: Option<nat>, depth: nat, fuel: nat) returns (r: Outcome<Walk>)
      requires Valid()
      modifies this
      ensures Valid() && scriptName == old(scriptName)
      ensures r == WalkOf(Emu(Tab(), scriptName, old(St()), startIndex, passCount, endPosition, fuel))
      ensures r.Ok? ==> St() == Emu(Tab(), scriptName, old(St()), startIndex, passCount, endPosition, fuel).value.st
      decreases fuel, 2
    {
      if endPosition.None? {
        clearedPaths := [];
      }
      r := WalkFrom(startIndex, passCount, endPosition, depth, fuel);
    }

    /** The loop of `emuScript` from cursor `i` with `budget` steps left. */
    method WalkFrom(start: nat, passCount: nat, endPosition: Option<nat>, depth: nat, fuel: nat) returns (r: Outcome<Walk>)
      requires Valid()
      modifies this
      ensures Valid() && scriptName == old(scriptName)
      ensures Walked(r, St(), Run(Tab(), scriptName, old(St()), start, passCount, endPosition, fuel))
      decreases fuel, 1
    {
      var i: nat := start;
      var budget: nat := fuel;
      ghost var walk := Run(Tab(), scriptName, St(), i, passCount, endPosition, budget);
      while i < |cmds|
        invariant Valid() && scriptName == old(scriptName)
        invariant budget <= fuel
        invariant walk == Run(Tab(), scriptName, St(), i, passCount, endPosition, budget)
        decreases budget
      {
        var stop, next := WalkTurn(i, passCount, endPosition, depth, budget);
        if stop.Some? {
          return stop.value;
        }
        i, budget := next, budget - 1;
      }
      RunStops(Tab(), scriptName, St(), i, passCount, endPosition, budget);
      return Ok(RanOffEnd);
    }
  }

  /** One script after disassembly: its instructions after the reference
      analysis, the labels of its jump targets, and its final command list. */
  datatype Disassembled = Disassembled(analysed: seq<Instr>, labels: map<int, Label>, items: seq<Item>)

  /** `d` is what the label pass makes of its analysed instructions. */
  predicate LabelledAsPass(variant: Variant, d: Disassembled)
  {
    && d.labels.Keys == Targets(d.analysed)
    && (forall t :: t in d.labels ==> d.labels[t] == LocLabel(t))
    && d.items == Labelled(if variant == Current then RelabelAll(d.analysed) else FirstRelabelAll(d.analysed), d.labels)
  }

  /** `d` is the disassembly of the script `original`. */
  predicate Finished(variant: Variant, names: map<int, string>, strings: seq<string>, original: seq<Instr>, d: Disassembled)
  {
    Rewrites(variant, names, strings, original, d.analysed) && LabelledAsPass(variant, d)
  }

  /** Some script of `analysed` has a jump the label pass rejects. */
  predicate LabelsFail(analysed: seq<seq<Instr>>)
  {
    exists s, k :: 0 <= s < |analysed| && 0 <= k < |analysed[s]| && BadJump(analysed[s][k])
  }

  /** The label pass of one script, in the variant's form. */
  method LabelScript(variant: Variant, analysed: seq<Instr>) returns (r: Outcome<Disassembled>)
    ensures r.Raise? <==> exists k :: 0 <= k < |analysed| && BadJump(analysed[k])
    ensures r.Ok? ==> r.value.analysed == analysed && LabelledAsPass(variant, r.value)
  {
    var labelled;
    if variant == Current {
      labelled := LabelJumps(analysed);
    } else {
      labelled := LabelFirstJumps(analysed);
    }
    if labelled.Raise? {
      return Raise(labelled.error);
    }
    var items := InsertLabels(labelled.value.0, labelled.value.1);
    return Ok(Disassembled(analysed, labelled.value.1, items));
  }

  /** `emuScript(script, 0, [], pass)` called from `disasm`: a walk of the
      whole script on an empty stack, sharing the slot table; a walk out of
      fuel raises `Diverged`. */
  function TopWalk(t: Tables, name: string, cmds: seq<Instr>, calledVars: map<string, seq<Value>>, pass: nat, fuel: nat): (r: Outcome<AState>)
    ensures r.Ok? ==> Steady(t, AState(cmds, [], [], calledVars), r.value)
  {
    var x :- Emu(t, name, AState(cmds, [], [], calledVars), 0, pass, None, fuel);
    if x.walk == OutOfFuel then Raise(Diverged) else Ok(x.st)
  }

  function Originals(scripts: seq<Script>): (work: seq<seq<Instr>>)
    ensures |work| == |scripts| && forall s :: 0 <= s < |scripts| ==> work[s] == scripts[s].cmds
  {
    seq(|scripts|, k requires 0 <= k < |scripts| => scripts[k].cmds)
  }

  /** `work` holds one first-parameter rewrite of each script. */
  predicate RewritesAll(t: Tables, scripts: seq<Script>, work: seq<seq<Instr>>)
  {
    |work| == |scripts| && forall s :: 0 <= s < |scripts| ==> Rewrites(t.variant, t.names, t.strings, scripts[s].cmds, work[s])
  }

  /** One analysis pass (disasmlib.py:209-211) over the scripts from `s` on,
      giving the rewritten scripts and the slot table. */
  function PassFrom(t: Tables, scripts: seq<Script>, work: seq<seq<Instr>>, calledVars: map<string, seq<Value>>, pass: nat, s: nat, fuel: nat)
    : (r: Outcome<(seq<seq<Instr>>, map<string, seq<Value>>)>)
    requires t.names == ScriptNames(scripts) && RewritesAll(t, scripts, work) && s <= |scripts|
    ensures r.Ok? ==> RewritesAll(t, scripts, r.value.0) && Grows(calledVars, r.value.1)
    ensures r.Ok? ==> Distinct(calledVars) ==> Distinct(r.value.1)
    decreases |scripts| - s
  {
    if s == |scripts| then Ok((work, calledVars))
    else
      var st :- TopWalk(t, t.names[scripts[s].start], work[s], calledVars, pass, fuel);
      RewritesTransitive(t.variant, t.names, t.strings, scripts[s].cmds, work[s], st.cmds);
      var r := PassFrom(t, scripts, work[s := st.cmds], st.calledVars, pass, s + 1, fuel);
      if r.Ok? then SteadyTransitive(t, AState([], [], [], calledVars), AState([], [], [], st.calledVars), AState([], [], [], r.value.1)); r else r
  }

  /** Passes `pass` up to 1 of `for i in range(2)` (disasmlib.py:208-211). */
  function Passes(t: Tables, scripts: seq<Script>, work: seq<seq<Instr>>, calledVars: map<string, seq<Value>>, pass: nat, fuel: nat)
    : (r: Outcome<(seq<seq<Instr>>, map<string, seq<Value>>)>)
    requires t.names == ScriptNames(scripts) && RewritesAll(t, scripts, work)
    ensures r.Ok? ==> RewritesAll(t, scripts, r.value.0)
    ensures r.Ok? ==> Distinct(calledVars) ==> Distinct(r.value.1)
    decreases 2 - pass
  {
    if pass >= 2 then Ok((work, calledVars))
    else
      var x :- PassFrom(t, scripts, work, calledVars, pass, 0, fuel);
      Passes(t, scripts, x.0, x.1, pass + 1, fuel)
  }

  /** The last walk of each script from `s` on (disasmlib.py:213-215), in
      order, the slot table carried along. */
  function FinalWalks(t: Tables, scripts: seq<Script>, work: seq<seq<Instr>>, calledVars: map<string, seq<Value>>, s: nat, fuel: nat)
    : (r: Outcome<seq<seq<Instr>>>)
    requires t.names == ScriptNames(scripts) && |work| == |scripts| && s <= |scripts|
    ensures r.Ok? ==> |r.value| == |scripts| - s
    ensures r.Ok? ==> forall q :: 0 <= q < |r.value| ==> Rewrites(t.variant, t.names, t.strings, work[s + q], r.value[q])
    decreases |scripts| - s
  {
    if s == |scripts| then Ok([])
    else
      var st :- TopWalk(t, t.names[scripts[s].start], work[s], calledVars, 2, fuel);
      var rest :- FinalWalks(t, scripts, work, st.calledVars, s + 1, fuel);
      Ok([st.cmds] + rest)
  }

  /** The instructions of every script after the whole reference analysis
      of `disasm` (disasmlib.py:205-215). */
  function Analysed(t: Tables, scripts: seq<Script>, fuel: nat): (r: Outcome<seq<seq<Instr>>>)
    requires t.names == ScriptNames(scripts)
    ensures r.Ok? ==> RewritesAll(t, scripts, r.value)
  {
    var x :- Passes(t, scripts, Originals(scripts), map[], 0, fuel);
    var r := FinalWalks(t, scripts, x.0, x.1, 0, fuel);
    if r.Ok? then
      assert forall s :: 0 <= s < |scripts| ==> Rewrites(t.variant, t.names, t.strings, x.0[s], r.value[s]) by {
        forall s | 0 <= s < |scripts| ensures Rewrites(t.variant, t.names, t.strings, x.0[s], r.value[s]) {
          assert x.0[0 + s] == x.0[s];
        }
      }
      forall s | 0 <= s < |scripts| ensures Rewrites(t.variant, t.names, t.strings, scripts[s].cmds, r.value[s]) {
        RewritesTransitive(t.variant, t.names, t.strings, scripts[s].cmds, x.0[s], r.value[s]);
      }
      r
    else r
  }

  /** Prepends `done` to the scripts `r` gives. */
  function After(done: seq<seq<Instr>>, r: Outcome<seq<seq<Instr>>>): Outcome<seq<seq<Instr>>>
  {
    if r.Raise? then r else Ok(done + r.value)
  }

  function AnalysedOf(out: seq<Disassembled>): (r: seq<seq<Instr>>)
    ensures |r| == |out| && forall s :: 0 <= s < |out| ==> r[s] == out[s].analysed
  {
    seq(|out|, k requires 0 <= k < |out| => out[k].analysed)
  }

  /** One analysis pass: `for script in mscFile: emuScript(script, 0, [], pass)`. */
  method RunPass(a: Analyzer, scripts: seq<Script>, work: seq<seq<Instr>>, pass: nat, fuel: nat) returns (r: Outcome<seq<seq<Instr>>>)
    requires a.Valid() && a.names == ScriptNames(scripts) && RewritesAll(a.Tab(), scripts, work)
    modifies a
    ensures a.Valid()
    ensures WithCalled(r, a.calledVars) == PassFrom(a.Tab(), scripts, work, old(a.calledVars), pass, 0, fuel)
  {
    var done := work;
    for s := 0 to |scripts|
      invariant a.Valid() && RewritesAll(a.Tab(), scripts, done)
      invariant PassFrom(a.Tab(), scripts, work, old(a.calledVars), pass, 0, fuel) == PassFrom(a.Tab(), scripts, done, a.calledVars, pass, s, fuel)
    {
      a.Load(a.names[scripts[s].start], done[s]);
      var walk := a.EmuScript(0, pass, None, 0, fuel);
      if walk.Raise? {
        return Raise(walk.error);
      }
      if walk == Ok(OutOfFuel) {
        return Raise(Diverged);
      }
      RewritesTransitive(a.variant, a.names, a.strings, scripts[s].cmds, done[s], a.cmds);
      done := done[s := a.cmds];
    }
    return Ok(done);
  }

  /** The two analysis passes over all scripts (`for i in range(2)`). */
  method AnalysisPasses(a: Analyzer, scripts: seq<Script>, fuel: nat) returns (r: Outcome<seq<seq<Instr>>>)
    requires a.Valid() && a.names == ScriptNames(scripts)
    modifies a
    ensures a.Valid()
    ensures WithCalled(r, a.calledVars) == Passes(a.Tab(), scripts, Originals(scripts), old(a.calledVars), 0, fuel)
  {
    var work := Originals(scripts);
    for pass := 0 to 2
      invariant a.Valid() && RewritesAll(a.Tab(), scripts, work)
      invariant Passes(a.Tab(), scripts, Originals(scripts), old(a.calledVars), 0, fuel) == Passes(a.Tab(), scripts, work, a.calledVars, pass, fuel)
    {
      var next := RunPass(a, scripts, work, pass, fuel);
      if next.Raise? {
        return Raise(next.error);
      }
      work := next.value;
    }
    return Ok(work);
  }

  function WithCalled(r: Outcome<seq<seq<Instr>>>, calledVars: map<string, seq<Value>>): Outcome<(seq<seq<Instr>>, map<string, seq<Value>>)>
  {
    if r.Raise? then Raise(r.error) else Ok((r.value, calledVars))
  }

  /** The last pass over one script (`emuScript(script, 0, [], 2)`) and its
      label pass. */
  method FinishScript(a: Analyzer, name: string, work: seq<Instr>, fuel: nat) returns (r: Outcome<Disassembled>, walked: Outcome<AState>)
    requires a.Valid()
    modifies a
    ensures a.Valid()
    ensures walked == TopWalk(a.Tab(), name, work, old(a.calledVars), 2, fuel)
    ensures walked.Ok? ==> a.calledVars == walked.value.calledVars
    ensures r.Raise? <==> walked.Raise? || exists k :: 0 <= k < |walked.value.cmds| && BadJump(walked.value.cmds[k])
    ensures r.Ok? ==> r.value.analysed == walked.value.cmds && LabelledAsPass(a.variant, r.value)
  {
    a.Load(name, work);
    var walk := a.EmuScript(0, 2, None, 0, fuel);
    if walk.Raise? {
      return Raise(walk.error), Raise(walk.error);
    }
    if walk == Ok(OutOfFuel) {
      return Raise(Diverged), Raise(Diverged);
    }
    walked := Ok(a.St());
    r := LabelScript(a.variant, a.cmds);
  }

  /** `for i, script in enumerate(mscFile)`: the last pass and the label
      pass of every script, in order. */
  method FinishScripts(a: Analyzer, scripts: seq<Script>, work: seq<seq<Instr>>, fuel: nat) returns (r: Outcome<seq<Disassembled>>)
    requires a.Valid() && a.names == ScriptNames(scripts) && |work| == |scripts|
    modifies a
    ensures var walks := FinalWalks(a.Tab(), scripts, work, old(a.calledVars), 0, fuel);
      r.Raise? <==> walks.Raise? || LabelsFail(walks.value)
    ensures var walks := FinalWalks(a.Tab(), scripts, work, old(a.calledVars), 0, fuel);
      r.Ok? ==> walks.Ok? && |r.value| == |scripts| && AnalysedOf(r.value) == walks.value
                && forall s :: 0 <= s < |scripts| ==> LabelledAsPass(a.variant, r.value[s])
  {
    var out: seq<Disassembled> := [];
    assert AnalysedOf(out) == [];
    ghost var walks := FinalWalks(a.Tab(), scripts, work, a.calledVars, 0, fuel);
    assert walks.Ok? ==> [] + walks.value == walks.value;
    for s := 0 to |scripts|
      invariant a.Valid() && |out| == s
      invariant walks == After(AnalysedOf(out), FinalWalks(a.Tab(), scripts, work, a.calledVars, s, fuel))
      invariant !LabelsFail(AnalysedOf(out))
      invariant forall q :: 0 <= q < s ==> LabelledAsPass(a.variant, out[q])
    {
      var done := FinishNext(a, scripts, work, fuel, old(a.calledVars), out, s);
      if done.Raise? {
        return Raise(done.error);
      }
      out := out + [done.value];
    }
    return Ok(out);
  }

  /** One turn of that loop: script `s` walked and labelled, the finished
      prefix `out` grown by it, or the exception that ends the loop. */
  method FinishNext(a: Analyzer, scripts: seq<Script>, work: seq<seq<Instr>>, fuel: nat, ghost called0: map<string, seq<Value>>,
                    ghost out: seq<Disassembled>, s: nat) returns (r: Outcome<Disassembled>)
    requires a.Valid() && a.names == ScriptNames(scripts) && |work| == |scripts| && s < |scripts| && |out| == s
    requires FinalWalks(a.Tab(), scripts, work, called0, 0, fuel) == After(AnalysedOf(out), FinalWalks(a.Tab(), scripts, work, a.calledVars, s, fuel))
    requires !LabelsFail(AnalysedOf(out))
    modifies a
    ensures a.Valid()
    ensures var walks := FinalWalks(a.Tab(), scripts, work, called0, 0, fuel);
      r.Raise? ==> walks.Raise? || LabelsFail(walks.value)
    ensures r.Ok? ==>
      FinalWalks(a.Tab(), scripts, work, called0, 0, fuel) == After(AnalysedOf(out + [r.value]), FinalWalks(a.Tab(), scripts, work, a.calledVars, s + 1, fuel))
    ensures r.Ok? ==> !LabelsFail(AnalysedOf(out + [r.value])) && LabelledAsPass(a.variant, r.value)
  {
    ghost var called := a.calledVars;
    var walked;
    r, walked := FinishScript(a, a.names[scripts[s].start], work[s], fuel);
    if r.Raise? {
      ResultRaises(a, scripts, work, called0, called, out, walked, s, fuel);
    } else {
      AppendStep(a.Tab(), scripts, work, called0, called, out, r.value, walked.value, s, fuel);
    }
  }

  /** Script `s` walked and labelled: the finished prefix grows by one. */
  lemma AppendStep(t: Tables, scripts: seq<Script>, work: seq<seq<Instr>>, called0: map<string, seq<Value>>, called: map<string, seq<Value>>,
                   out: seq<Disassembled>, d: Disassembled, walked: AState, s: nat, fuel: nat)
    requires t.names == ScriptNames(scripts) && |work| == |scripts| && s < |scripts| && |out| == s
    requires FinalWalks(t, scripts, work, called0, 0, fuel) == After(AnalysedOf(out), FinalWalks(t, scripts, work, called, s, fuel))
    requires Ok(walked) == TopWalk(t, t.names[scripts[s].start], work[s], called, 2, fuel)
    requires d.analysed == walked.cmds
    requires !LabelsFail(AnalysedOf(out)) && !exists k :: 0 <= k < |walked.cmds| && BadJump(walked.cmds[k])
    ensures FinalWalks(t, scripts, work, called0, 0, fuel) == After(AnalysedOf(out + [d]), FinalWalks(t, scripts, work, walked.calledVars, s + 1, fuel))
    ensures !LabelsFail(AnalysedOf(out + [d]))
  {
    var rest := FinalWalks(t, scripts, work, walked.calledVars, s + 1, fuel);
    FinalWalksUnfold(t, scripts, work, called, walked, s, fuel);
    AfterAppend(AnalysedOf(out), walked.cmds, rest);
    assert AnalysedOf(out + [d]) == AnalysedOf(out) + [walked.cmds];
    LabelsAppend(AnalysedOf(out), walked.cmds);
  }

  /** The final walks from `s` are the walk of script `s`, then the rest. */
  lemma FinalWalksUnfold(t: Tables, scripts: seq<Script>, work: seq<seq<Instr>>, called: map<string, seq<Value>>,
                         walked: AState, s: nat, fuel: nat)
    requires t.names == ScriptNames(scripts) && |work| == |scripts| && s < |scripts|
    requires Ok(walked) == TopWalk(t, t.names[scripts[s].start], work[s], called, 2, fuel)
    ensures FinalWalks(t, scripts, work, called, s, fuel) == After([walked.cmds], FinalWalks(t, scripts, work, walked.calledVars, s + 1, fuel))
  {
  }

  lemma AfterAppend(done: seq<seq<Instr>>, x: seq<Instr>, r: Outcome<seq<seq<Instr>>>)
    ensures After(done, After([x], r)) == After(done + [x], r)
  {
    if r.Ok? {
      assert done + ([x] + r.value) == done + [x] + r.value;
    }
  }

  /** One more script without a rejected jump keeps the label pass clean. */
  lemma LabelsAppend(done: seq<seq<Instr>>, x: seq<Instr>)
    requires !LabelsFail(done) && !exists k :: 0 <= k < |x| && BadJump(x[k])
    ensures !LabelsFail(done + [x])
  {
    var all := done + [x];
    forall s, k | 0 <= s < |all| && 0 <= k < |all[s]|
      ensures !BadJump(all[s][k])
    {
      if s < |done| {
        assert all[s] == done[s];
      }
    }
  }

  /** When the label pass or walk of script `s` raises, so does the whole. */
  lemma ResultRaises(a: Analyzer, scripts: seq<Script>, work: seq<seq<Instr>>, called0: map<string, seq<Value>>, called: map<string, seq<Value>>,
                     out: seq<Disassembled>, walked: Outcome<AState>, s: nat, fuel: nat)
    requires a.names == ScriptNames(scripts) && |work| == |scripts| && s < |scripts| && |out| == s
    requires FinalWalks(a.Tab(), scripts, work, called0, 0, fuel) == After(AnalysedOf(out), FinalWalks(a.Tab(), scripts, work, called, s, fuel))
    requires walked == TopWalk(a.Tab(), a.names[scripts[s].start], work[s], called, 2, fuel)
    requires walked.Raise? || exists k :: 0 <= k < |walked.value.cmds| && BadJump(walked.value.cmds[k])
    ensures var walks := FinalWalks(a.Tab(), scripts, work, called0, 0, fuel);
      walks.Raise? || LabelsFail(walks.value)
  {
    var walks := FinalWalks(a.Tab(), scripts, work, called0, 0, fuel);
    if walks.Ok? && walked.Ok? {
      var k :| 0 <= k < |walked.value.cmds| && BadJump(walked.value.cmds[k]);
      var rest := FinalWalks(a.Tab(), scripts, work, called, s, fuel);
      assert rest.Ok? && rest.value[0] == walked.value.cmds;
      assert walks.value[s] == rest.value[0];
    }
  }

  /** `disasm` without its floating-point part: name the scripts, run two
      analysis passes over all scripts, then a third over each script before
      its label pass.  The slot table carries over from script to script and
      pass to pass.  A walk that runs out of fuel is reported as
      `Diverged`. */
  method Disassemble(variant: Variant, pops: Arity, strings: seq<string>, scripts: seq<Script>, fuel: nat)
    returns (r: Outcome<seq<Disassembled>>)
    ensures var analysed := Analysed(Tables(variant, pops, ScriptNames(scripts), strings), scripts, fuel);
      r.Raise? <==> analysed.Raise? || LabelsFail(analysed.value)
    ensures var analysed := Analysed(Tables(variant, pops, ScriptNames(scripts), strings), scripts, fuel);
      r.Ok? ==> analysed.Ok? && |r.value| == |scripts| && AnalysedOf(r.value) == analysed.value
                && forall s :: 0 <= s < |scripts| ==> Finished(variant, ScriptNames(scripts), strings, scripts[s].cmds, r.value[s])
  {
    var a := new Analyzer(variant, pops, ScriptNames(scripts), strings);
    var passes := AnalysisPasses(a, scripts, fuel);
    if passes.Raise? {
      return Raise(passes.error);
    }
    r := FinishScripts(a, scripts, passes.value, fuel);
    ghost var analysed := Analysed(a.Tab(), scripts, fuel);
    if r.Ok? {
      forall s | 0 <= s < |scripts| ensures Rewrites(variant, ScriptNames(scripts), strings, scripts[s].cmds, r.value[s].analysed) {
        assert r.value[s].analysed == AnalysedOf(r.value)[s];
      }
    }
  }
}
