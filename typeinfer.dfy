/** Type inference of the decompiler: the type of every local and global
    variable slot, guessed by counting how often the slot is used as an int
    and as a float, and the return type of every script, guessed from what
    its return statements return. */
module TypeInfer {
  import opened PyOps
  import opened Bytecode
  import opened Opcodes
  import opened Ast

  // ---------------------------------------------------------------------
  // Variable references and their votes

  /** Which slots a pass counts: local (`parameters[0] == 0`) or global
      (`parameters[0] == 1`). */
  datatype Scope = Local | Global

  function ScopeCode(s: Scope): int
  {
    if s.Local? then 0 else 1
  }

  predicate IsCast(x: Item)
  {
    x.Cmd? && x.instr.command in {0x38, 0x39}
  }

  predicate Consumes(x: Item, pops: Arity)
  {
    x.Cmd? && pops(x.instr.command, x.instr.parameters) > 0
  }

  /** Where the forward scan after a generic load `0xb` stops: the first
      instruction at or after `from` that is a cast or pops an operand. */
  function Consumer(func: seq<Item>, from: nat, pops: Arity): (r: Option<nat>)
    requires from <= |func|
    ensures r.Some? ==> from <= r.value < |func| && (IsCast(func[r.value]) || Consumes(func[r.value], pops))
    ensures r.Some? ==> forall m :: from <= m < r.value ==> !IsCast(func[m]) && !Consumes(func[m], pops)
    ensures r.None? ==> forall m :: from <= m < |func| ==> !IsCast(func[m]) && !Consumes(func[m], pops)
    decreases |func| - from
  {
    if from == |func| then None
    else if IsCast(func[from]) || Consumes(func[from], pops) then Some(from)
    else Consumer(func, from + 1, pops)
  }

  /** The vote of a generic load: `Some(true)` for float, `Some(false)` for
      int, None when the consumer is a cast, uses neither family, or is
      missing. */
  function LoadVote(func: seq<Item>, from: nat, pops: Arity): Option<bool>
    requires from <= |func|
  {
    match Consumer(func, from, pops)
    case None => None
    case Some(k) =>
      if IsCast(func[k]) then None
      else if func[k].instr.command in UsesFloat then Some(true)
      else if func[k].instr.command in UsesInt then Some(false)
      else None
  }

  /** The scan loop itself (mscdec.py:123-140 and 174-191). */
  method ScanConsumer(func: seq<Item>, from: nat, pops: Arity) returns (vote: Option<bool>)
    requires from <= |func|
    ensures vote == LoadVote(func, from, pops)
  {
    var i := from;
    while i < |func|
      invariant from <= i <= |func|
      invariant Consumer(func, from, pops) == Consumer(func, i, pops)
      decreases |func| - i
    {
      if func[i].Cmd? {
        var c := func[i].instr;
        if c.command in {0x38, 0x39} {
          return None;
        } else if pops(c.command, c.parameters) > 0 {
          if c.command in UsesFloat {
            return Some(true);
          } else if c.command in UsesInt {
            return Some(false);
          }
          return None;
        }
      }
      i := i + 1;
    }
    return None;
  }

  /** One counted reference: the slot and its vote. */
  datatype Ref = Ref(slot: Value, vote: Option<bool>)

  /** What item `i` contributes to the tally of a scope.  A global pass
      compares the slot with the running maximum, which needs an integer. */
  function Reference(func: seq<Item>, i: nat, scope: Scope, pops: Arity): Outcome<Option<Ref>>
    requires i < |func|
  {
    if !func[i].Cmd? || func[i].instr.command !in VarCommands then Ok(None)
    else
      var c := func[i].instr;
      if |c.parameters| == 0 then Raise(IndexError)
      else if c.parameters[0] != Int(ScopeCode(scope)) then Ok(None)
      else if |c.parameters| < 2 then Raise(IndexError)
      else if scope.Global? && !c.parameters[1].Int? then Raise(TypeError)
      else
        var vote :=
          if c.command in IntVarCommands then Some(false)
          else if c.command in FloatVarCommands then Some(true)
          else LoadVote(func, i + 1, pops);
        Ok(Some(Ref(c.parameters[1], vote)))
  }

  /** The references of the first `n` items, in order; the first exception
      ends the pass. */
  function References(func: seq<Item>, n: nat, scope: Scope, pops: Arity): Outcome<seq<Ref>>
    requires n <= |func|
  {
    if n == 0 then Ok([])
    else
      var prefix :- References(func, n - 1, scope, pops);
      var x :- Reference(func, n - 1, scope, pops);
      Ok(prefix + (if x.Some? then [x.value] else []))
  }

  /** The references of the first `n` scripts, one after another. */
  function AllReferences(funcs: seq<seq<Item>>, n: nat, pops: Arity): Outcome<seq<Ref>>
    requires n <= |funcs|
  {
    if n == 0 then Ok([])
    else
      var prefix :- AllReferences(funcs, n - 1, pops);
      var refs :- References(funcs[n - 1], |funcs[n - 1]|, Global, pops);
      Ok(prefix + refs)
  }

  /** The number of references to `slot` voting float (`isFloat`) or int. */
  function Votes(refs: seq<Ref>, slot: Value, isFloat: bool): nat
  {
    if refs == [] then 0
    else Votes(refs[..|refs| - 1], slot, isFloat)
         + (if refs[|refs| - 1].slot == slot && refs[|refs| - 1].vote == Some(isFloat) then 1 else 0)
  }

  /** A slot is a float exactly when strictly more of its uses were floats. */
  function SlotType(refs: seq<Ref>, slot: Value): string
  {
    if Votes(refs, slot, true) > Votes(refs, slot, false) then "float" else "int"
  }

  /** The highest integer slot referenced, starting from 0. */
  function MaxSlot(refs: seq<Ref>): (r: int)
    ensures r >= 0
    ensures forall j :: 0 <= j < |refs| && refs[j].slot.Int? ==> refs[j].slot.i <= r
  {
    if refs == [] then 0
    else
      var m := MaxSlot(refs[..|refs| - 1]);
      var last := refs[|refs| - 1].slot;
      if last.Int? && last.i > m then last.i else m
  }

  // ---------------------------------------------------------------------
  // Properties of the tally

  lemma {:induction false} MaxSlotAttained(refs: seq<Ref>)
    ensures MaxSlot(refs) == 0 || exists j :: 0 <= j < |refs| && refs[j].slot == Int(MaxSlot(refs))
  {
    if refs != [] {
      var p := refs[..|refs| - 1];
      MaxSlotAttained(p);
      if MaxSlot(refs) != 0 && MaxSlot(refs) == MaxSlot(p) {
        var j :| 0 <= j < |p| && p[j].slot == Int(MaxSlot(p));
        assert refs[j] == p[j];
      }
    }
  }

  /** Only variable instructions of the pass's own scope are counted: every
      reference names the slot of such an instruction. */
  lemma {:induction false} ReferencesInScope(func: seq<Item>, n: nat, scope: Scope, pops: Arity, r: Ref)
    requires n <= |func|
    requires References(func, n, scope, pops).Ok? && r in References(func, n, scope, pops).value
    ensures exists k :: 0 <= k < n && func[k].Cmd? && func[k].instr.command in VarCommands
                     && Param(func[k].instr, 0) == Some(Int(ScopeCode(scope)))
                     && Param(func[k].instr, 1) == Some(r.slot)
  {
    var prefix := References(func, n - 1, scope, pops).value;
    var x := Reference(func, n - 1, scope, pops).value;
    if r in prefix {
      ReferencesInScope(func, n - 1, scope, pops, r);
    } else {
      assert x == Some(r);
      assert Param(func[n - 1].instr, 1) == Some(r.slot);
    }
  }

  /** A load's vote comes from the first later instruction popping an
      operand, unless a cast comes first. */
  lemma LoadVoteFromFirstConsumer(func: seq<Item>, from: nat, pops: Arity)
    requires from <= |func|
    requires LoadVote(func, from, pops).Some?
    ensures exists k :: from <= k < |func| && func[k].Cmd? && Consumes(func[k], pops) && !IsCast(func[k])
                     && (forall m :: from <= m < k ==> !IsCast(func[m]) && !Consumes(func[m], pops))
                     && LoadVote(func, from, pops) == Some(func[k].instr.command in UsesFloat)
  {
    var k := Consumer(func, from, pops).value;
    assert func[k].Cmd? && Consumes(func[k], pops) && !IsCast(func[k]);
  }

  lemma VotesSnoc(refs: seq<Ref>, x: Ref, slot: Value, isFloat: bool)
    ensures Votes(refs + [x], slot, isFloat)
            == Votes(refs, slot, isFloat) + (if x.slot == slot && x.vote == Some(isFloat) then 1 else 0)
  {
    assert (refs + [x])[..|refs + [x]| - 1] == refs;
  }

  lemma {:induction false} VotesAppend(a: seq<Ref>, b: seq<Ref>, slot: Value, isFloat: bool)
    ensures Votes(a + b, slot, isFloat) == Votes(a, slot, isFloat) + Votes(b, slot, isFloat)
    decreases |b|
  {
    if b == [] {
      assert a + b == a;
    } else {
      var p := b[..|b| - 1];
      VotesAppend(a, p, slot, isFloat);
      assert a + b == (a + p) + [b[|b| - 1]];
      VotesSnoc(a + p, b[|b| - 1], slot, isFloat);
      VotesSnoc(p, b[|b| - 1], slot, isFloat);
      assert p + [b[|b| - 1]] == b;
    }
  }

  /** The slot types of two script sets counted together: a global is a float
      exactly when its float uses over all scripts outnumber its int uses. */
  lemma SlotTypeOfConcatenation(a: seq<Ref>, b: seq<Ref>, slot: Value)
    ensures SlotType(a + b, slot) == "float"
            <==> Votes(a, slot, true) + Votes(b, slot, true) > Votes(a, slot, false) + Votes(b, slot, false)
  {
    VotesAppend(a, b, slot, true);
    VotesAppend(a, b, slot, false);
  }

  lemma {:induction false} ReferencesRaisePersists(func: seq<Item>, n: nat, m: nat, scope: Scope, pops: Arity)
    requires n <= m <= |func|
    requires References(func, n, scope, pops).Raise?
    ensures References(func, m, scope, pops) == References(func, n, scope, pops)
    decreases m - n
  {
    if n < m { ReferencesRaisePersists(func, n, m - 1, scope, pops); }
  }

  lemma {:induction false} AllReferencesRaisePersists(funcs: seq<seq<Item>>, n: nat, m: nat, pops: Arity)
    requires n <= m <= |funcs|
    requires AllReferences(funcs, n, pops).Raise?
    ensures AllReferences(funcs, m, pops) == AllReferences(funcs, n, pops)
    decreases m - n
  {
    if n < m { AllReferencesRaisePersists(funcs, n, m - 1, pops); }
  }

  // ---------------------------------------------------------------------
  // The tally loops

  /** The `varInt` and `varFloat` dictionaries and, in a global pass, the
      running `globalVarCount`. */
  datatype Counts = Counts(varInt: map<Value, nat>, varFloat: map<Value, nat>, count: int)

  /** A dictionary entry, 0 when the key is missing. */
  function Get(m: map<Value, nat>, v: Value): nat
  {
    if v in m then m[v] else 0
  }

  /** What one reference adds to the dictionaries (mscdec.py:117-140,
      176-191): a use of the slot under its vote and, in a global pass, a
      higher `globalVarCount`. */
  function Counted(c: Counts, x: Ref, scope: Scope): Counts
  {
    var c1 := if scope.Global? && x.slot.Int? && x.slot.i > c.count then c.(count := x.slot.i) else c;
    if x.vote == Some(false) then c1.(varInt := c1.varInt[x.slot := Get(c1.varInt, x.slot) + 1])
    else if x.vote == Some(true) then c1.(varFloat := c1.varFloat[x.slot := Get(c1.varFloat, x.slot) + 1])
    else c1
  }

  /** The dictionaries after counting `refs` in order from empty ones. */
  function Tallied(refs: seq<Ref>, scope: Scope): Counts
  {
    if refs == [] then Counts(map[], map[], 0)
    else Counted(Tallied(refs[..|refs| - 1], scope), refs[|refs| - 1], scope)
  }

  /** The dictionaries count the votes: an entry is the number of references
      to its slot with that vote, a missing key is no vote, and the global
      count is the highest slot seen. */
  lemma {:induction false} TalliedCountsVotes(refs: seq<Ref>, scope: Scope, v: Value)
    ensures Get(Tallied(refs, scope).varInt, v) == Votes(refs, v, false)
    ensures Get(Tallied(refs, scope).varFloat, v) == Votes(refs, v, true)
    ensures scope.Global? ==> Tallied(refs, scope).count == MaxSlot(refs)
    decreases |refs|
  {
    if refs != [] {
      TalliedCountsVotes(refs[..|refs| - 1], scope, v);
    }
  }

  lemma TalliedSnoc(refs: seq<Ref>, x: Ref, scope: Scope)
    ensures Tallied(refs + [x], scope) == Counted(Tallied(refs, scope), x, scope)
  {
    assert (refs + [x])[..|refs + [x]| - 1] == refs;
  }

  /** Reads what item `i` contributes, running the consumer scan for a
      generic load. */
  method ReadReference(func: seq<Item>, i: nat, scope: Scope, pops: Arity) returns (r: Outcome<Option<Ref>>)
    requires i < |func|
    ensures r == Reference(func, i, scope, pops)
  {
    if !func[i].Cmd? || func[i].instr.command !in VarCommands {
      return Ok(None);
    }
    var c := func[i].instr;
    if |c.parameters| == 0 {
      return Raise(IndexError);
    } else if c.parameters[0] != Int(ScopeCode(scope)) {
      return Ok(None);
    } else if |c.parameters| < 2 {
      return Raise(IndexError);
    } else if scope.Global? && !c.parameters[1].Int? {
      return Raise(TypeError);
    }
    var vote: Option<bool>;
    if c.command in IntVarCommands {
      vote := Some(false);
    } else if c.command in FloatVarCommands {
      vote := Some(true);
    } else {
      vote := ScanConsumer(func, i + 1, pops);
    }
    return Ok(Some(Ref(c.parameters[1], vote)));
  }

  /** Adds one reference to the dictionaries. */
  method Count(c: Counts, x: Ref, scope: Scope, ghost refs: seq<Ref>) returns (c': Counts)
    requires c == Tallied(refs, scope)
    ensures c' == Tallied(refs + [x], scope)
  {
    c' := c;
    if scope.Global? && x.slot.Int? && x.slot.i > c.count {
      c' := c'.(count := x.slot.i);
    }
    if x.vote == Some(false) {
      c' := c'.(varInt := c'.varInt[x.slot := Get(c'.varInt, x.slot) + 1]);
    } else if x.vote == Some(true) {
      c' := c'.(varFloat := c'.varFloat[x.slot := Get(c'.varFloat, x.slot) + 1]);
    }
    TalliedSnoc(refs, x, scope);
  }

  lemma ReferencesStep(func: seq<Item>, i: nat, scope: Scope, pops: Arity, refs: seq<Ref>)
    requires i < |func| && References(func, i, scope, pops) == Ok(refs)
    ensures var x := Reference(func, i, scope, pops);
            x.Raise? ==> References(func, i + 1, scope, pops) == Raise(x.error)
    ensures var x := Reference(func, i, scope, pops);
            x.Ok? && x.value.Some? ==> References(func, i + 1, scope, pops) == Ok(refs + [x.value.value])
    ensures var x := Reference(func, i, scope, pops);
            x.Ok? && x.value.None? ==> References(func, i + 1, scope, pops) == Ok(refs)
  {
    assert refs + [] == refs;
  }

  lemma TalliedRegroup(before: seq<Ref>, refs: seq<Ref>, x: Ref, scope: Scope)
    ensures Tallied(before + refs + [x], scope) == Tallied(before + (refs + [x]), scope)
  {
    assert before + refs + [x] == before + (refs + [x]);
  }

  /** Item `i`'s turn in one script's tally loop. */
  method TallyItem(func: seq<Item>, i: nat, scope: Scope, pops: Arity, c: Counts, ghost before: seq<Ref>, ghost refs: seq<Ref>)
    returns (r: Outcome<Counts>, ghost refs': seq<Ref>)
    requires i < |func| && References(func, i, scope, pops) == Ok(refs)
    requires c == Tallied(before + refs, scope)
    ensures r.Raise? ==> References(func, |func|, scope, pops) == Raise(r.error)
    ensures r.Ok? ==> References(func, i + 1, scope, pops) == Ok(refs') && r.value == Tallied(before + refs', scope)
  {
    var x := ReadReference(func, i, scope, pops);
    ReferencesStep(func, i, scope, pops, refs);
    refs' := refs;
    if x.Raise? {
      ReferencesRaisePersists(func, i + 1, |func|, scope, pops);
      return Raise(x.error), refs';
    }
    r := Ok(c);
    if x.value.Some? {
      var counts := Count(c, x.value.value, scope, before + refs);
      TalliedRegroup(before, refs, x.value.value, scope);
      refs' := refs + [x.value.value];
      r := Ok(counts);
    }
  }

  /** One script's tally loop, continuing from the counts `c` of `before`. */
  method Tally(func: seq<Item>, scope: Scope, pops: Arity, c: Counts, ghost before: seq<Ref>) returns (r: Outcome<Counts>)
    requires c == Tallied(before, scope)
    ensures r.Raise? <==> References(func, |func|, scope, pops).Raise?
    ensures r.Raise? ==> r.error == References(func, |func|, scope, pops).error
    ensures r.Ok? ==> r.value == Tallied(before + References(func, |func|, scope, pops).value, scope)
  {
    var counts := c;
    ghost var refs: seq<Ref> := [];
    assert before + refs == before;
    var i := 0;
    while i < |func|
      invariant 0 <= i <= |func|
      invariant References(func, i, scope, pops) == Ok(refs)
      invariant counts == Tallied(before + refs, scope)
      decreases |func| - i
    {
      var next;
      next, refs := TallyItem(func, i, scope, pops, counts, before, refs);
      if next.Raise? {
        return next;
      }
      counts := next.value;
      i := i + 1;
    }
    return Ok(counts);
  }

  /** The type the dictionaries give slot `k`: "float" where float uses
      outnumber int uses, "int" elsewhere. */
  function Majority(c: Counts, k: int): string
  {
    if Get(c.varFloat, Int(k)) > Get(c.varInt, Int(k)) then "float" else "int"
  }

  lemma MajorityIsSlotType(c: Counts, refs: seq<Ref>, scope: Scope, k: int)
    requires c == Tallied(refs, scope)
    ensures Majority(c, k) == SlotType(refs, Int(k))
  {
    TalliedCountsVotes(refs, scope, Int(k));
  }

  /** The list of slot types built from the dictionaries
      (mscdec.py:142-148, 193-199). */
  method SlotTypes(c: Counts, n: int) returns (types: seq<string>)
    ensures |types| == if n < 0 then 0 else n
    ensures forall i :: 0 <= i < |types| ==> types[i] == Majority(c, i)
  {
    var len: nat := if n < 0 then 0 else n;
    types := seq(len, _ => "int");
    var i := 0;
    while i < len
      invariant 0 <= i <= len && |types| == len
      invariant forall k :: 0 <= k < i ==> types[k] == Majority(c, k)
      invariant forall k :: i <= k < len ==> types[k] == "int"
    {
      if Int(i) in c.varInt || Int(i) in c.varFloat {
        var intCount := if Int(i) in c.varInt then c.varInt[Int(i)] else 0;
        var floatCount := if Int(i) in c.varFloat then c.varFloat[Int(i)] else 0;
        if floatCount > intCount {
          types := types[i := "float"];
        }
      }
      i := i + 1;
    }
  }

  /** `getLocalVarTypes(func, varCount)` (mscdec.py:155-201): one type per
      slot `0 .. varCount-1`, "float" exactly when more of the slot's local
      uses are float uses. */
  method GetLocalVarTypes(func: seq<Item>, varCount: int, pops: Arity) returns (r: Outcome<seq<string>>)
    ensures r.Raise? <==> References(func, |func|, Local, pops).Raise?
    ensures r.Raise? ==> r.error == References(func, |func|, Local, pops).error
    ensures r.Ok? ==> |r.value| == (if varCount < 0 then 0 else varCount)
    ensures r.Ok? ==> forall i :: 0 <= i < |r.value| ==>
                        r.value[i] == SlotType(References(func, |func|, Local, pops).value, Int(i))
  {
    var c := Tally(func, Local, pops, Counts(map[], map[], 0), []);
    if c.Raise? {
      return Raise(c.error);
    }
    ghost var refs := References(func, |func|, Local, pops).value;
    assert [] + refs == refs;
    var types := SlotTypes(c.value, varCount);
    forall i | 0 <= i < |types| ensures types[i] == SlotType(refs, Int(i)) {
      MajorityIsSlotType(c.value, refs, Local, i);
    }
    return Ok(types);
  }

  lemma AllReferencesStep(funcs: seq<seq<Item>>, f: nat, pops: Arity)
    requires f < |funcs|
    requires AllReferences(funcs, f, pops).Ok? && References(funcs[f], |funcs[f]|, Global, pops).Ok?
    ensures AllReferences(funcs, f + 1, pops)
            == Ok(AllReferences(funcs, f, pops).value + References(funcs[f], |funcs[f]|, Global, pops).value)
  {
  }

  /** Script `f`'s turn in the tally loop over all scripts. */
  method TallyScript(funcs: seq<seq<Item>>, f: nat, pops: Arity, c: Counts, ghost refs: seq<Ref>)
    returns (r: Outcome<Counts>, ghost refs': seq<Ref>)
    requires f < |funcs| && AllReferences(funcs, f, pops) == Ok(refs) && c == Tallied(refs, Global)
    ensures r.Raise? ==> AllReferences(funcs, |funcs|, pops) == Raise(r.error)
    ensures r.Ok? ==> AllReferences(funcs, f + 1, pops) == Ok(refs') && r.value == Tallied(refs', Global)
  {
    r := Tally(funcs[f], Global, pops, c, refs);
    refs' := refs;
    if r.Raise? {
      AllReferencesRaisePersists(funcs, f + 1, |funcs|, pops);
    } else {
      AllReferencesStep(funcs, f, pops);
      refs' := refs + References(funcs[f], |funcs[f]|, Global, pops).value;
    }
  }

  /** The counts of all the references, or the error that stopped their
      collection. */
  function TalliedAll(refs: Outcome<seq<Ref>>): Outcome<Counts>
  {
    if refs.Raise? then Raise(refs.error) else Ok(Tallied(refs.value, Global))
  }

  /** The tally loop over all scripts (mscdec.py:102-140). */
  method TallyScripts(funcs: seq<seq<Item>>, pops: Arity) returns (r: Outcome<Counts>)
    ensures r == TalliedAll(AllReferences(funcs, |funcs|, pops))
  {
    var c := Counts(map[], map[], 0);
    ghost var refs: seq<Ref> := [];
    var f := 0;
    while f < |funcs|
      invariant 0 <= f <= |funcs|
      invariant AllReferences(funcs, f, pops) == Ok(refs)
      invariant c == Tallied(refs, Global)
      decreases |funcs| - f
    {
      var next;
      next, refs := TallyScript(funcs, f, pops, c, refs);
      if next.Raise? {
        return next;
      }
      c := next.value;
      f := f + 1;
    }
    return Ok(c);
  }

  /** `getGlobalVars` (mscdec.py:98-150): declarations `global0 .. globalN`,
      N the highest global slot referenced anywhere (0 if none), each typed
      by the same majority rule over all scripts. */
  method GetGlobalVars(funcs: seq<seq<Item>>, pops: Arity) returns (r: Outcome<seq<Node>>)
    ensures r.Raise? <==> AllReferences(funcs, |funcs|, pops).Raise?
    ensures r.Raise? ==> r.error == AllReferences(funcs, |funcs|, pops).error
    ensures r.Ok? ==> |r.value| == MaxSlot(AllReferences(funcs, |funcs|, pops).value) + 1
    ensures r.Ok? ==> forall i :: 0 <= i < |r.value| ==>
                        r.value[i] == Decl(SlotType(AllReferences(funcs, |funcs|, pops).value, Int(i)),
                                           "global" + Decimal(i), NoneValue)
  {
    var c := TallyScripts(funcs, pops);
    if c.Raise? {
      return Raise(c.error);
    }
    ghost var refs := AllReferences(funcs, |funcs|, pops).value;
    var types := SlotTypes(c.value, c.value.count + 1);
    forall i | 0 <= i < |types| ensures types[i] == SlotType(refs, Int(i)) {
      MajorityIsSlotType(c.value, refs, Global, i);
    }
    TalliedCountsVotes(refs, Global, Int(0));
    return Ok(seq(|types|, i requires 0 <= i < |types| => Decl(types[i], "global" + Decimal(i), NoneValue)));
  }

  // ---------------------------------------------------------------------
  // Return types

  /** A type name with the level of confidence a return gives for it. */
  datatype Evidence = Evidence(ty: string, level: nat)

  /** The indexes of the return-with-value instructions `0x6`/`0x8`. */
  function ReturnIndices(func: seq<Item>, n: nat): (r: seq<nat>)
    requires n <= |func|
    ensures forall j :: j in r <==> 0 <= j < n && IsCmd(func[j], {0x6, 0x8})
    ensures forall k :: 0 <= k < |r| ==> r[k] < n
  {
    if n == 0 then []
    else ReturnIndices(func, n - 1) + (if IsCmd(func[n - 1], {0x6, 0x8}) then [n - 1] else [])
  }

  /** What the instruction before the return at `j` (`func[j - 1]`, the last
      item when `j` is 0) says about the returned type (mscdec.py:618-633). */
  function ReturnEvidence(func: seq<Item>, j: nat, globals: seq<Node>): Outcome<Option<Evidence>>
    requires j < |func|
  {
    var prev := if j == 0 then func[|func| - 1] else func[j - 1];
    if !prev.Cmd? || !prev.instr.pushBit then Ok(None)
    else
      var c := prev.instr.command;
      var ps := prev.instr.parameters;
      if c in {0xA, 0xD} then
        if |ps| == 0 then Raise(IndexError)
        else (match ps[0]
              case Str(_) => Ok(Some(Evidence("string", 1)))
              case Int(_) => Ok(Some(Evidence("int", 1)))
              case Float(_) => Ok(Some(Evidence("float", 1)))
              case _ => Raise(KeyError))
      else if c == 0xb && |ps| == 0 then Raise(IndexError)
      else if c == 0xb && ps[0] == Int(1) then
        if |ps| < 2 then Raise(IndexError)
        else if !ps[1].Int? then Raise(TypeError)
        else (match At(globals, ps[1].i)
              case None => Raise(IndexError)
              case Some(d) => if d.Decl? then Ok(Some(Evidence(d.declType, 1))) else Raise(AttributeError))
      else if 0xe <= c < 0x25 then Ok(Some(Evidence("int", 2)))
      else if 0x3a <= c < 0x42 then Ok(Some(Evidence("float", 2)))
      else if 0x46 <= c < 0x4c || 0x25 <= c < 0x2c then Ok(Some(Evidence("bool", 2)))
      else Ok(None)
  }

  /** The candidate types, in the order `max` breaks ties by. */
  const TypeOrder: seq<string> := ["string", "float", "int", "bool"]

  const InitialLevels: map<string, nat> := map["string" := 0, "float" := 0, "int" := 0, "bool" := 0]

  /** `typeConfirmedLevel` after the returns `js`; `setTypeLevel` keeps the
      highest level per type and fails on a type it has no entry for. */
  function ConfirmedLevels(func: seq<Item>, js: seq<nat>, globals: seq<Node>): (r: Outcome<map<string, nat>>)
    requires forall k :: 0 <= k < |js| ==> js[k] < |func|
    ensures r.Ok? ==> r.value.Keys == InitialLevels.Keys
  {
    if js == [] then Ok(InitialLevels)
    else
      var m :- ConfirmedLevels(func, js[..|js| - 1], globals);
      var e :- ReturnEvidence(func, js[|js| - 1], globals);
      if e.None? then Ok(m)
      else if e.value.ty !in m then Raise(KeyError)
      else if m[e.value.ty] < e.value.level then Ok(m[e.value.ty := e.value.level])
      else Ok(m)
  }

  /** `max(levels.items(), key=level)[0]` over the types of `order`: the
      first type whose level is not exceeded. */
  function FirstMax(m: map<string, nat>, order: seq<string>): (t: string)
    requires order != [] && forall k :: 0 <= k < |order| ==> order[k] in m
    ensures t in order
    ensures forall k :: 0 <= k < |order| ==> m[order[k]] <= m[t]
  {
    if |order| == 1 then order[0]
    else
      var t := FirstMax(m, order[..|order| - 1]);
      if m[order[|order| - 1]] > m[t] then order[|order| - 1] else t
  }

  /** Ties go to the earliest type: every type before the chosen one has a
      strictly lower level. */
  lemma {:induction false} FirstMaxIsFirst(m: map<string, nat>, order: seq<string>, k: nat)
    requires order != [] && forall i :: 0 <= i < |order| ==> order[i] in m
    requires forall i, j :: 0 <= i < j < |order| ==> order[i] != order[j]
    requires k < |order| && order[k] == FirstMax(m, order)
    ensures forall i :: 0 <= i < k ==> m[order[i]] < m[order[k]]
  {
    if |order| > 1 {
      var p := order[..|order| - 1];
      var last := order[|order| - 1];
      var t := FirstMax(m, p);
      if m[last] > m[t] {
        // the last type is chosen, so k is its index
        assert k == |order| - 1;
        forall i | 0 <= i < k ensures m[order[i]] < m[order[k]] {
          assert order[i] == p[i];
        }
      } else {
        var w :| 0 <= w < |p| && p[w] == t;
        assert order[w] == t;
        FirstMaxIsFirst(m, p, w);
      }
    }
  }

  /** The return type one pass assigns a script: "void" without a value
      return, None when no return gives evidence, otherwise the type with
      the highest level. */
  function FuncType(func: seq<Item>, globals: seq<Node>): Outcome<Option<string>>
  {
    var js := ReturnIndices(func, |func|);
    if js == [] then Ok(Some("void"))
    else
      var m :- ConfirmedLevels(func, js, globals);
      if 1 !in m.Values && 2 !in m.Values then Ok(None)
      else Ok(Some(FirstMax(m, TypeOrder)))
  }

  /** The types of the first `n` scripts, or the first exception. */
  function FuncTypes(funcs: seq<seq<Item>>, n: nat, globals: seq<Node>): (r: Outcome<seq<Option<string>>>)
    requires n <= |funcs|
    ensures r.Ok? ==> |r.value| == n
    ensures r.Ok? ==> forall i :: 0 <= i < n ==> FuncType(funcs[i], globals) == Ok(r.value[i])
  {
    if n == 0 then Ok([])
    else
      var prefix :- FuncTypes(funcs, n - 1, globals);
      var t :- FuncType(funcs[n - 1], globals);
      Ok(prefix + [t])
  }

  lemma {:induction false} FuncTypesRaisePersists(funcs: seq<seq<Item>>, n: nat, m: nat, globals: seq<Node>)
    requires n <= m <= |funcs|
    requires FuncTypes(funcs, n, globals).Raise?
    ensures FuncTypes(funcs, m, globals) == FuncTypes(funcs, n, globals)
    decreases m - n
  {
    if n < m {
      FuncTypesRaisePersists(funcs, n, m - 1, globals);
      assert FuncTypes(funcs, m, globals) == Raise(FuncTypes(funcs, m - 1, globals).error);
    }
  }

  /** A script is "void" exactly when it has no `0x6`/`0x8` return. */
  lemma VoidIffNoReturn(func: seq<Item>, globals: seq<Node>)
    ensures FuncType(func, globals) == Ok(Some("void"))
            <==> forall j :: 0 <= j < |func| ==> !IsCmd(func[j], {0x6, 0x8})
  {
    var js := ReturnIndices(func, |func|);
    if js != [] {
      assert js[0] in js;
      if FuncType(func, globals).Ok? && FuncType(func, globals).value.Some? {
        var m := ConfirmedLevels(func, js, globals).value;
        assert FirstMax(m, TypeOrder) in TypeOrder;
      }
    }
  }

  /** The chosen return type has the highest level any return gave, and any
      type earlier in the order string, float, int, bool has a lower one. */
  lemma FuncTypeLevels(func: seq<Item>, globals: seq<Node>, ty: string)
    requires ReturnIndices(func, |func|) != []
    requires FuncType(func, globals) == Ok(Some(ty))
    ensures ty in TypeOrder
    ensures var m := ConfirmedLevels(func, ReturnIndices(func, |func|), globals).value;
            (forall u :: u in m ==> m[u] <= m[ty]) && m[ty] > 0
            && forall i, k :: 0 <= i < k < 4 && TypeOrder[k] == ty ==> m[TypeOrder[i]] < m[ty]
  {
    var m := ConfirmedLevels(func, ReturnIndices(func, |func|), globals).value;
    assert forall u :: u in m <==> u in TypeOrder;
    forall u | u in m ensures m[u] <= m[ty] {
      var k :| 0 <= k < 4 && TypeOrder[k] == u;
    }
    forall k | 0 <= k < 4 && TypeOrder[k] == ty ensures forall i :: 0 <= i < k ==> m[TypeOrder[i]] < m[ty] {
      FirstMaxIsFirst(m, TypeOrder, k);
    }
    assert 1 in m.Values || 2 in m.Values;
    var u :| u in m && (m[u] == 1 || m[u] == 2);
  }

  /** The loop collecting `returnIndices` (mscdec.py:604-607). */
  method FindReturns(func: seq<Item>) returns (returnIndices: seq<nat>)
    ensures returnIndices == ReturnIndices(func, |func|)
  {
    returnIndices := [];
    var j := 0;
    while j < |func|
      invariant 0 <= j <= |func|
      invariant returnIndices == ReturnIndices(func, j)
    {
      if IsCmd(func[j], {0x6, 0x8}) {
        returnIndices := returnIndices + [j];
      }
      j := j + 1;
    }
  }

  /** The loop raising `typeConfirmedLevel` (mscdec.py:613-633). */
  method ConfirmLevels(func: seq<Item>, returnIndices: seq<nat>, globals: seq<Node>) returns (r: Outcome<map<string, nat>>)
    requires forall k :: 0 <= k < |returnIndices| ==> returnIndices[k] < |func|
    ensures r == ConfirmedLevels(func, returnIndices, globals)
  {
    var levels := InitialLevels;
    var k := 0;
    while k < |returnIndices|
      invariant 0 <= k <= |returnIndices|
      invariant ConfirmedLevels(func, returnIndices[..k], globals) == Ok(levels)
    {
      assert returnIndices[..k + 1][..k] == returnIndices[..k];
      var e := ReturnEvidence(func, returnIndices[k], globals);
      if e.Raise? {
        ConfirmedLevelsRaisePersists(func, returnIndices, k + 1, globals);
        return Raise(e.error);
      }
      if e.value.Some? {
        var ev := e.value.value;
        if ev.ty !in levels {
          ConfirmedLevelsRaisePersists(func, returnIndices, k + 1, globals);
          return Raise(KeyError);
        }
        if levels[ev.ty] < ev.level {
          levels := levels[ev.ty := ev.level];
        }
      }
      k := k + 1;
    }
    assert returnIndices[..k] == returnIndices;
    return Ok(levels);
  }

  /** One script of a pass (mscdec.py:600-637). */
  method ResolveType(func: seq<Item>, globals: seq<Node>) returns (r: Outcome<Option<string>>)
    ensures r == FuncType(func, globals)
  {
    var returnIndices := FindReturns(func);
    if returnIndices == [] {
      return Ok(Some("void"));
    }
    var levels := ConfirmLevels(func, returnIndices, globals);
    if levels.Raise? {
      return Raise(levels.error);
    }
    if 1 !in levels.value.Values && 2 !in levels.value.Values {
      return Ok(None);
    }
    return Ok(Some(FirstMax(levels.value, TypeOrder)));
  }

  lemma {:induction false} ConfirmedLevelsRaisePersists(func: seq<Item>, js: seq<nat>, n: nat, globals: seq<Node>)
    requires n <= |js| && forall k :: 0 <= k < |js| ==> js[k] < |func|
    requires ConfirmedLevels(func, js[..n], globals).Raise?
    ensures ConfirmedLevels(func, js, globals) == ConfirmedLevels(func, js[..n], globals)
    decreases |js| - n
  {
    if n < |js| {
      assert js[..|js| - 1][..n] == js[..n];
      ConfirmedLevelsRaisePersists(func, js[..|js| - 1], n, globals);
    } else {
      assert js[..n] == js;
    }
  }

  lemma FuncTypesStep(funcs: seq<seq<Item>>, i: nat, globals: seq<Node>, prefix: seq<Option<string>>)
    requires i < |funcs| && FuncTypes(funcs, i, globals) == Ok(prefix)
    ensures FuncType(funcs[i], globals).Raise? ==> FuncTypes(funcs, i + 1, globals) == Raise(FuncType(funcs[i], globals).error)
    ensures FuncType(funcs[i], globals).Ok? ==> FuncTypes(funcs, i + 1, globals) == Ok(prefix + [FuncType(funcs[i], globals).value])
  {
  }

  lemma SettledEntry(funcs: seq<seq<Item>>, globals: seq<Node>, funcTypes: seq<Option<string>>, i: nat)
    requires i < |funcs| && FuncTypes(funcs, |funcs|, globals) == Ok(funcTypes)
    ensures FuncType(funcs[i], globals) == Ok(funcTypes[i])
  {
  }

  /** One pass over the scripts still without a type (mscdec.py:599-637).
      Before the first pass every entry is None; after it the entries are
      the settled types, which a later pass recomputes unchanged. */
  method Pass(funcs: seq<seq<Item>>, globals: seq<Node>, funcTypes: seq<Option<string>>, ghost settled: bool)
    returns (r: Outcome<seq<Option<string>>>)
    requires |funcTypes| == |funcs|
    requires settled ==> FuncTypes(funcs, |funcs|, globals) == Ok(funcTypes)
    requires !settled ==> forall k :: 0 <= k < |funcs| ==> funcTypes[k] == None
    ensures r.Raise? ==> FuncTypes(funcs, |funcs|, globals) == Raise(r.error)
    ensures r.Ok? ==> FuncTypes(funcs, |funcs|, globals) == r
  {
    var types := funcTypes;
    var i := 0;
    while i < |funcs|
      invariant 0 <= i <= |funcs| && |types| == |funcs|
      invariant settled ==> types == funcTypes
      invariant !settled ==> FuncTypes(funcs, i, globals) == Ok(types[..i])
      invariant !settled ==> forall k :: i <= k < |funcs| ==> types[k] == None
    {
      if types[i] == None {
        var t := ResolveType(funcs[i], globals);
        if settled {
          SettledEntry(funcs, globals, funcTypes, i);
        } else {
          FuncTypesStep(funcs, i, globals, types[..i]);
        }
        if t.Raise? {
          if settled {
            assert false;
          }
          FuncTypesRaisePersists(funcs, i + 1, |funcs|, globals);
          return Raise(t.error);
        }
        types := types[i := t.value];
        assert types[..i + 1] == types[..i] + [t.value];
      } else {
        assert types[..i + 1] == types[..i] + [types[i]];
      }
      i := i + 1;
    }
    assert types[..i] == types;
    return Ok(types);
  }

  /** An unresolved type defaults to "int" (mscdec.py:638-640). */
  function OrInt(t: Option<string>): string
  {
    match t
    case None => "int"
    case Some(ty) => ty
  }

  method WithDefaults(funcTypes: seq<Option<string>>) returns (types: seq<string>)
    ensures |types| == |funcTypes|
    ensures forall k :: 0 <= k < |types| ==> types[k] == OrInt(funcTypes[k])
  {
    types := [];
    var i := 0;
    while i < |funcTypes|
      invariant 0 <= i <= |funcTypes| && |types| == i
      invariant forall k :: 0 <= k < i ==> types[k] == OrInt(funcTypes[k])
    {
      types := types + [OrInt(funcTypes[i])];
      i := i + 1;
    }
  }

  /** `getFuncTypes` (mscdec.py:593-641): up to four passes over the scripts
      that have no type yet, then "int" for any still unresolved. */
  method GetFuncTypes(funcs: seq<seq<Item>>, globals: seq<Node>) returns (r: Outcome<seq<string>>)
    ensures r.Raise? <==> FuncTypes(funcs, |funcs|, globals).Raise?
    ensures r.Raise? ==> r.error == FuncTypes(funcs, |funcs|, globals).error
    ensures r.Ok? ==> |r.value| == |funcs|
    ensures r.Ok? ==> forall i :: 0 <= i < |funcs| ==>
                        r.value[i] == OrInt(FuncTypes(funcs, |funcs|, globals).value[i])
  {
    var funcTypes: seq<Option<string>> := seq(|funcs|, _ => None);
    assert |funcs| > 0 ==> funcTypes[0] == None;
    var numPasses := 0;
    while None in funcTypes && numPasses < 4
      invariant |funcTypes| == |funcs| && 0 <= numPasses <= 4
      invariant numPasses == 0 ==> forall i :: 0 <= i < |funcs| ==> funcTypes[i] == None
      invariant numPasses == 0 ==> (|funcs| > 0 <==> None in funcTypes)
      invariant numPasses > 0 ==> FuncTypes(funcs, |funcs|, globals) == Ok(funcTypes)
    {
      var next := Pass(funcs, globals, funcTypes, numPasses > 0);
      if next.Raise? {
        return Raise(next.error);
      }
      funcTypes := next.value;
      numPasses := numPasses + 1;
    }
    var types := WithDefaults(funcTypes);
    return Ok(types);
  }
}
