// What the instructions of a script do, as its author sees it: numbers and texts in variables, the logical
// state, and the actions requested.

module ScriptEffects {
  import opened Basics
  import opened Text
  import opened ScriptVm

  // ---------- numbers as text ----------

  lemma NumbersAsWritten()
    ensures IntText(0) == "0" && IntText(7) == "7" && IntText(42) == "42" && IntText(-305) == "-305"
  {
    NatStep(42);
    NatStep(30);
    NatStep(305);
  }

  lemma NatStep(n: nat)
    requires n >= 10
    ensures NatText(n) == NatText(n / 10) + [(n % 10) as char + '0']
  {
  }

  lemma NumbersAsRead()
    ensures Integer("42") == Some(42) && Integer("-305") == Some(-305) && Integer("") == None && Integer("4x") == None
  {
    NumbersAsWritten();
    IntegerReads(42);
    IntegerReads(-305);
    NotANumber("4x", 1);
  }

  lemma NotANumber(text: string, i: nat)
    requires i < |text| && !IsDigit(text[i]) && text[0] != '-'
    ensures Integer(text) == None
  {
    assert text[i] in text;
  }

  // A 64-bit number is read back from its text.
  lemma IntegerReads(n: int)
    requires -0x8000_0000_0000_0000 <= n <= 0x7fff_ffff_ffff_ffff
    ensures Integer(IntText(n)) == Some(n)
  {
    var size: nat := if n < 0 then -n else n;
    DigitsOfNatText(size);
    if n < 0 {
      SignedReads(NatText(size));
    } else {
      UnsignedReads(NatText(size));
    }
  }

  predicate AllDigits(text: string) { text != "" && forall c :: c in text ==> IsDigit(c) }

  lemma UnsignedReads(text: string)
    requires AllDigits(text) && Digits(text) <= 0x7fff_ffff_ffff_ffff
    ensures Integer(text) == Some(Digits(text))
  {
    assert text[0] in text;
  }

  lemma SignedReads(text: string)
    requires AllDigits(text) && Digits(text) <= 0x8000_0000_0000_0000
    ensures var size: int := Digits(text); Integer("-" + text) == Some(-size)
  {
    assert ("-" + text)[1..] == text;
  }

  // ---------- values ----------

  // A text that begins with a dollar sign and goes on names a variable, which is empty when it is not set.
  lemma Resolving(value: string, name: string, s: VmState)
    ensures value == "" || value[0] != '$' || value == "$" ==> Resolve(value, s) == value
    ensures name != "" ==> Resolve("$" + name, s) == if name in s.variables then s.variables[name] else ""
  {
    assert ("$" + name)[1..] == name;
  }

  // Texts are compared for equality; everything else compares numbers, and fails when there are none.
  lemma Comparing(h: Host, left: string, right: string, op: string, s: VmState)
    ensures ConditionTrue(h, Cond(left, "==", right), s) <==> Resolve(left, s) == Resolve(right, s)
    ensures ConditionTrue(h, Cond(left, "!=", right), s) <==> Resolve(left, s) != Resolve(right, s)
    ensures match (h.number(Resolve(left, s)), h.number(Resolve(right, s)))
            case (Some(a), Some(b)) =>
              && (ConditionTrue(h, Cond(left, "<", right), s) <==> a < b)
              && (ConditionTrue(h, Cond(left, "<=", right), s) <==> a <= b)
              && (ConditionTrue(h, Cond(left, ">", right), s) <==> a > b)
              && (ConditionTrue(h, Cond(left, ">=", right), s) <==> a >= b)
            case _ => ConditionTrue(h, Cond(left, op, right), s) ==> op == "==" || op == "!="
    ensures ConditionTrue(h, Cond(left, op, right), s) ==> op in {"==", "!=", "<", "<=", ">", ">="}
  {
  }

  // ---------- instructions that change the script ----------

  // What a variable counts as when it is added to.
  function Counted(s: VmState, name: string): Option<int> { if name in s.variables then Integer(s.variables[name]) else Some(0) }

  predicate SameBut(s: VmState, t: VmState, name: string) {
    t.state == s.state && name in t.variables && t.variables.Keys == s.variables.Keys + {name} &&
    forall k :: k in s.variables && k != name ==> t.variables[k] == s.variables[k]
  }

  // The state fits the byte limit, and the actions theirs.
  ghost predicate Fits(lim: Limits, f: Frame) { StateBytes(f.state) <= lim.maxStateBytes && |f.actions| <= lim.maxOutputActions }

  // An instruction that has its effect, and the two limits that are checked after it.
  lemma Limited(h: Host, lim: Limits, ins: Instruction, f: Frame, g: Frame)
    requires Operate(h, lim, ins, f) == Next(g)
    ensures Effect(h, lim, ins, f).frame == g && (Effect(h, lim, ins, f).Next? <==> Fits(lim, g))
  {
  }

  lemma ZeroReads()
    ensures Integer("0") == Some(0)
  {
    IntegerReads(0);
    assert IntText(0) == "0";
  }

  lemma AddOperates(h: Host, lim: Limits, ins: Instruction, f: Frame, delta: int, before: int)
    requires ins.opcode.OpAdd? && Integer(ins.b) == Some(delta) && Counted(f.state, ins.a) == Some(before)
    ensures Operate(h, lim, ins, f) ==
      Next(f.(state := f.state.(variables := f.state.variables[ins.a := IntText(before + delta)])))
  {
    ZeroReads();
  }

  // Adding a number to a variable adds it, whenever the sum fits 64 bits; nothing else changes.
  lemma AddMeans(h: Host, lim: Limits, ins: Instruction, f: Frame, delta: int, before: int)
    requires ins.opcode.OpAdd? && Integer(ins.b) == Some(delta) && Counted(f.state, ins.a) == Some(before)
    requires -0x8000_0000_0000_0000 <= before + delta <= 0x7fff_ffff_ffff_ffff
    ensures var r := Effect(h, lim, ins, f);
      && SameBut(f.state, r.frame.state, ins.a) && r.frame.actions == f.actions
      && Integer(r.frame.state.variables[ins.a]) == Some(before + delta)
      && (r.Next? <==> Fits(lim, r.frame))
  {
    var g := f.(state := f.state.(variables := f.state.variables[ins.a := IntText(before + delta)]));
    AddOperates(h, lim, ins, f, delta, before);
    Limited(h, lim, ins, f, g);
    IntegerReads(before + delta);
  }

  lemma AddFails(h: Host, lim: Limits, ins: Instruction, f: Frame)
    requires ins.opcode.OpAdd?
    ensures Effect(h, lim, ins, f) == Fault("numeric-state-required", f) <==> Integer(ins.b) == None || Counted(f.state, ins.a) == None
  {
    ZeroReads();
  }

  // A new variable needs room for one more.
  predicate NoRoom(lim: Limits, s: VmState, name: string) { name !in s.variables && |s.variables| >= lim.maxVariables }

  // Giving a variable a value, by an instruction.
  ghost predicate Sets(h: Host, lim: Limits, ins: Instruction, f: Frame, value: string)
    requires ins.a != ""
  {
    var r := Effect(h, lim, ins, f);
    if NoRoom(lim, f.state, ins.a) then r == Fault("variable-budget-exceeded", f)
    else
      && SameBut(f.state, r.frame.state, ins.a) && r.frame.actions == f.actions
      && Resolve("$" + ins.a, r.frame.state) == value
      && (r.Next? <==> Fits(lim, r.frame))
  }

  lemma AssignSets(h: Host, lim: Limits, ins: Instruction, f: Frame, value: string)
    requires ins.a != "" && Operate(h, lim, ins, f) == Assign(f, lim, ins.a, value)
    ensures Sets(h, lim, ins, f, value)
  {
    if !NoRoom(lim, f.state, ins.a) {
      Limited(h, lim, ins, f, Assign(f, lim, ins.a, value).frame);
      Resolving("", ins.a, Assign(f, lim, ins.a, value).frame.state);
    }
  }

  // What is set is read back.
  lemma SetMeans(h: Host, lim: Limits, ins: Instruction, f: Frame)
    requires ins.opcode.OpSet? && ins.a != ""
    ensures Sets(h, lim, ins, f, Resolve(ins.b, f.state))
  {
    AssignSets(h, lim, ins, f, Resolve(ins.b, f.state));
  }

  // The arguments of a builtin are separated by the unit separator, character 31.
  function Arguments(text: string, s: VmState): seq<string> {
    if text == "" then []
    else
      var fields := Split(text, 31 as char);
      seq(|fields|, i requires 0 <= i < |fields| => Resolve(fields[i], s))
  }

  // A builtin's answer is set.
  lemma BuiltinMeans(h: Host, lim: Limits, ins: Instruction, f: Frame)
    requires ins.opcode.OpBuiltinSet? && ins.a != ""
    ensures match h.builtin(ins.b, Arguments(ins.c, f.state))
            case Err(reason) => Effect(h, lim, ins, f) == Fault(reason, f)
            case Ok(value) => Sets(h, lim, ins, f, value)
  {
    var fields := if ins.c == "" then [] else Split(ins.c, 31 as char);
    assert ResolveAll(fields, f.state) == Arguments(ins.c, f.state);
    match h.builtin(ins.b, Arguments(ins.c, f.state)) {
      case Err(_) =>
      case Ok(value) => AssignSets(h, lim, ins, f, value);
    }
  }

  // A change of the logical state takes effect and is reported.
  lemma StateMeans(h: Host, lim: Limits, ins: Instruction, f: Frame)
    requires ins.opcode.OpState?
    ensures var r := Effect(h, lim, ins, f);
      && r.frame == Frame(VmState(ins.a, f.state.variables), f.actions + [Action(ActStateChange, ins.a, 0)])
      && (r.Next? <==> Fits(lim, r.frame))
  {
  }

  // ---------- instructions that request something ----------

  // One action is requested, and the script stays as it is.
  ghost predicate Requests(h: Host, lim: Limits, op: Opcode, a: string, b: string, c: string, f: Frame, action: Action) {
    var r := Effect(h, lim, Instruction(op, a, b, c, 0), f);
    r.frame == Frame(f.state, f.actions + [action]) && (r.Next? <==> Fits(lim, r.frame))
  }

  lemma Requested(h: Host, lim: Limits, op: Opcode, a: string, b: string, c: string, f: Frame, action: Action)
    requires Operate(h, lim, Instruction(op, a, b, c, 0), f) == Next(Frame(f.state, f.actions + [action]))
    ensures Requests(h, lim, op, a, b, c, f, action)
  {
    Limited(h, lim, Instruction(op, a, b, c, 0), f, Frame(f.state, f.actions + [action]));
  }

  // Instructions with one text, in which a variable is filled in.
  const SPOKEN: map<Opcode, ActionType> := map[
    OpEmit := ActEmit, OpNotify := ActNotifyOwner, OpBuoyancy := ActWorldBuoyancy, OpText := ActWorldText,
    OpSay := ActChatSay, OpWhisper := ActChatWhisper, OpShout := ActChatShout]

  lemma SpokenRequests(h: Host, lim: Limits, op: Opcode, f: Frame, a: string, b: string, c: string)
    requires op in SPOKEN
    ensures if op == OpEmit && |f.actions| >= lim.maxOutputActions then
        Effect(h, lim, Instruction(op, a, b, c, 0), f) == Fault("action-budget-exceeded", f)
      else Requests(h, lim, op, a, b, c, f, Action(SPOKEN[op], Resolve(a, f.state), 0))
  {
    if op != OpEmit || |f.actions| < lim.maxOutputActions {
      Requested(h, lim, op, a, b, c, f, Action(SPOKEN[op], Resolve(a, f.state), 0));
    }
  }

  lemma MessageRequests(h: Host, lim: Limits, f: Frame, a: string, b: string, c: string)
    ensures Requests(h, lim, OpMessage, a, b, c, f, Action(ActDirectMessage, a + "\n" + Resolve(b, f.state), 0))
  {
    Requested(h, lim, OpMessage, a, b, c, f, Action(ActDirectMessage, a + "\n" + Resolve(b, f.state), 0));
  }

  // Instructions with three numbers.
  const VECTORS: map<Opcode, ActionType> := map[
    OpMove := ActWorldMove, OpRotate := ActWorldRotate, OpScale := ActWorldScale, OpVelocity := ActWorldVelocity,
    OpAngularVelocity := ActWorldAngularVelocity, OpForce := ActWorldForce, OpImpulse := ActWorldImpulse,
    OpAngularImpulse := ActWorldAngularImpulse, OpTorque := ActWorldTorque, OpMaterial := ActWorldMaterial]

  lemma VectorRequests(h: Host, lim: Limits, op: Opcode, f: Frame, a: string, b: string, c: string)
    requires op in VECTORS
    ensures var xyz := Resolve(a, f.state) + " " + Resolve(b, f.state) + " " + Resolve(c, f.state);
      Requests(h, lim, op, a, b, c, f, Action(VECTORS[op], xyz, 0))
  {
    var xyz := Resolve(a, f.state) + " " + Resolve(b, f.state) + " " + Resolve(c, f.state);
    Requested(h, lim, op, a, b, c, f, Action(VECTORS[op], xyz, 0));
  }

  // Instructions whose text is taken as it stands.
  const PLAIN: map<Opcode, ActionType> := map[
    OpPhysics := ActWorldPhysics, OpObjectInfo := ActQueryObject, OpRegionInfo := ActQueryRegion,
    OpTerrainHeight := ActQueryTerrain, OpWaterLevel := ActQueryWater, OpWorldTime := ActQueryTime]

  lemma PlainRequests(h: Host, lim: Limits, op: Opcode, f: Frame, a: string, b: string, c: string)
    requires op in PLAIN
    ensures Requests(h, lim, op, a, b, c, f, Action(PLAIN[op], a, 0))
  {
    Requested(h, lim, op, a, b, c, f, Action(PLAIN[op], a, 0));
  }

  lemma NearbyRequests(h: Host, lim: Limits, f: Frame, a: string, b: string, c: string)
    ensures Requests(h, lim, OpNearbyAvatars, a, b, c, f, Action(ActQueryNearby, a + "|" + b, 0))
  {
    Requested(h, lim, OpNearbyAvatars, a, b, c, f, Action(ActQueryNearby, a + "|" + b, 0));
  }

  // A timer and a listener carry a number, 0 when the text is none.
  lemma NumberRequests(h: Host, lim: Limits, f: Frame, a: string, b: string, c: string)
    ensures var n := match Integer(a) { case Some(v) => v case None => 0 };
      && Requests(h, lim, OpTimer, a, b, c, f, Action(ActSetTimer, "", n))
      && Requests(h, lim, OpListen, a, b, c, f, Action(ActListen, "", n))
  {
    var n := match Integer(a) { case Some(v) => v case None => 0 };
    Requested(h, lim, OpTimer, a, b, c, f, Action(ActSetTimer, "", n));
    Requested(h, lim, OpListen, a, b, c, f, Action(ActListen, "", n));
  }

  // ---------- a handler ----------

  // The first handler for the event, in the script's logical state or for every state, alone decides.
  lemma FirstHandlerDecides(
    h: Host, program: seq<Handler>, i: nat, event: string, s: VmState, lim: Limits, payload: string)
    requires i < |program| && program[i].event == event && (program[i].state == s.state || program[i].state == "*")
    requires forall j :: 0 <= j < i ==> program[j].event != event || (program[j].state != s.state && program[j].state != "*")
    ensures ExecEvent(h, program, event, s, lim, payload) == ExecEvent(h, [program[i]], event, s, lim, payload)
  {
    assert FindHandler(program, event, s) == i;
    assert FindHandler([program[i]], event, s) == 0;
  }

  lemma NoHandlerNothing(h: Host, program: seq<Handler>, event: string, s: VmState, lim: Limits, payload: string)
    requires forall j :: 0 <= j < |program| ==> program[j].event != event || (program[j].state != s.state && program[j].state != "*")
    ensures ExecEvent(h, program, event, s, lim, payload) == VmResult(true, "", 0, s, [])
  {
    assert FindHandler(program, event, s) == |program|;
  }

  predicate Holds(s: VmState, name: string, value: string) { name in s.variables && s.variables[name] == value }

  // No later parameter has the same name.
  predicate LastNamed(names: seq<string>, i: nat) { i < |names| && names[i] !in names[i + 1..] }

  // Parameters that are bound hold the lines of the payload in order, or nothing, the last of equal ones
  // deciding; no other variable changes.
  lemma {:induction false} BindMeans(names: seq<string>, values: seq<string>, f: Frame, lim: Limits)
    requires Bind(names, values, f, lim).Next?
    ensures var g := Bind(names, values, f, lim).frame;
      && g.actions == f.actions && g.state.state == f.state.state
      && (forall i: nat :: LastNamed(names, i) ==> Holds(g.state, names[i], if i < |values| then values[i] else ""))
      && forall k :: k !in names ==>
           (k in g.state.variables <==> k in f.state.variables) &&
           (k in f.state.variables ==> g.state.variables[k] == f.state.variables[k])
    decreases |names|
  {
    if names != [] {
      var first := Assign(f, lim, names[0], if values == [] then "" else values[0]);
      var rest := if values == [] then [] else values[1..];
      BindMeans(names[1..], rest, first.frame, lim);
      var g := Bind(names, values, f, lim).frame;
      assert g == Bind(names[1..], rest, first.frame, lim).frame;
      forall i: nat | LastNamed(names, i) ensures Holds(g.state, names[i], if i < |values| then values[i] else "") {
        if i > 0 {
          assert names[1..][i - 1] == names[i] && names[1..][i..] == names[i + 1..];
          assert LastNamed(names[1..], i - 1);
        }
      }
      assert forall k :: k !in names ==> k !in names[1..] && k != names[0];
    }
  }

  // Too many variables, and only that, stop a handler before it starts.
  lemma {:induction false} BindFails(names: seq<string>, values: seq<string>, f: Frame, lim: Limits)
    ensures Bind(names, values, f, lim).Fault? ==>
      Bind(names, values, f, lim).error == "variable-budget-exceeded" && exists name :: name in names && name !in f.state.variables
    decreases |names|
  {
    if names != [] {
      var r := Assign(f, lim, names[0], if values == [] then "" else values[0]);
      if r.Next? {
        BindFails(names[1..], if values == [] then [] else values[1..], r.frame, lim);
      } else {
        assert names[0] in names;
      }
    }
  }

  // A handler of one instruction.
  lemma OneInstruction(h: Host, lim: Limits, event: string, ins: Instruction, s: VmState, payload: string)
    requires lim.instructionBudget >= 1 && !IsControl(ins.opcode)
    ensures var r, e := ExecEvent(h, [Handler("*", event, [], [ins])], event, s, lim, payload), Effect(h, lim, ins, Frame(s, []));
      && r.state == e.frame.state && r.actions == e.frame.actions && r.instructionsExecuted == 1
      && r.ok == e.Next? && r.error == (if e.Next? then "" else e.error)
  {
    var program := [Handler("*", event, [], [ins])];
    assert FindHandler(program, event, s) == 0;
    RunsOne(MachineOf(h, lim), ins, Frame(s, []), lim.instructionBudget);
  }

  lemma RunsOne(vm: Machine, ins: Instruction, f: Frame, n: nat)
    requires n >= 1 && !IsControl(ins.opcode)
    ensures Run(vm, [ins], 0, f, n) ==
      match vm.effect(ins, f) case Fault(e, g) => Faulted(e, g, n - 1) case Next(g) => Finished(g, n - 1)
  {
  }

  // The script `add name text`, from a state in which the variable counts as `before`.
  lemma AddScript(h: Host, lim: Limits, event: string, name: string, text: string, s: VmState, delta: int, before: int)
    requires lim.instructionBudget >= 1 && Integer(text) == Some(delta) && Counted(s, name) == Some(before)
    requires -0x8000_0000_0000_0000 <= before + delta <= 0x7fff_ffff_ffff_ffff
    ensures var r := ExecEvent(h, [Handler("*", event, [], [Instruction(OpAdd, name, text, "", 0)])], event, s, lim, "");
      && SameBut(s, r.state, name) && Integer(r.state.variables[name]) == Some(before + delta) && r.actions == []
      && (r.ok <==> StateBytes(r.state) <= lim.maxStateBytes)
  {
    var ins := Instruction(OpAdd, name, text, "", 0);
    OneInstruction(h, lim, event, ins, s, "");
    AddMeans(h, lim, ins, Frame(s, []), delta, before);
  }

  // ---------- jumps ----------

  // A conditional jump goes on to the next instruction exactly when its condition holds.
  lemma JumpsMean(h: Host, lim: Limits, code: seq<Instruction>, pc: nat, f: Frame, n: nat, a: string, op: string, b: string, target: nat)
    requires pc < |code| && n > 0
    ensures code[pc] == Instruction(OpJumpIfFalse, a, op, b, target) ==>
      Run(MachineOf(h, lim), code, pc, f, n) ==
        Run(MachineOf(h, lim), code, if ConditionTrue(h, Cond(a, op, b), f.state) then pc + 1 else target, f, n - 1)
    ensures code[pc] == Instruction(OpJump, a, op, b, target) ==>
      Run(MachineOf(h, lim), code, pc, f, n) == Run(MachineOf(h, lim), code, target, f, n - 1)
    ensures code[pc] == Instruction(OpStop, a, op, b, target) ==>
      Run(MachineOf(h, lim), code, pc, f, n) == Finished(f, n - 1)
  {
  }

  // ---------- a run and its budget ----------

  // A run ends past the last instruction, or when the budget is used up before; every instruction costs one.
  lemma RunMeans(vm: Machine, code: seq<Instruction>, pc: nat, f: Frame, n: nat)
    ensures pc >= |code| ==> Run(vm, code, pc, f, n) == Finished(f, n)
    ensures pc < |code| ==> Run(vm, code, pc, f, 0) == Exhausted(f)
    ensures pc < |code| && n > 0 && !IsControl(code[pc].opcode) ==>
      match vm.effect(code[pc], f)
      case Next(g) => Run(vm, code, pc, f, n) == Run(vm, code, pc + 1, g, n - 1)
      case Fault(e, g) => Run(vm, code, pc, f, n) == Faulted(e, g, n - 1)
  {
  }

  // What a handler's run comes to: its parameters bound to the lines of the payload, an empty one having
  // none; how many instructions, and why it stopped.
  lemma HandlerMeans(h: Host, names: seq<string>, code: seq<Instruction>, event: string, s: VmState, lim: Limits, payload: string)
    ensures var r := ExecEvent(h, [Handler(s.state, event, names, code)], event, s, lim, payload);
      match Bind(names, if |payload| > 0 then Split(payload, '\n') else [], Frame(s, []), lim)
      case Fault(e, g) => r == VmResult(false, e, 0, g.state, [])
      case Next(g) =>
        match Run(MachineOf(h, lim), code, 0, g, lim.instructionBudget)
        case Finished(f, left) => r == VmResult(true, "", lim.instructionBudget - left, f.state, f.actions)
        case Faulted(e, f, left) => r == VmResult(false, e, lim.instructionBudget - left, f.state, f.actions)
        case Exhausted(f) => r == VmResult(false, "instruction-budget-exceeded", lim.instructionBudget, f.state, f.actions)
  {
    assert FindHandler([Handler(s.state, event, names, code)], event, s) == 0;
  }

  lemma {:induction false} Spins(vm: Machine, f: Frame, n: nat)
    ensures Run(vm, [Instruction(OpJump, "", "", "", 0)], 0, f, n) == Exhausted(f)
    decreases n
  {
    if n > 0 {
      Spins(vm, f, n - 1);
    }
  }

  // A handler that jumps in place uses up any budget, and changes nothing.
  lemma SpinsOut(h: Host, event: string, s: VmState, lim: Limits, payload: string)
    ensures ExecEvent(h, [Handler(s.state, event, [], [Instruction(OpJump, "", "", "", 0)])], event, s, lim, payload) ==
      VmResult(false, "instruction-budget-exceeded", lim.instructionBudget, s, [])
  {
    HandlerMeans(h, [], [Instruction(OpJump, "", "", "", 0)], event, s, lim, payload);
    Spins(MachineOf(h, lim), Frame(s, []), lim.instructionBudget);
  }

  // Which limit is named when one is passed: the bytes of the state come first.
  lemma LimitsNamed(h: Host, lim: Limits, ins: Instruction, f: Frame, g: Frame)
    requires Operate(h, lim, ins, f) == Next(g)
    ensures Effect(h, lim, ins, f) ==
      if StateBytes(g.state) > lim.maxStateBytes then Fault("state-budget-exceeded", g)
      else if |g.actions| > lim.maxOutputActions then Fault("action-budget-exceeded", g) else Next(g)
  {
  }

  // The size of a state: its name, and every variable's name and value.
  lemma BytesCounted(name: string, value: string, s: VmState)
    ensures s.variables == map[] ==> StateBytes(s) == |s.state|
    ensures name !in s.variables ==>
      StateBytes(s.(variables := s.variables[name := value])) == StateBytes(s) + |name| + |value|
    ensures name in s.variables ==>
      StateBytes(s.(variables := s.variables[name := value])) == StateBytes(s) + |value| - |s.variables[name]|
  {
    var sizes := map k | k in s.variables :: |k| + |s.variables[k]|;
    var after := s.variables[name := value];
    assert (map k | k in after :: |k| + |after[k]|) == sizes[name := |name| + |value|];
    SumUpdate(sizes, name, |name| + |value|);
    assert s.variables == map[] ==> sizes == map[];
  }
}
