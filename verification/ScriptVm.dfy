// The bounded script virtual machine: instructions, their effects, and the program-counter loop.

module ScriptVm {
  import opened Basics
  import opened Text

  datatype Opcode =
    | OpSet | OpAdd | OpEmit | OpState | OpTimer | OpListen | OpNotify | OpMessage
    | OpMove | OpRotate | OpScale | OpVelocity | OpAngularVelocity
    | OpForce | OpImpulse | OpAngularImpulse | OpTorque | OpBuoyancy | OpMaterial
    | OpPhysics | OpText | OpSay | OpWhisper | OpShout
    | OpObjectInfo | OpRegionInfo | OpTerrainHeight | OpWaterLevel | OpWorldTime
    | OpNearbyAvatars | OpBuiltinSet | OpJump | OpJumpIfFalse | OpStop

  datatype Instruction = Instruction(opcode: Opcode, a: string, b: string, c: string, target: nat)

  datatype Handler = Handler(state: string, event: string, parameters: seq<string>, instructions: seq<Instruction>)

  datatype VmState = VmState(state: string, variables: map<string, string>)

  datatype ActionType =
    | ActEmit | ActStateChange | ActSetTimer | ActListen | ActNotifyOwner | ActDirectMessage
    | ActWorldMove | ActWorldRotate | ActWorldScale | ActWorldVelocity | ActWorldAngularVelocity
    | ActWorldForce | ActWorldImpulse | ActWorldAngularImpulse | ActWorldTorque
    | ActWorldBuoyancy | ActWorldMaterial | ActWorldPhysics | ActWorldText
    | ActChatSay | ActChatWhisper | ActChatShout
    | ActQueryObject | ActQueryRegion | ActQueryTerrain | ActQueryWater | ActQueryTime | ActQueryNearby

  datatype Action = Action(kind: ActionType, value: string, number: int)

  datatype Limits = Limits(instructionBudget: nat, maxVariables: nat, maxStateBytes: nat, maxOutputActions: nat)

  datatype VmResult = VmResult(ok: bool, error: string, instructionsExecuted: nat, state: VmState, actions: seq<Action>)

  // What the machine takes from libraries: reading a finite double, and the LSL builtins.
  datatype Host = Host(number: string -> Option<real>, builtin: (string, seq<string>) -> Result<string>)

  // ---------- values and conditions ----------

  function Resolve(value: string, s: VmState): string {
    if |value| > 1 && value[0] == '$' then
      if value[1..] in s.variables then s.variables[value[1..]] else ""
    else value
  }

  datatype Cond = Cond(left: string, op: string, right: string)

  function ConditionTrue(h: Host, c: Cond, s: VmState): bool {
    var op, lhs, rhs := c.op, Resolve(c.left, s), Resolve(c.right, s);
    if op == "==" then lhs == rhs
    else if op == "!=" then lhs != rhs
    else
      match (h.number(lhs), h.number(rhs))
      case (Some(a), Some(b)) =>
        if op == "<" then a < b else if op == "<=" then a <= b
        else if op == ">" then a > b else op == ">=" && a >= b
      case _ => false
  }

  ghost function StateBytes(s: VmState): int {
    |s.state| + Sum(map k | k in s.variables :: |k| + |s.variables[k]|)
  }

  // ---------- one ordinary instruction ----------

  // What a running handler owns: the script state and the actions it has requested.
  datatype Frame = Frame(state: VmState, actions: seq<Action>)

  datatype StepResult = Next(frame: Frame) | Fault(error: string, frame: Frame)

  predicate IsControl(op: Opcode) { op.OpJump? || op.OpJumpIfFalse? || op.OpStop? }

  function Assign(f: Frame, lim: Limits, name: string, value: string): StepResult {
    var vars := f.state.variables;
    if name !in vars && |vars| >= lim.maxVariables then Fault("variable-budget-exceeded", f)
    else Next(f.(state := f.state.(variables := vars[name := value])))
  }

  function Push(f: Frame, kind: ActionType, value: string, number: int): StepResult {
    Next(f.(actions := f.actions + [Action(kind, value, number)]))
  }

  function IntegerOrZero(text: string): int {
    match Integer(text) case Some(v) => v case None => 0
  }

  function VectorAction(op: Opcode): ActionType {
    match op
    case OpMove => ActWorldMove
    case OpRotate => ActWorldRotate
    case OpScale => ActWorldScale
    case OpVelocity => ActWorldVelocity
    case OpAngularVelocity => ActWorldAngularVelocity
    case OpForce => ActWorldForce
    case OpImpulse => ActWorldImpulse
    case OpAngularImpulse => ActWorldAngularImpulse
    case OpTorque => ActWorldTorque
    case _ => ActWorldMaterial
  }

  function QueryAction(op: Opcode): ActionType {
    match op
    case OpObjectInfo => ActQueryObject
    case OpRegionInfo => ActQueryRegion
    case OpTerrainHeight => ActQueryTerrain
    case OpWaterLevel => ActQueryWater
    case _ => ActQueryTime
  }

  function ResolveAll(fields: seq<string>, s: VmState): seq<string> {
    seq(|fields|, i requires 0 <= i < |fields| => Resolve(fields[i], s))
  }

  function Operate(h: Host, lim: Limits, ins: Instruction, f: Frame): StepResult {
    var s := f.state;
    match ins.opcode
    case OpSet => Assign(f, lim, ins.a, Resolve(ins.b, s))
    case OpAdd =>
      var current := Integer(if ins.a in s.variables then s.variables[ins.a] else "0");
      (match (Integer(ins.b), current)
       case (Some(delta), Some(now)) =>
         Next(f.(state := s.(variables := s.variables[ins.a := IntText(now + delta)])))
       case _ => Fault("numeric-state-required", f))
    case OpEmit =>
      if |f.actions| >= lim.maxOutputActions then Fault("action-budget-exceeded", f)
      else Push(f, ActEmit, Resolve(ins.a, s), 0)
    case OpState => Push(f.(state := s.(state := ins.a)), ActStateChange, ins.a, 0)
    case OpTimer => Push(f, ActSetTimer, "", IntegerOrZero(ins.a))
    case OpListen => Push(f, ActListen, "", IntegerOrZero(ins.a))
    case OpNotify => Push(f, ActNotifyOwner, Resolve(ins.a, s), 0)
    case OpMessage => Push(f, ActDirectMessage, ins.a + "\n" + Resolve(ins.b, s), 0)
    case OpBuoyancy => Push(f, ActWorldBuoyancy, Resolve(ins.a, s), 0)
    case OpPhysics => Push(f, ActWorldPhysics, ins.a, 0)
    case OpText => Push(f, ActWorldText, Resolve(ins.a, s), 0)
    case OpSay => Push(f, ActChatSay, Resolve(ins.a, s), 0)
    case OpWhisper => Push(f, ActChatWhisper, Resolve(ins.a, s), 0)
    case OpShout => Push(f, ActChatShout, Resolve(ins.a, s), 0)
    case OpNearbyAvatars => Push(f, ActQueryNearby, ins.a + "|" + ins.b, 0)
    case OpBuiltinSet =>
      var arguments := if ins.c == "" then [] else ResolveAll(Split(ins.c, 31 as char), s);
      (match h.builtin(ins.b, arguments)
       case Ok(value) => Assign(f, lim, ins.a, value)
       case Err(reason) => Fault(reason, f))
    case _ =>
      if ins.opcode.OpObjectInfo? || ins.opcode.OpRegionInfo? || ins.opcode.OpTerrainHeight? ||
         ins.opcode.OpWaterLevel? || ins.opcode.OpWorldTime? then
        Push(f, QueryAction(ins.opcode), ins.a, 0)
      else if IsControl(ins.opcode) then Next(f)
      else
        Push(f, VectorAction(ins.opcode),
             Resolve(ins.a, s) + " " + Resolve(ins.b, s) + " " + Resolve(ins.c, s), 0)
  }

  // An ordinary instruction followed by the two budget checks that close every loop round.
  ghost function Effect(h: Host, lim: Limits, ins: Instruction, f: Frame): StepResult {
    match Operate(h, lim, ins, f)
    case Fault(e, g) => Fault(e, g)
    case Next(g) =>
      if StateBytes(g.state) > lim.maxStateBytes then Fault("state-budget-exceeded", g)
      else if |g.actions| > lim.maxOutputActions then Fault("action-budget-exceeded", g)
      else Next(g)
  }

  // ---------- the program-counter run ----------

  // What the loop needs to know of a host and its limits: what one ordinary instruction does to a
  // frame, and whether a condition holds there.
  datatype Machine = Machine(effect: (Instruction, Frame) -> StepResult, holds: (Cond, Frame) -> bool)

  ghost function MachineOf(h: Host, lim: Limits): Machine {
    Machine((ins, f) => Effect(h, lim, ins, f), (c: Cond, f: Frame) => ConditionTrue(h, c, f.state))
  }

  function CondOf(ins: Instruction): Cond { Cond(ins.a, ins.b, ins.c) }

  datatype Outcome =
    | Finished(frame: Frame, left: nat)
    | Faulted(error: string, frame: Frame, left: nat)
    | Exhausted(frame: Frame)

  // The run from pc with n instructions of budget left; `left` is what remains at the end.
  ghost function Run(vm: Machine, code: seq<Instruction>, pc: nat, f: Frame, n: nat): (o: Outcome)
    ensures !o.Exhausted? ==> o.left <= n
    decreases n
  {
    if pc >= |code| then Finished(f, n)
    else if n == 0 then Exhausted(f)
    else
      var ins := code[pc];
      match ins.opcode
      case OpStop => Finished(f, n - 1)
      case OpJump => Run(vm, code, ins.target, f, n - 1)
      case OpJumpIfFalse =>
        var next := if vm.holds(CondOf(ins), f) then pc + 1 else ins.target;
        Run(vm, code, next, f, n - 1)
      case _ =>
        match vm.effect(ins, f)
        case Fault(e, g) => Faulted(e, g, n - 1)
        case Next(g) => Run(vm, code, pc + 1, g, n - 1)
  }

  predicate Answers(handler: Handler, event: string, s: VmState) {
    handler.event == event && (handler.state == "*" || handler.state == s.state)
  }

  function FindHandler(program: seq<Handler>, event: string, s: VmState): (i: nat)
    ensures i <= |program|
    ensures i < |program| ==> Answers(program[i], event, s)
    ensures forall j :: 0 <= j < i ==> !Answers(program[j], event, s)
  {
    if program == [] || Answers(program[0], event, s) then 0
    else 1 + FindHandler(program[1..], event, s)
  }

  function Bind(names: seq<string>, values: seq<string>, f: Frame, lim: Limits): StepResult
    decreases |names|
  {
    if names == [] then Next(f)
    else
      match Assign(f, lim, names[0], if values == [] then "" else values[0])
      case Fault(e, g) => Fault(e, g)
      case Next(g) => Bind(names[1..], if values == [] then [] else values[1..], g, lim)
  }

  function ResultOf(o: Outcome, budget: nat): VmResult
    requires !o.Exhausted? ==> o.left <= budget
  {
    match o
    case Finished(f, left) => VmResult(true, "", budget - left, f.state, f.actions)
    case Faulted(e, f, left) => VmResult(false, e, budget - left, f.state, f.actions)
    case Exhausted(f) => VmResult(false, "instruction-budget-exceeded", budget, f.state, f.actions)
  }

  // The meaning of delivering one event to a compiled program.
  ghost function ExecEvent(
    h: Host, program: seq<Handler>, event: string, s: VmState, lim: Limits, payload: string): (r: VmResult)
  {
    var i := FindHandler(program, event, s);
    if i == |program| then VmResult(true, "", 0, s, [])
    else
      var values := if payload == "" then [] else Split(payload, '\n');
      match Bind(program[i].parameters, values, Frame(s, []), lim)
      case Fault(e, f) => VmResult(false, e, 0, f.state, [])
      case Next(f) =>
        ResultOf(Run(MachineOf(h, lim), program[i].instructions, 0, f, lim.instructionBudget), lim.instructionBudget)
  }

  // ---------- the loop itself ----------

  method CountStateBytes(s: VmState) returns (total: nat)
    ensures total == StateBytes(s)
  {
    total := |s.state|;
    var rest := s.variables;
    while rest != map[]
      invariant StateBytes(s) == total + Sum(map k | k in rest :: |k| + |rest[k]|)
      decreases |rest|
    {
      var key :| key in rest;
      ghost var sizes := map k | k in rest :: |k| + |rest[k]|;
      SumMinus(sizes, key);
      total := total + |key| + |rest[key]|;
      rest := rest - {key};
      assert sizes - {key} == map k | k in rest :: |k| + |rest[k]|;
    }
  }

  method BindParameters(names: seq<string>, values: seq<string>, start: Frame, lim: Limits) returns (r: StepResult)
    ensures r == Bind(names, values, start, lim)
  {
    var f := start;
    var index := 0;
    while index < |names|
      invariant index <= |names|
      invariant Bind(names, values, start, lim) ==
        Bind(names[index..], if index < |values| then values[index..] else [], f, lim)
    {
      r := Assign(f, lim, names[index], if index < |values| then values[index] else "");
      if r.Fault? {
        return;
      }
      f := r.frame;
      index := index + 1;
    }
    r := Next(f);
  }

  // What vm says of ordinary instructions and conditions is what host and limits say.
  ghost predicate Stands(vm: Machine, h: Host, lim: Limits) {
    && (forall ins: Instruction, f: Frame {:trigger Effect(h, lim, ins, f)} :: vm.effect(ins, f) == Effect(h, lim, ins, f))
    && forall c: Cond, f: Frame {:trigger vm.holds(c, f)} :: vm.holds(c, f) == ConditionTrue(h, c, f.state)
  }

  method RunHandler(h: Host, code: seq<Instruction>, start: Frame, lim: Limits, ghost vm: Machine) returns (result: VmResult)
    requires Stands(vm, h, lim)
    ensures result == ResultOf(Run(vm, code, 0, start, lim.instructionBudget), lim.instructionBudget)
  {
    var f := start;
    var pc: nat := 0;
    var executed: nat := 0;
    ghost var meaning := Run(vm, code, 0, f, lim.instructionBudget);
    while pc < |code|
      invariant executed <= lim.instructionBudget
      invariant meaning == Run(vm, code, pc, f, lim.instructionBudget - executed)
      decreases lim.instructionBudget - executed
    {
      var ins := code[pc];
      if executed >= lim.instructionBudget {
        return VmResult(false, "instruction-budget-exceeded", executed, f.state, f.actions);
      }
      executed := executed + 1;
      if ins.opcode.OpStop? {
        return VmResult(true, "", executed, f.state, f.actions);
      }
      if ins.opcode.OpJump? {
        pc := ins.target;
        continue;
      }
      if ins.opcode.OpJumpIfFalse? {
        var holds := ConditionTrue(h, CondOf(ins), f.state);
        assert holds == vm.holds(CondOf(ins), f);
        pc := if holds then pc + 1 else ins.target;
        continue;
      }
      var step := EffectOf(h, lim, ins, f, vm);
      if step.Fault? {
        return VmResult(false, step.error, executed, step.frame.state, step.frame.actions);
      }
      f := step.frame;
      pc := pc + 1;
    }
    result := VmResult(true, "", executed, f.state, f.actions);
  }

  method EffectOf(h: Host, lim: Limits, ins: Instruction, f: Frame, ghost vm: Machine) returns (r: StepResult)
    requires Stands(vm, h, lim)
    ensures r == vm.effect(ins, f)
  {
    r := Operate(h, lim, ins, f);
    if r.Next? {
      var bytes := CountStateBytes(r.frame.state);
      if bytes > lim.maxStateBytes {
        r := Fault("state-budget-exceeded", r.frame);
      } else if |r.frame.actions| > lim.maxOutputActions {
        r := Fault("action-budget-exceeded", r.frame);
      }
    }
    assert r == Effect(h, lim, ins, f);
  }

  method ExecuteScriptEvent(
    h: Host, program: seq<Handler>, event: string, initial: VmState, lim: Limits, payload: string)
    returns (result: VmResult)
    ensures result == ExecEvent(h, program, event, initial, lim, payload)
  {
    var at := 0;
    while at < |program| && !Answers(program[at], event, initial)
      invariant at <= |program|
      invariant FindHandler(program, event, initial) == at + FindHandler(program[at..], event, initial)
    {
      at := at + 1;
    }
    if at == |program| {
      return VmResult(true, "", 0, initial, []);
    }
    var values := if payload == "" then [] else Split(payload, '\n');
    var bound := BindParameters(program[at].parameters, values, Frame(initial, []), lim);
    if bound.Fault? {
      return VmResult(false, bound.error, 0, bound.frame.state, []);
    }
    result := RunHandler(h, program[at].instructions, bound.frame, lim, MachineOf(h, lim));
  }
}
