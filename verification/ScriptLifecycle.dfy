// One event and the state_exit/state_entry runs it causes: a bounded transition machine that shares
// the instruction and action budgets of the event.

module ScriptLifecycle {
  import opened Basics
  import opened ScriptVm
  import opened Text
  import opened VmCodec

  const MAX_TRANSITIONS: nat := 8

  // A lifecycle run: the event, the state to run it in, and the totals so far.
  type Runner = (string, VmState, VmResult) -> Result<VmResult>

  // ---------- lifecycle runs ----------

  // A compiled program on a host, under the limits of one event.
  datatype Session = Session(h: Host, program: seq<Handler>, lim: Limits)

  function Remaining(lim: Limits, total: VmResult): Limits
    requires total.instructionsExecuted <= lim.instructionBudget
  {
    lim.(instructionBudget := lim.instructionBudget - total.instructionsExecuted,
         maxOutputActions := if |total.actions| >= lim.maxOutputActions then 0 else lim.maxOutputActions - |total.actions|)
  }

  function Add(total: VmResult, run: VmResult): VmResult {
    total.(instructionsExecuted := total.instructionsExecuted + run.instructionsExecuted, actions := total.actions + run.actions)
  }

  // One lifecycle run from state s, charged to what the event and earlier runs have left.
  ghost function LifecycleRun(x: Session, event: string, s: VmState, total: VmResult): Result<VmResult> {
    if total.instructionsExecuted >= x.lim.instructionBudget then Err("instruction-budget-exceeded")
    else
      var run := ExecEvent(x.h, x.program, event, s, Remaining(x.lim, total), "");
      if !run.ok then Err(run.error)
      else if |Add(total, run).actions| > x.lim.maxOutputActions then Err("action-budget-exceeded")
      else Ok(run)
  }

  ghost function RunnerOf(x: Session): Runner {
    (event: string, s: VmState, total: VmResult) => LifecycleRun(x, event, s, total)
  }

  datatype Transition = Transition(from: string, to: string, exit: VmResult, entry: VmResult)

  function After(total: VmResult, t: Transition): VmResult {
    Add(Add(total, t.exit), t.entry).(state := t.entry.state)
  }

  // One transition: state_exit in the old logical state, then state_entry in the new one.
  ghost function Transit(run: Runner, previous: string, total: VmResult): Result<Transition> {
    var target := total.state.state;
    match run("state_exit", total.state.(state := previous), total)
    case Err(e) => Err(e)
    case Ok(exit) =>
      match run("state_entry", exit.state.(state := target), Add(total, exit))
      case Err(e) => Err(e)
      case Ok(entry) => Ok(Transition(previous, target, exit, entry))
  }

  // Transitions until state_entry leaves the logical state alone; k have been made.
  ghost function Settle(run: Runner, previous: string, total: VmResult, k: nat): Result<VmResult>
    decreases MAX_TRANSITIONS + 1 - k
  {
    if total.state.state == previous then Ok(total)
    else if k + 1 > MAX_TRANSITIONS then Err("state-transition-budget-exceeded")
    else
      match Transit(run, previous, total)
      case Err(e) => Err(e)
      case Ok(t) => Settle(run, t.to, After(total, t), k + 1)
  }

  // ---------- what a settled event satisfies ----------

  // The logical state changed from t.from; state_exit ran in the old state and state_entry in the new one.
  ghost predicate Leads(run: Runner, total: VmResult, t: Transition) {
    && t.to == total.state.state && t.from != t.to
    && run("state_exit", total.state.(state := t.from), total) == Ok(t.exit)
    && run("state_entry", t.exit.state.(state := t.to), Add(total, t.exit)) == Ok(t.entry)
  }

  // The transitions lead, run by run, from `total` to `final`, whose state the last one left alone.
  ghost predicate Chain(run: Runner, previous: string, total: VmResult, steps: seq<Transition>, final: VmResult)
    decreases |steps|
  {
    if steps == [] then final == total && total.state.state == previous
    else
      && steps[0].from == previous && Leads(run, total, steps[0])
      && Chain(run, steps[0].to, After(total, steps[0]), steps[1..], final)
  }

  lemma {:induction false} SettledHasChain(run: Runner, previous: string, total: VmResult, k: nat)
    returns (steps: seq<Transition>)
    requires k <= MAX_TRANSITIONS && Settle(run, previous, total, k).Ok?
    ensures |steps| <= MAX_TRANSITIONS - k && Chain(run, previous, total, steps, Settle(run, previous, total, k).value)
    decreases MAX_TRANSITIONS + 1 - k
  {
    var target := total.state.state;
    if target == previous {
      steps := [];
    } else {
      var t := Transit(run, previous, total).value;
      var rest := SettledHasChain(run, target, After(total, t), k + 1);
      steps := [t] + rest;
      assert steps[1..] == rest;
    }
  }

  lemma {:induction false} ChainSettles(
    run: Runner, previous: string, total: VmResult, k: nat, steps: seq<Transition>, final: VmResult)
    requires |steps| + k <= MAX_TRANSITIONS && Chain(run, previous, total, steps, final)
    ensures Settle(run, previous, total, k) == Ok(final)
    decreases |steps|
  {
    if steps != [] {
      ChainSettles(run, steps[0].to, After(total, steps[0]), k + 1, steps[1..], final);
    }
  }

  // An event settles exactly when at most 8 transitions lead to a state that its last state_entry
  // left alone.
  lemma SettlesExactly(run: Runner, previous: string, total: VmResult, final: VmResult)
    ensures Settle(run, previous, total, 0) == Ok(final) <==>
      exists steps: seq<Transition> :: |steps| <= MAX_TRANSITIONS && Chain(run, previous, total, steps, final)
  {
    if Settle(run, previous, total, 0) == Ok(final) {
      var steps := SettledHasChain(run, previous, total, 0);
    }
    forall steps: seq<Transition> | |steps| <= MAX_TRANSITIONS && Chain(run, previous, total, steps, final)
      ensures Settle(run, previous, total, 0) == Ok(final)
    {
      ChainSettles(run, previous, total, 0, steps, final);
    }
  }

  ghost function Instructions(steps: seq<Transition>): nat {
    if steps == [] then 0
    else steps[0].exit.instructionsExecuted + steps[0].entry.instructionsExecuted + Instructions(steps[1..])
  }

  ghost function Actions(steps: seq<Transition>): seq<Action> {
    if steps == [] then [] else steps[0].exit.actions + steps[0].entry.actions + Actions(steps[1..])
  }

  lemma Regroup(a: seq<Action>, b: seq<Action>, c: seq<Action>, d: seq<Action>)
    ensures a + b + c + d == a + (b + c + d)
  {
  }

  // The totals charged are those of the event and of every lifecycle run, and the final state is the
  // one the last state_entry ran in and kept.
  lemma {:induction false} ChainTotals(
    run: Runner, previous: string, total: VmResult, steps: seq<Transition>, final: VmResult)
    requires Chain(run, previous, total, steps, final)
    ensures final.instructionsExecuted == total.instructionsExecuted + Instructions(steps)
    ensures final.actions == total.actions + Actions(steps)
    ensures steps != [] ==> final.state == steps[|steps| - 1].entry.state && final.state.state == steps[|steps| - 1].to
    decreases |steps|
  {
    if steps != [] {
      var t := steps[0];
      ChainTotals(run, t.to, After(total, t), steps[1..], final);
      Regroup(total.actions, t.exit.actions, t.entry.actions, Actions(steps[1..]));
    }
  }

  ghost predicate Within(lim: Limits, total: VmResult) {
    total.instructionsExecuted <= lim.instructionBudget && |total.actions| <= lim.maxOutputActions
  }

  // What every lifecycle transition keeps, and hence a whole chain of them.
  ghost predicate Kept(run: Runner, good: (string, VmResult) -> bool) {
    forall total: VmResult, t: Transition ::
      good(t.from, total) && Leads(run, total, t) ==> good(t.to, After(total, t))
  }

  lemma {:induction false} ChainKeeps(
    run: Runner, good: (string, VmResult) -> bool,
    previous: string, total: VmResult, steps: seq<Transition>, final: VmResult)
    requires Kept(run, good) && good(previous, total) && Chain(run, previous, total, steps, final)
    ensures good(final.state.state, final)
    decreases |steps|
  {
    if steps != [] {
      ChainKeeps(run, good, steps[0].to, After(total, steps[0]), steps[1..], final);
    }
  }

  // A run that ends well keeps to the action limit it was given.
  lemma {:induction false} RunKeepsActionLimit(
    vm: Machine, limit: nat, code: seq<Instruction>, pc: nat, f: Frame, n: nat)
    requires |f.actions| <= limit
    requires forall ins: Instruction, g: Frame :: vm.effect(ins, g).Next? ==> |vm.effect(ins, g).frame.actions| <= limit
    ensures Run(vm, code, pc, f, n).Finished? ==> |Run(vm, code, pc, f, n).frame.actions| <= limit
    decreases n
  {
    if pc < |code| && n > 0 {
      var ins := code[pc];
      if ins.opcode.OpJump? {
        RunKeepsActionLimit(vm, limit, code, ins.target, f, n - 1);
      } else if ins.opcode.OpJumpIfFalse? {
        var next := if vm.holds(CondOf(ins), f) then pc + 1 else ins.target;
        RunKeepsActionLimit(vm, limit, code, next, f, n - 1);
      } else if !ins.opcode.OpStop? {
        var r := vm.effect(ins, f);
        if r.Next? {
          RunKeepsActionLimit(vm, limit, code, pc + 1, r.frame, n - 1);
        }
      }
    }
  }

  lemma EffectKeepsActionLimit(h: Host, lim: Limits, ins: Instruction, f: Frame)
    ensures Effect(h, lim, ins, f).Next? ==> |Effect(h, lim, ins, f).frame.actions| <= lim.maxOutputActions
  {
  }

  lemma {:induction false} BindKeepsActions(names: seq<string>, values: seq<string>, f: Frame, lim: Limits)
    ensures Bind(names, values, f, lim).frame.actions == f.actions
    decreases |names|
  {
    if names != [] {
      var r := Assign(f, lim, names[0], if values == [] then "" else values[0]);
      if r.Next? {
        BindKeepsActions(names[1..], if values == [] then [] else values[1..], r.frame, lim);
      }
    }
  }

  lemma ExecWithin(h: Host, program: seq<Handler>, event: string, s: VmState, lim: Limits, payload: string)
    ensures ExecEvent(h, program, event, s, lim, payload).ok ==> Within(lim, ExecEvent(h, program, event, s, lim, payload))
  {
    var i := FindHandler(program, event, s);
    if i < |program| {
      var values := if payload == "" then [] else Split(payload, '\n');
      var b := Bind(program[i].parameters, values, Frame(s, []), lim);
      BindKeepsActions(program[i].parameters, values, Frame(s, []), lim);
      if b.Next? {
        var vm := MachineOf(h, lim);
        forall ins: Instruction, g: Frame | vm.effect(ins, g).Next?
          ensures |vm.effect(ins, g).frame.actions| <= lim.maxOutputActions
        {
          EffectKeepsActionLimit(h, lim, ins, g);
        }
        RunKeepsActionLimit(vm, lim.maxOutputActions, program[i].instructions, 0, b.frame, lim.instructionBudget);
      }
    }
  }

  lemma LifecycleRunWithin(x: Session, event: string, s: VmState, total: VmResult)
    requires Within(x.lim, total) && LifecycleRun(x, event, s, total).Ok?
    ensures Within(x.lim, Add(total, LifecycleRun(x, event, s, total).value))
  {
    ExecWithin(x.h, x.program, event, s, Remaining(x.lim, total), "");
  }

  // Budgets over the event and all its lifecycle runs, and the state an event ends in.
  lemma EventBounds(x: Session, event: string, s: VmState, payload: string, final: VmResult)
    returns (steps: seq<Transition>)
    requires var first := ExecEvent(x.h, x.program, event, s, x.lim, payload);
             first.ok && Settle(RunnerOf(x), s.state, first, 0) == Ok(final)
    ensures var first := ExecEvent(x.h, x.program, event, s, x.lim, payload);
      && |steps| <= MAX_TRANSITIONS && Chain(RunnerOf(x), s.state, first, steps, final)
      && first.instructionsExecuted + Instructions(steps) <= x.lim.instructionBudget
      && |first.actions + Actions(steps)| <= x.lim.maxOutputActions
      && final.actions == first.actions + Actions(steps)
    ensures if steps == [] then final.state.state == s.state else final.state == steps[|steps| - 1].entry.state
    ensures steps != [] ==> final.state.state == steps[|steps| - 1].to
  {
    var run := RunnerOf(x);
    var first := ExecEvent(x.h, x.program, event, s, x.lim, payload);
    ExecWithin(x.h, x.program, event, s, x.lim, payload);
    steps := SettledHasChain(run, s.state, first, 0);
    ChainTotals(run, s.state, first, steps, final);
    var good := (previous: string, total: VmResult) => Within(x.lim, total);
    forall total: VmResult, t: Transition | good(t.from, total) && Leads(run, total, t)
      ensures good(t.to, After(total, t))
    {
      TransitionWithin(x, total, t);
    }
    ChainKeeps(run, good, s.state, first, steps, final);
  }

  lemma TransitionWithin(x: Session, total: VmResult, t: Transition)
    requires Within(x.lim, total) && Leads(RunnerOf(x), total, t)
    ensures Within(x.lim, After(total, t))
  {
    LifecycleRunWithin(x, "state_exit", total.state.(state := t.from), total);
    LifecycleRunWithin(x, "state_entry", t.exit.state.(state := t.to), Add(total, t.exit));
  }

  // ---------- names stay readable ----------

  // The assembler's field checks: the name an instruction writes is an atom.
  predicate WritesAtom(ins: Instruction) {
    ins.opcode.OpSet? || ins.opcode.OpAdd? || ins.opcode.OpBuiltinSet? || ins.opcode.OpState? ==> VmAtom(ins.a)
  }

  ghost predicate AtomProgram(program: seq<Handler>) {
    forall i :: 0 <= i < |program| ==>
      (forall j :: 0 <= j < |program[i].parameters| ==> VmAtom(program[i].parameters[j])) &&
      AtomCode(program[i].instructions)
  }

  ghost predicate AtomCode(code: seq<Instruction>) {
    forall j :: 0 <= j < |code| ==> WritesAtom(code[j])
  }

  lemma EffectKeepsNames(h: Host, lim: Limits, ins: Instruction, f: Frame)
    requires Named(f.state) && WritesAtom(ins)
    ensures Effect(h, lim, ins, f).Next? ==> Named(Effect(h, lim, ins, f).frame.state)
  {
  }

  lemma {:induction false} RunKeepsNames(
    vm: Machine, code: seq<Instruction>, pc: nat, f: Frame, n: nat)
    requires Named(f.state) && AtomCode(code)
    requires forall ins: Instruction, g: Frame ::
      Named(g.state) && WritesAtom(ins) && vm.effect(ins, g).Next? ==> Named(vm.effect(ins, g).frame.state)
    ensures Run(vm, code, pc, f, n).Finished? ==> Named(Run(vm, code, pc, f, n).frame.state)
    decreases n
  {
    if pc < |code| && n > 0 {
      var ins := code[pc];
      if ins.opcode.OpJump? {
        RunKeepsNames(vm, code, ins.target, f, n - 1);
      } else if ins.opcode.OpJumpIfFalse? {
        var next := if vm.holds(CondOf(ins), f) then pc + 1 else ins.target;
        RunKeepsNames(vm, code, next, f, n - 1);
      } else if !ins.opcode.OpStop? {
        var r := vm.effect(ins, f);
        if r.Next? {
          RunKeepsNames(vm, code, pc + 1, r.frame, n - 1);
        }
      }
    }
  }

  lemma {:induction false} BindKeepsNames(names: seq<string>, values: seq<string>, f: Frame, lim: Limits)
    requires Named(f.state) && forall j :: 0 <= j < |names| ==> VmAtom(names[j])
    ensures Named(Bind(names, values, f, lim).frame.state)
    decreases |names|
  {
    if names != [] {
      var r := Assign(f, lim, names[0], if values == [] then "" else values[0]);
      if r.Next? {
        BindKeepsNames(names[1..], if values == [] then [] else values[1..], r.frame, lim);
      }
    }
  }

  lemma ExecKeepsNames(h: Host, program: seq<Handler>, event: string, s: VmState, lim: Limits, payload: string)
    requires Named(s) && AtomProgram(program)
    ensures ExecEvent(h, program, event, s, lim, payload).ok ==>
      Named(ExecEvent(h, program, event, s, lim, payload).state)
  {
    var i := FindHandler(program, event, s);
    if i < |program| {
      var handler := program[i];
      var values := if payload == "" then [] else Split(payload, '\n');
      var b := Bind(handler.parameters, values, Frame(s, []), lim);
      BindKeepsNames(handler.parameters, values, Frame(s, []), lim);
      if b.Next? {
        var vm := MachineOf(h, lim);
        forall ins: Instruction, g: Frame | Named(g.state) && WritesAtom(ins) && vm.effect(ins, g).Next?
          ensures Named(vm.effect(ins, g).frame.state)
        {
          EffectKeepsNames(h, lim, ins, g);
        }
        RunKeepsNames(vm, handler.instructions, 0, b.frame, lim.instructionBudget);
      }
    }
  }

  lemma TransitionKeepsNames(x: Session, total: VmResult, t: Transition)
    requires VmAtom(t.from) && Named(total.state) && AtomProgram(x.program) && Leads(RunnerOf(x), total, t)
    ensures VmAtom(t.to) && Named(After(total, t).state)
  {
    ExecKeepsNames(x.h, x.program, "state_exit", total.state.(state := t.from), Remaining(x.lim, total), "");
    ExecKeepsNames(x.h, x.program, "state_entry", t.exit.state.(state := t.to), Remaining(x.lim, Add(total, t.exit)), "");
  }

  // Delivering an event to a program with atom names, from a state with atom names, leaves a state
  // that can be stored and read back.
  lemma EventKeepsNames(x: Session, event: string, s: VmState, payload: string, final: VmResult)
    requires Named(s) && AtomProgram(x.program)
    requires var first := ExecEvent(x.h, x.program, event, s, x.lim, payload);
             first.ok && Settle(RunnerOf(x), s.state, first, 0) == Ok(final)
    ensures Named(final.state)
  {
    var run := RunnerOf(x);
    var first := ExecEvent(x.h, x.program, event, s, x.lim, payload);
    ExecKeepsNames(x.h, x.program, event, s, x.lim, payload);
    var steps := SettledHasChain(run, s.state, first, 0);
    var good := (previous: string, total: VmResult) => VmAtom(previous) && Named(total.state);
    forall total: VmResult, t: Transition | good(t.from, total) && Leads(run, total, t)
      ensures good(t.to, After(total, t))
    {
      TransitionKeepsNames(x, total, t);
    }
    ChainKeeps(run, good, s.state, first, steps, final);
  }
}
