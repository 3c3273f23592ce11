// The structured form of an OGL handler, its meaning, its jump code, and the proof that the
// virtual machine running the jump code does exactly what the structured form says.

module OglLanguage {
  import opened Basics
  import opened ScriptVm
  import opened Text

  predicate Jumps(ins: Instruction) { ins.opcode.OpJump? || ins.opcode.OpJumpIfFalse? }

  // A source command translates to one instruction; jumps come from control flow alone.
  type Command = ins: Instruction | !Jumps(ins) witness Instruction(OpStop, "", "", "", 0)

  type NonZero = n: int | n != 0 witness 1

  // A block is a list of statements; every statement carries the statements after it.
  datatype Block =
    | Done
    | Do(ins: Command, next: Block)
    | If(c: Cond, thn: Block, next: Block)
    | IfElse(c: Cond, thn: Block, els: Block, next: Block)
    | While(c: Cond, body: Block, next: Block)
    | For(variable: string, start: string, step: string, stepValue: NonZero, finish: string, body: Block, next: Block)

  function SetIns(variable: string, value: string): Instruction {
    Instruction(OpSet, variable, value, "", 0)
  }

  function AddIns(variable: string, delta: string): Instruction {
    Instruction(OpAdd, variable, delta, "", 0)
  }

  function JFalse(c: Cond, target: nat): Instruction {
    Instruction(OpJumpIfFalse, c.left, c.op, c.right, target)
  }

  function Jump(target: nat): Instruction {
    Instruction(OpJump, "", "", "", target)
  }

  function ForCond(variable: string, stepValue: int, finish: string): Cond {
    Cond("$" + variable, if stepValue > 0 then "<=" else ">=", finish)
  }

  // ---------- meaning ----------

  // How a block ends. `steps` counts what is charged against the instruction budget; a Diverged
  // block used up the allowance of loop rounds.
  datatype Meaning =
    | Normal(frame: Frame, steps: nat)
    | Halted(frame: Frame, steps: nat)
    | Failed(error: string, frame: Frame, steps: nat)
    | Diverged(steps: nat)

  function Charge(n: nat, m: Meaning): Meaning {
    match m
    case Normal(f, s) => Normal(f, n + s)
    case Halted(f, s) => Halted(f, n + s)
    case Failed(e, f, s) => Failed(e, f, n + s)
    case Diverged(s) => Diverged(n + s)
  }

  // The meaning of a block, with at most `rounds` loop rounds one after or inside another.
  ghost function Eval(vm: Machine, b: Block, f: Frame, rounds: nat): Meaning
    decreases rounds, b, 2
  {
    match b
    case Done => Normal(f, 0)
    case Do(ins, next) =>
      if ins.opcode.OpStop? then Halted(f, 1)
      else
        (match vm.effect(ins, f)
         case Fault(e, g) => Failed(e, g, 1)
         case Next(g) => Charge(1, Eval(vm, next, g, rounds)))
    case If(c, thn, next) =>
      if !vm.holds(c, f) then Charge(1, Eval(vm, next, f, rounds))
      else
        var m := Eval(vm, thn, f, rounds);
        if !m.Normal? then Charge(1, m)
        else Charge(1 + m.steps, Eval(vm, next, m.frame, rounds))
    case IfElse(c, thn, els, next) =>
      if vm.holds(c, f) then
        var m := Eval(vm, thn, f, rounds);
        if !m.Normal? then Charge(1, m)
        else Charge(1 + m.steps + 1, Eval(vm, next, m.frame, rounds))
      else
        var m := Eval(vm, els, f, rounds);
        if !m.Normal? then Charge(1, m)
        else Charge(1 + m.steps, Eval(vm, next, m.frame, rounds))
    case While(_, _, _) => Loop(vm, b, f, rounds)
    case For(variable, start, _, _, _, _, _) =>
      match vm.effect(SetIns(variable, start), f)
      case Fault(e, g) => Failed(e, g, 1)
      case Next(g) => Charge(1, Loop(vm, b, g, rounds))
  }

  predicate IsLoop(b: Block) { b.While? || b.For? }

  function LoopCond(b: Block): Cond
    requires IsLoop(b)
  {
    if b.While? then b.c else ForCond(b.variable, b.stepValue, b.finish)
  }

  // The rounds of a loop.
  ghost function Loop(vm: Machine, b: Block, f: Frame, rounds: nat): Meaning
    requires IsLoop(b)
    decreases rounds, b, 0
  {
    if !vm.holds(LoopCond(b), f) then Charge(1, Eval(vm, b.next, f, rounds))
    else if rounds == 0 then Diverged(1)
    else
      var m := Eval(vm, b.body, f, rounds - 1);
      if !m.Normal? then Charge(1, m) else Charge(1 + m.steps, Back(vm, b, m.frame, rounds - 1))
  }

  // The end of a round: a `for` adds its step, then the loop starts over.
  ghost function Back(vm: Machine, b: Block, f: Frame, rounds: nat): Meaning
    requires IsLoop(b)
    decreases rounds, b, 1
  {
    if b.While? then Charge(1, Loop(vm, b, f, rounds))
    else
      match vm.effect(AddIns(b.variable, b.step), f)
      case Fault(e, g) => Failed(e, g, 1)
      case Next(g) => Charge(2, Loop(vm, b, g, rounds))
  }

  // ---------- jump code ----------

  function Size(b: Block): nat {
    match b
    case Done => 0
    case Do(_, next) => 1 + Size(next)
    case If(_, thn, next) => 1 + Size(thn) + Size(next)
    case IfElse(_, thn, els, next) => 2 + Size(thn) + Size(els) + Size(next)
    case While(_, body, next) => 2 + Size(body) + Size(next)
    case For(_, _, _, _, _, body, next) => 4 + Size(body) + Size(next)
  }

  // The part of block b that owns index i of its code, and where that part starts; None when the
  // instruction there is one of b's own.
  function PartAt(b: Block, at: nat, i: nat): (r: Option<(Block, nat)>)
    requires at <= i < at + Size(b)
    ensures r.Some? ==> r.value.0 < b && at <= r.value.1 <= i < r.value.1 + Size(r.value.0) <= at + Size(b)
  {
    var end := at + Size(b) - Size(b.next);
    if i >= end then Some((b.next, end))
    else
      match b
      case Do(_, _) => None
      case If(_, thn, _) => if i > at then Some((thn, at + 1)) else None
      case IfElse(_, thn, els, _) =>
        if i >= end - Size(els) then Some((els, end - Size(els)))
        else if at < i < end - Size(els) - 1 then Some((thn, at + 1)) else None
      case While(_, body, _) => if at < i < end - 1 then Some((body, at + 1)) else None
      case For(_, _, _, _, _, body, _) => if at + 1 < i < end - 2 then Some((body, at + 2)) else None
  }

  // The instruction at index i of the jump code of block b placed at index `at`.
  function InsAt(b: Block, at: nat, i: nat): Instruction
    requires at <= i < at + Size(b)
    decreases b
  {
    var part := PartAt(b, at, i);
    var end := at + Size(b) - Size(b.next);
    if part.Some? then InsAt(part.value.0, part.value.1, i)
    else
      match b
      case Do(ins, _) => ins
      case If(c, _, _) => JFalse(c, end)
      case IfElse(c, _, els, _) => if i == at then JFalse(c, end - Size(els)) else Jump(end)
      case While(c, _, _) => if i == at then JFalse(c, end) else Jump(at)
      case For(v, start, step, value, finish, _, _) =>
        if i == at then SetIns(v, start)
        else if i == at + 1 then JFalse(ForCond(v, value, finish), end)
        else if i == end - 2 then AddIns(v, step) else Jump(at + 1)
  }

  function Code(b: Block): seq<Instruction> {
    seq(Size(b), i requires 0 <= i < Size(b) => InsAt(b, 0, i))
  }

  // The code of block b sits in `code` at index `at`.
  ghost predicate Installed(code: seq<Instruction>, b: Block, at: nat) {
    at + Size(b) <= |code| && forall i {:trigger InsAt(b, at, i)} :: at <= i < at + Size(b) ==> code[i] == InsAt(b, at, i)
  }

  // The same, one level down: b's own instructions, and its parts in their places.
  ghost predicate Assembled(code: seq<Instruction>, b: Block, at: nat) {
    at + Size(b) <= |code| &&
    match b
    case Done => true
    case Do(ins, next) => code[at] == ins && Installed(code, next, at + 1)
    case If(c, thn, next) =>
      var end := at + 1 + Size(thn);
      code[at] == JFalse(c, end) && Installed(code, thn, at + 1) && Installed(code, next, end)
    case IfElse(c, thn, els, next) =>
      var other := at + 2 + Size(thn);
      var end := other + Size(els);
      && code[at] == JFalse(c, other) && Installed(code, thn, at + 1) && code[other - 1] == Jump(end)
      && Installed(code, els, other) && Installed(code, next, end)
    case While(c, body, next) =>
      var end := at + 2 + Size(body);
      && code[at] == JFalse(c, end) && Installed(code, body, at + 1) && code[end - 1] == Jump(at)
      && Installed(code, next, end)
    case For(variable, start, step, stepValue, finish, body, next) =>
      var end := at + 4 + Size(body);
      && code[at] == SetIns(variable, start) && code[at + 1] == JFalse(ForCond(variable, stepValue, finish), end)
      && Installed(code, body, at + 2) && code[end - 2] == AddIns(variable, step)
      && code[end - 1] == Jump(at + 1) && Installed(code, next, end)
  }

  lemma InstalledPart(code: seq<Instruction>, b: Block, at: nat, p: Block, start: nat)
    requires Installed(code, b, at)
    requires at <= start && start + Size(p) <= at + Size(b)
    requires forall i :: start <= i < start + Size(p) ==> PartAt(b, at, i) == Some((p, start))
    ensures Installed(code, p, start)
  {
    forall i | start <= i < start + Size(p) ensures code[i] == InsAt(p, start, i) {
      assert InsAt(b, at, i) == InsAt(p, start, i);
    }
  }

  lemma InstalledIsAssembled(code: seq<Instruction>, b: Block, at: nat)
    requires Installed(code, b, at)
    ensures Assembled(code, b, at)
  {
    match b
    case Done =>
    case Do(_, _) =>
      InstalledPart(code, b, at, b.next, at + 1);
      assert code[at] == InsAt(b, at, at);
    case If(_, _, _) => ArmInstalled(code, b, at);
    case IfElse(_, _, _, _) => ArmsInstalled(code, b, at);
    case While(_, _, _) => WhileInstalled(code, b, at);
    case For(_, _, _, _, _, _, _) => ForInstalled(code, b, at);
  }

  lemma ArmInstalled(code: seq<Instruction>, b: Block, at: nat)
    requires b.If? && Installed(code, b, at)
    ensures Assembled(code, b, at)
  {
    InstalledPart(code, b, at, b.thn, at + 1);
    InstalledPart(code, b, at, b.next, at + 1 + Size(b.thn));
    assert code[at] == InsAt(b, at, at);
  }

  lemma WhileInstalled(code: seq<Instruction>, b: Block, at: nat)
    requires b.While? && Installed(code, b, at)
    ensures Assembled(code, b, at)
  {
    var end := at + 2 + Size(b.body);
    InstalledPart(code, b, at, b.body, at + 1);
    InstalledPart(code, b, at, b.next, end);
    assert code[at] == InsAt(b, at, at);
    assert code[end - 1] == InsAt(b, at, end - 1);
  }

  lemma ArmsInstalled(code: seq<Instruction>, b: Block, at: nat)
    requires b.IfElse? && Installed(code, b, at)
    ensures Assembled(code, b, at)
  {
    var other := at + 2 + Size(b.thn);
    InstalledPart(code, b, at, b.thn, at + 1);
    InstalledPart(code, b, at, b.els, other);
    InstalledPart(code, b, at, b.next, other + Size(b.els));
    assert code[at] == InsAt(b, at, at);
    assert code[other - 1] == InsAt(b, at, other - 1);
  }

  lemma ForInstalled(code: seq<Instruction>, b: Block, at: nat)
    requires b.For? && Installed(code, b, at)
    ensures Assembled(code, b, at)
  {
    var end := at + 4 + Size(b.body);
    InstalledPart(code, b, at, b.body, at + 2);
    InstalledPart(code, b, at, b.next, end);
    assert code[at] == InsAt(b, at, at);
    assert code[at + 1] == InsAt(b, at, at + 1);
    assert code[end - 2] == InsAt(b, at, end - 2);
    assert code[end - 1] == InsAt(b, at, end - 1);
  }

  lemma AssembledAt(code: seq<Instruction>, b: Block, at: nat, i: nat)
    requires !b.IfElse? && !b.For? && Assembled(code, b, at) && at <= i < at + Size(b)
    ensures code[i] == InsAt(b, at, i)
  {
    var part := PartAt(b, at, i);
    if part.Some? {
      assert InsAt(b, at, i) == InsAt(part.value.0, part.value.1, i);
    }
  }

  lemma ArmsAt(code: seq<Instruction>, b: Block, at: nat, i: nat)
    requires b.IfElse? && Assembled(code, b, at) && at <= i < at + Size(b)
    ensures code[i] == InsAt(b, at, i)
  {
    var other := at + 2 + Size(b.thn);
    var part := PartAt(b, at, i);
    if i >= other + Size(b.els) {
      assert part == Some((b.next, other + Size(b.els)));
    } else if i >= other {
      assert part == Some((b.els, other));
    } else if at < i < other - 1 {
      assert part == Some((b.thn, at + 1));
    } else {
      assert part.None?;
    }
  }

  lemma ForAt(code: seq<Instruction>, b: Block, at: nat, i: nat)
    requires b.For? && Assembled(code, b, at) && at <= i < at + Size(b)
    ensures code[i] == InsAt(b, at, i)
  {
    var end := at + 4 + Size(b.body);
    if i >= end {
      assert InsAt(b, at, i) == InsAt(b.next, end, i);
    } else if at + 1 < i < end - 2 {
      assert InsAt(b, at, i) == InsAt(b.body, at + 2, i);
    }
  }

  lemma AssembledIsInstalled(code: seq<Instruction>, b: Block, at: nat)
    requires Assembled(code, b, at)
    ensures Installed(code, b, at)
  {
    forall i | at <= i < at + Size(b) ensures code[i] == InsAt(b, at, i) {
      if b.IfElse? {
        ArmsAt(code, b, at, i);
      } else if b.For? {
        ForAt(code, b, at, i);
      } else {
        AssembledAt(code, b, at, i);
      }
    }
  }

  // Every jump of a block stays inside the block or goes just past its end.
  lemma {:induction false} TargetsInside(b: Block, at: nat, i: nat)
    requires at <= i < at + Size(b)
    ensures Jumps(InsAt(b, at, i)) ==> at <= InsAt(b, at, i).target <= at + Size(b)
    decreases b
  {
    var part := PartAt(b, at, i);
    if part.Some? {
      TargetsInside(part.value.0, part.value.1, i);
    }
  }

  // A machine configuration: about to execute, ended, or stopped by an error.
  datatype Config = At(pc: nat, frame: Frame) | Ended(frame: Frame) | Broken(error: string, frame: Frame)

  ghost function Step(vm: Machine, ins: Instruction, pc: nat, f: Frame): Config {
    match ins.opcode
    case OpStop => Ended(f)
    case OpJump => At(ins.target, f)
    case OpJumpIfFalse => At(if vm.holds(CondOf(ins), f) then pc + 1 else ins.target, f)
    case _ => match vm.effect(ins, f) case Next(g) => At(pc + 1, g) case Fault(e, g) => Broken(e, g)
  }

  // Exactly s instructions, none of them beyond the code, lead from c to d.
  ghost predicate Leads(vm: Machine, code: seq<Instruction>, c: Config, s: nat, d: Config)
    decreases s
  {
    if s == 0 then c == d
    else c.At? && c.pc < |code| && Leads(vm, code, Step(vm, code[c.pc], c.pc, c.frame), s - 1, d)
  }

  // After s instructions from c there is still one to execute.
  ghost predicate Going(vm: Machine, code: seq<Instruction>, c: Config, s: nat)
    decreases s
  {
    c.At? && c.pc < |code| && (s > 0 ==> Going(vm, code, Step(vm, code[c.pc], c.pc, c.frame), s - 1))
  }

  lemma {:induction false} LeadsThen(vm: Machine, code: seq<Instruction>, c: Config, s: nat, d: Config, t: nat)
    requires Leads(vm, code, c, s, d)
    ensures forall e :: Leads(vm, code, d, t, e) ==> Leads(vm, code, c, s + t, e)
    ensures Going(vm, code, d, t) ==> Going(vm, code, c, s + t)
    decreases s
  {
    if s > 0 {
      LeadsThen(vm, code, Step(vm, code[c.pc], c.pc, c.frame), s - 1, d, t);
    }
  }

  // Started at `at` in frame f, the machine does what m says; a normal end is at index `end`.
  ghost predicate Agrees(vm: Machine, code: seq<Instruction>, at: nat, end: nat, f: Frame, m: Meaning) {
    match m
    case Normal(g, s) => Leads(vm, code, At(at, f), s, At(end, g))
    case Halted(g, s) => Leads(vm, code, At(at, f), s, Ended(g))
    case Failed(e, g, s) => Leads(vm, code, At(at, f), s, Broken(e, g))
    case Diverged(s) => Going(vm, code, At(at, f), s)
  }

  // One part after another: the second is reached only if the first ends normally.
  function Then(first: Meaning, rest: Meaning): Meaning {
    if first.Normal? then Charge(first.steps, rest) else first
  }

  lemma AgreesThen(vm: Machine, code: seq<Instruction>, at: nat, mid: nat, end: nat,
                   f: Frame, first: Meaning, rest: Meaning)
    requires Agrees(vm, code, at, mid, f, first)
    requires first.Normal? ==> Agrees(vm, code, mid, end, first.frame, rest)
    ensures Agrees(vm, code, at, end, f, Then(first, rest))
  {
    if first.Normal? {
      LeadsThen(vm, code, At(at, f), first.steps, At(mid, first.frame), rest.steps);
    }
  }

  function OneStep(r: StepResult): Meaning {
    match r case Next(g) => Normal(g, 1) case Fault(e, g) => Failed(e, g, 1)
  }

  lemma AgreesTest(vm: Machine, code: seq<Instruction>, at: nat, c: Cond, other: nat, f: Frame)
    requires at < |code| && code[at] == JFalse(c, other)
    ensures Agrees(vm, code, at, if vm.holds(c, f) then at + 1 else other, f, Normal(f, 1))
  {
    assert Leads(vm, code, Step(vm, code[at], at, f), 0, Step(vm, code[at], at, f));
  }

  lemma AgreesJump(vm: Machine, code: seq<Instruction>, at: nat, target: nat, f: Frame)
    requires at < |code| && code[at] == Jump(target)
    ensures Agrees(vm, code, at, target, f, Normal(f, 1))
  {
    assert Leads(vm, code, Step(vm, code[at], at, f), 0, Step(vm, code[at], at, f));
  }

  lemma AgreesEffect(vm: Machine, code: seq<Instruction>, at: nat, ins: Instruction, f: Frame)
    requires at < |code| && code[at] == ins && !IsControl(ins.opcode)
    ensures Agrees(vm, code, at, at + 1, f, OneStep(vm.effect(ins, f)))
  {
    assert Leads(vm, code, Step(vm, code[at], at, f), 0, Step(vm, code[at], at, f));
  }

  ghost function After(vm: Machine, first: Meaning, p: Block, rounds: nat): Meaning {
    if first.Normal? then Charge(first.steps, Eval(vm, p, first.frame, rounds)) else first
  }

  // Started at a block's code, the machine does what the block means.
  lemma {:induction false} Simulate(vm: Machine, code: seq<Instruction>, b: Block, at: nat, f: Frame, rounds: nat)
    requires Installed(code, b, at)
    ensures Agrees(vm, code, at, at + Size(b), f, Eval(vm, b, f, rounds))
    decreases rounds, b, 4
  {
    match b
    case Done =>
    case Do(_, _) => SimulateDo(vm, code, b, at, f, rounds);
    case If(_, _, _) => SimulateIf(vm, code, b, at, f, rounds);
    case IfElse(_, _, _, _) => SimulateIfElse(vm, code, b, at, f, rounds);
    case While(_, _, _) => SimulateLoop(vm, code, b, at, f, rounds);
    case For(_, _, _, _, _, _, _) => SimulateFor(vm, code, b, at, f, rounds);
  }

  lemma {:induction false} SimulateDo(vm: Machine, code: seq<Instruction>, b: Block, at: nat, f: Frame, rounds: nat)
    requires b.Do? && Installed(code, b, at)
    ensures Agrees(vm, code, at, at + Size(b), f, Eval(vm, b, f, rounds))
    decreases rounds, b, 2
  {
    InstalledIsAssembled(code, b, at);
    if !b.ins.opcode.OpStop? {
      AgreesEffect(vm, code, at, b.ins, f);
      SimulatePart(vm, code, b, b.next, at, at + 1, f, rounds, OneStep(vm.effect(b.ins, f)));
    }
  }

  lemma {:induction false} SimulateIfElse(vm: Machine, code: seq<Instruction>, b: Block, at: nat, f: Frame, rounds: nat)
    requires b.IfElse? && Installed(code, b, at)
    ensures Agrees(vm, code, at, at + Size(b), f, Eval(vm, b, f, rounds))
    decreases rounds, b, 3
  {
    if vm.holds(b.c, f) {
      SimulateThen(vm, code, b, at, f, rounds);
    } else {
      SimulateElse(vm, code, b, at, f, rounds);
    }
  }

  lemma {:induction false} SimulateFor(vm: Machine, code: seq<Instruction>, b: Block, at: nat, f: Frame, rounds: nat)
    requires b.For? && Installed(code, b, at)
    ensures Agrees(vm, code, at, at + Size(b), f, Eval(vm, b, f, rounds))
    decreases rounds, b, 3
  {
    var start := SetIns(b.variable, b.start);
    var r := vm.effect(start, f);
    assert code[at] == start by {
      InstalledIsAssembled(code, b, at);
    }
    AgreesEffect(vm, code, at, start, f);
    if r.Next? {
      SimulateLoop(vm, code, b, at, r.frame, rounds);
      AgreesThen(vm, code, at, at + 1, at + Size(b), f, OneStep(r), Loop(vm, b, r.frame, rounds));
    }
  }

  // Part p of block b, found at index `mid`, once what is before it agrees with `first`.
  lemma {:induction false} SimulatePart(vm: Machine, code: seq<Instruction>, b: Block, p: Block, at: nat, mid: nat,
                                        f: Frame, rounds: nat, first: Meaning)
    requires p < b && Installed(code, p, mid)
    requires Agrees(vm, code, at, mid, f, first)
    ensures Agrees(vm, code, at, mid + Size(p), f, After(vm, first, p, rounds))
    decreases rounds, b, 0
  {
    if first.Normal? {
      Simulate(vm, code, p, mid, first.frame, rounds);
      AgreesThen(vm, code, at, mid, mid + Size(p), f, first, Eval(vm, p, first.frame, rounds));
    }
  }

  lemma {:induction false} SimulateIf(vm: Machine, code: seq<Instruction>, b: Block, at: nat, f: Frame, rounds: nat)
    requires b.If? && Installed(code, b, at)
    ensures Agrees(vm, code, at, at + Size(b), f, Eval(vm, b, f, rounds))
    decreases rounds, b, 2
  {
    InstalledIsAssembled(code, b, at);
    var end := at + 1 + Size(b.thn);
    AgreesTest(vm, code, at, b.c, end, f);
    var m := Normal(f, 1);
    if vm.holds(b.c, f) {
      SimulatePart(vm, code, b, b.thn, at, at + 1, f, rounds, m);
      m := After(vm, m, b.thn, rounds);
    }
    SimulatePart(vm, code, b, b.next, at, end, f, rounds, m);
  }

  lemma {:induction false} SimulateThen(vm: Machine, code: seq<Instruction>, b: Block, at: nat, f: Frame, rounds: nat)
    requires b.IfElse? && Installed(code, b, at) && vm.holds(b.c, f)
    ensures var m := After(vm, Normal(f, 1), b.thn, rounds);
            Agrees(vm, code, at, at + Size(b), f, if m.Normal? then After(vm, Charge(1, m), b.next, rounds) else m)
    decreases rounds, b, 2
  {
    InstalledIsAssembled(code, b, at);
    AgreesTest(vm, code, at, b.c, at + 2 + Size(b.thn), f);
    SimulatePart(vm, code, b, b.thn, at, at + 1, f, rounds, Normal(f, 1));
    SimulateAfterThen(vm, code, b, at, f, rounds, After(vm, Normal(f, 1), b.thn, rounds));
  }

  // The jump over the other arm, and what follows.
  lemma {:induction false} SimulateAfterThen(vm: Machine, code: seq<Instruction>, b: Block, at: nat, f: Frame, rounds: nat, m: Meaning)
    requires b.IfElse? && Assembled(code, b, at) && Agrees(vm, code, at, at + 1 + Size(b.thn), f, m)
    ensures Agrees(vm, code, at, at + Size(b), f, if m.Normal? then After(vm, Charge(1, m), b.next, rounds) else m)
    decreases rounds, b, 1
  {
    var end := at + 2 + Size(b.thn) + Size(b.els);
    if m.Normal? {
      SimulateHop(vm, code, at, at + 1 + Size(b.thn), end, f, m);
      SimulatePart(vm, code, b, b.next, at, end, f, rounds, Charge(1, m));
    }
  }

  lemma {:induction false} SimulateElse(vm: Machine, code: seq<Instruction>, b: Block, at: nat, f: Frame, rounds: nat)
    requires b.IfElse? && Installed(code, b, at) && !vm.holds(b.c, f)
    ensures Agrees(vm, code, at, at + Size(b), f, After(vm, After(vm, Normal(f, 1), b.els, rounds), b.next, rounds))
    decreases rounds, b, 1
  {
    InstalledIsAssembled(code, b, at);
    var other := at + 2 + Size(b.thn);
    AgreesTest(vm, code, at, b.c, other, f);
    SimulatePart(vm, code, b, b.els, at, other, f, rounds, Normal(f, 1));
    var m := After(vm, Normal(f, 1), b.els, rounds);
    SimulatePart(vm, code, b, b.next, at, other + Size(b.els), f, rounds, m);
  }

  lemma SimulateHop(vm: Machine, code: seq<Instruction>, at: nat, hop: nat, end: nat, f: Frame, m: Meaning)
    requires m.Normal? && Agrees(vm, code, at, hop, f, m)
    requires hop < |code| && code[hop] == Jump(end)
    ensures Agrees(vm, code, at, end, f, Charge(1, m))
  {
    AgreesJump(vm, code, hop, end, m.frame);
    AgreesThen(vm, code, at, hop, end, f, m, Normal(m.frame, 1));
  }

  // The index of a loop's condition.
  function CondAt(b: Block, at: nat): nat { if b.For? then at + 1 else at }

  // Where a loop's test leads when it fails.
  function ExitAt(b: Block, at: nat): nat
    requires IsLoop(b)
  {
    CondAt(b, at) + 1 + Size(b.body) + (if b.For? then 2 else 1)
  }

  // A loop's test, and where its parts are.
  ghost predicate LoopInstalled(code: seq<Instruction>, b: Block, at: nat)
    requires IsLoop(b)
  {
    var c, end := CondAt(b, at), ExitAt(b, at);
    && c < |code| && code[c] == JFalse(LoopCond(b), end)
    && Installed(code, b.body, c + 1) && Installed(code, b.next, end) && end + Size(b.next) == at + Size(b)
  }

  lemma WhileParts(code: seq<Instruction>, b: Block, at: nat)
    requires b.While? && Installed(code, b, at)
    ensures LoopInstalled(code, b, at)
  {
    InstalledPart(code, b, at, b.body, at + 1);
    InstalledPart(code, b, at, b.next, at + 2 + Size(b.body));
    assert code[at] == InsAt(b, at, at);
  }

  lemma ForParts(code: seq<Instruction>, b: Block, at: nat)
    requires b.For? && Installed(code, b, at)
    ensures LoopInstalled(code, b, at)
  {
    InstalledPart(code, b, at, b.body, at + 2);
    InstalledPart(code, b, at, b.next, at + 4 + Size(b.body));
    assert code[at + 1] == InsAt(b, at, at + 1);
  }

  lemma {:induction false} SimulateLoop(vm: Machine, code: seq<Instruction>, b: Block, at: nat, f: Frame, rounds: nat)
    requires IsLoop(b) && Installed(code, b, at)
    ensures Agrees(vm, code, CondAt(b, at), at + Size(b), f, Loop(vm, b, f, rounds))
    decreases rounds, b, 2
  {
    if b.While? {
      WhileParts(code, b, at);
    } else {
      ForParts(code, b, at);
    }
    SimulateTest(vm, code, b, at, f, rounds);
  }

  lemma {:induction false} SimulateTest(vm: Machine, code: seq<Instruction>, b: Block, at: nat, f: Frame, rounds: nat)
    requires IsLoop(b) && Installed(code, b, at) && LoopInstalled(code, b, at)
    ensures Agrees(vm, code, CondAt(b, at), at + Size(b), f, Loop(vm, b, f, rounds))
    decreases rounds, b, 1
  {
    AgreesTest(vm, code, CondAt(b, at), LoopCond(b), ExitAt(b, at), f);
    if !vm.holds(LoopCond(b), f) {
      SimulatePart(vm, code, b, b.next, CondAt(b, at), ExitAt(b, at), f, rounds, Normal(f, 1));
    } else if rounds > 0 {
      SimulateBody(vm, code, b, at, f, rounds - 1);
    }
  }

  // A loop whose test holds: its body, and the rest of the rounds.
  lemma {:induction false} SimulateBody(vm: Machine, code: seq<Instruction>, b: Block, at: nat, f: Frame, rounds: nat)
    requires IsLoop(b) && Installed(code, b, at) && Installed(code, b.body, CondAt(b, at) + 1)
    requires Agrees(vm, code, CondAt(b, at), CondAt(b, at) + 1, f, Normal(f, 1))
    ensures var m := After(vm, Normal(f, 1), b.body, rounds);
      Agrees(vm, code, CondAt(b, at), at + Size(b), f, if m.Normal? then Charge(m.steps, Back(vm, b, m.frame, rounds)) else m)
    decreases rounds, b, 7
  {
    var c := CondAt(b, at);
    SimulatePart(vm, code, b, b.body, c, c + 1, f, rounds, Normal(f, 1));
    SimulateRound(vm, code, b, at, f, rounds, After(vm, Normal(f, 1), b.body, rounds));
  }

  // The rest of a loop once its first test and body agree with `first`.
  lemma {:induction false} SimulateRound(vm: Machine, code: seq<Instruction>, b: Block, at: nat, f: Frame,
                                         rounds: nat, first: Meaning)
    requires IsLoop(b) && Installed(code, b, at)
    requires Agrees(vm, code, CondAt(b, at), CondAt(b, at) + 1 + Size(b.body), f, first)
    ensures Agrees(vm, code, CondAt(b, at), at + Size(b), f,
              if first.Normal? then Charge(first.steps, Back(vm, b, first.frame, rounds)) else first)
    decreases rounds, b, 6
  {
    if first.Normal? {
      SimulateBack(vm, code, b, at, first.frame, rounds);
      AgreesThen(vm, code, CondAt(b, at), CondAt(b, at) + 1 + Size(b.body), at + Size(b), f,
                 first, Back(vm, b, first.frame, rounds));
    }
  }

  lemma {:induction false} SimulateBack(vm: Machine, code: seq<Instruction>, b: Block, at: nat, f: Frame, rounds: nat)
    requires IsLoop(b) && Installed(code, b, at)
    ensures Agrees(vm, code, CondAt(b, at) + 1 + Size(b.body), at + Size(b), f, Back(vm, b, f, rounds))
    decreases rounds, b, 5
  {
    InstalledIsAssembled(code, b, at);
    var hop := CondAt(b, at) + 1 + Size(b.body);
    if b.While? {
      SimulateAgain(vm, code, b, at, hop, f, rounds);
    } else {
      SimulateAdd(vm, code, b, at, hop, f, rounds);
    }
  }

  // The end of a round of a `for`: its step is added before the jump back.
  lemma {:induction false} SimulateAdd(vm: Machine, code: seq<Instruction>, b: Block, at: nat, hop: nat, f: Frame, rounds: nat)
    requires b.For? && Installed(code, b, at) && hop + 1 < |code|
    requires code[hop] == AddIns(b.variable, b.step) && code[hop + 1] == Jump(CondAt(b, at))
    ensures Agrees(vm, code, hop, at + Size(b), f, Back(vm, b, f, rounds))
    decreases rounds, b, 4
  {
    var r := vm.effect(AddIns(b.variable, b.step), f);
    AgreesEffect(vm, code, hop, AddIns(b.variable, b.step), f);
    if r.Next? {
      SimulateAgain(vm, code, b, at, hop + 1, r.frame, rounds);
      AgreesThen(vm, code, hop, hop + 1, at + Size(b), f, OneStep(r), Charge(1, Loop(vm, b, r.frame, rounds)));
    }
  }

  // The jump back to a loop's condition, and the rounds from there.
  lemma {:induction false} SimulateAgain(vm: Machine, code: seq<Instruction>, b: Block, at: nat, hop: nat, f: Frame, rounds: nat)
    requires IsLoop(b) && Installed(code, b, at) && hop < |code| && code[hop] == Jump(CondAt(b, at))
    ensures Agrees(vm, code, hop, at + Size(b), f, Charge(1, Loop(vm, b, f, rounds)))
    decreases rounds, b, 3
  {
    AgreesJump(vm, code, hop, CondAt(b, at), f);
    SimulateLoop(vm, code, b, at, f, rounds);
    AgreesThen(vm, code, hop, CondAt(b, at), at + Size(b), f, Normal(f, 1), Loop(vm, b, f, rounds));
  }

  ghost function Ending(vm: Machine, code: seq<Instruction>, d: Config, n: nat): Outcome {
    match d
    case At(q, g) => Run(vm, code, q, g, n)
    case Ended(g) => Finished(g, n)
    case Broken(e, g) => Faulted(e, g, n)
  }

  // The budgeted run follows the steps as far as its budget goes.
  lemma {:induction false} RunFollows(vm: Machine, code: seq<Instruction>, pc: nat, f: Frame, s: nat, d: Config, n: nat)
    requires Leads(vm, code, At(pc, f), s, d)
    ensures n < s ==> Run(vm, code, pc, f, n).Exhausted?
    ensures n >= s ==> Run(vm, code, pc, f, n) == Ending(vm, code, d, n - s)
    decreases s
  {
    if s > 0 && n > 0 {
      var next := Step(vm, code[pc], pc, f);
      if next.At? {
        RunFollows(vm, code, next.pc, next.frame, s - 1, d, n - 1);
      }
    }
  }

  lemma {:induction false} RunKeepsGoing(vm: Machine, code: seq<Instruction>, pc: nat, f: Frame, s: nat, n: nat)
    requires Going(vm, code, At(pc, f), s) && n <= s
    ensures Run(vm, code, pc, f, n).Exhausted?
    decreases s
  {
    if n > 0 {
      var next := Step(vm, code[pc], pc, f);
      RunKeepsGoing(vm, code, next.pc, next.frame, s - 1, n - 1);
    }
  }

  // ---------- rounds ----------

  // A block runs out of rounds only after charging for more instructions than it had rounds.
  lemma {:induction false} DivergedCost(vm: Machine, b: Block, f: Frame, rounds: nat)
    ensures var m := Eval(vm, b, f, rounds); m.Diverged? ==> m.steps > rounds
    decreases rounds, b, 1
  {
    match b
    case Done =>
    case Do(ins, next) =>
      var r := vm.effect(ins, f);
      if r.Next? { DivergedCost(vm, next, r.frame, rounds); }
    case If(c, thn, next) =>
      DivergedCost(vm, thn, f, rounds);
      var m := Eval(vm, thn, f, rounds);
      DivergedCost(vm, next, if vm.holds(c, f) && m.Normal? then m.frame else f, rounds);
    case IfElse(c, thn, els, next) =>
      var branch := if vm.holds(c, f) then thn else els;
      DivergedCost(vm, branch, f, rounds);
      var m := Eval(vm, branch, f, rounds);
      if m.Normal? { DivergedCost(vm, next, m.frame, rounds); }
    case While(_, _, _) => DivergedLoopCost(vm, b, f, rounds);
    case For(variable, start, _, _, _, _, _) =>
      var r := vm.effect(SetIns(variable, start), f);
      if r.Next? { DivergedLoopCost(vm, b, r.frame, rounds); }
  }

  lemma {:induction false} DivergedLoopCost(vm: Machine, b: Block, f: Frame, rounds: nat)
    requires IsLoop(b)
    ensures var m := Loop(vm, b, f, rounds); m.Diverged? ==> m.steps > rounds
    decreases rounds, b, 0
  {
    if !vm.holds(LoopCond(b), f) {
      DivergedCost(vm, b.next, f, rounds);
    } else if rounds > 0 {
      DivergedCost(vm, b.body, f, rounds - 1);
      var m := Eval(vm, b.body, f, rounds - 1);
      if m.Normal? {
        var r := if b.While? then Next(m.frame) else vm.effect(AddIns(b.variable, b.step), m.frame);
        if r.Next? { DivergedLoopCost(vm, b, r.frame, rounds - 1); }
      }
    }
  }

  // More rounds never change an answer.
  lemma {:induction false} MoreRounds(vm: Machine, b: Block, f: Frame, rounds: nat, more: nat)
    requires rounds <= more && !Eval(vm, b, f, rounds).Diverged?
    ensures Eval(vm, b, f, more) == Eval(vm, b, f, rounds)
    decreases rounds, b, 1
  {
    match b
    case Done =>
    case Do(ins, next) =>
      var r := vm.effect(ins, f);
      if !ins.opcode.OpStop? && r.Next? { MoreRounds(vm, next, r.frame, rounds, more); }
    case If(c, thn, next) =>
      if vm.holds(c, f) {
        MoreRounds(vm, thn, f, rounds, more);
        var m := Eval(vm, thn, f, rounds);
        if m.Normal? { MoreRounds(vm, next, m.frame, rounds, more); }
      } else {
        MoreRounds(vm, next, f, rounds, more);
      }
    case IfElse(c, thn, els, next) =>
      var branch := if vm.holds(c, f) then thn else els;
      MoreRounds(vm, branch, f, rounds, more);
      var m := Eval(vm, branch, f, rounds);
      if m.Normal? { MoreRounds(vm, next, m.frame, rounds, more); }
    case While(_, _, _) => MoreLoopRounds(vm, b, f, rounds, more);
    case For(variable, start, _, _, _, _, _) =>
      var r := vm.effect(SetIns(variable, start), f);
      if r.Next? { MoreLoopRounds(vm, b, r.frame, rounds, more); }
  }

  lemma {:induction false} MoreLoopRounds(vm: Machine, b: Block, f: Frame, rounds: nat, more: nat)
    requires IsLoop(b) && rounds <= more && !Loop(vm, b, f, rounds).Diverged?
    ensures Loop(vm, b, f, more) == Loop(vm, b, f, rounds)
    decreases rounds, b, 0
  {
    if !vm.holds(LoopCond(b), f) {
      MoreRounds(vm, b.next, f, rounds, more);
    } else {
      MoreRounds(vm, b.body, f, rounds - 1, more - 1);
      var m := Eval(vm, b.body, f, rounds - 1);
      if m.Normal? {
        var r := if b.While? then Next(m.frame) else vm.effect(AddIns(b.variable, b.step), m.frame);
        if r.Next? { MoreLoopRounds(vm, b, r.frame, rounds - 1, more - 1); }
      }
    }
  }

  // ---------- the compiler theorem ----------

  // What an observer with budget n sees of a structured program.
  function Observe(m: Meaning, n: nat): Option<Outcome> {
    if m.Diverged? || n < m.steps then None
    else
      match m
      case Normal(g, s) => Some(Finished(g, n - s))
      case Halted(g, s) => Some(Finished(g, n - s))
      case Failed(e, g, s) => Some(Faulted(e, g, n - s))
  }

  lemma RunAgrees(vm: Machine, code: seq<Instruction>, f: Frame, m: Meaning, n: nat)
    requires Agrees(vm, code, 0, |code|, f, m)
    ensures Observe(m, n).Some? ==> Run(vm, code, 0, f, n) == Observe(m, n).value
    ensures n < m.steps ==> Run(vm, code, 0, f, n).Exhausted?
  {
    match m
    case Normal(g, s) => RunFollows(vm, code, 0, f, s, At(|code|, g), n);
    case Halted(g, s) => RunFollows(vm, code, 0, f, s, Ended(g), n);
    case Failed(e, g, s) => RunFollows(vm, code, 0, f, s, Broken(e, g), n);
    case Diverged(s) => if n < s { RunKeepsGoing(vm, code, 0, f, s, n); }
  }

  // Compiled code means what its structured source means: for every budget n the machine exhausts
  // the budget exactly when the source has no answer within n instructions, and otherwise ends
  // with the same variables, logical state, actions, error and instruction count.
  lemma CompiledCodeMeansSource(vm: Machine, b: Block, f: Frame, n: nat)
    ensures var run, seen := Run(vm, Code(b), 0, f, n), Observe(Eval(vm, b, f, n), n);
            if seen.Some? then run == seen.value else run.Exhausted?
  {
    Simulate(vm, Code(b), b, 0, f, n);
    RunAgrees(vm, Code(b), f, Eval(vm, b, f, n), n);
    DivergedCost(vm, b, f, n);
  }

  // The machine finishes within some budget exactly when the structured program terminates.
  lemma TerminationPreserved(vm: Machine, b: Block, f: Frame)
    ensures (exists n: nat :: !Run(vm, Code(b), 0, f, n).Exhausted?)
            <==> (exists rounds: nat :: !Eval(vm, b, f, rounds).Diverged?)
  {
    if n: nat :| !Run(vm, Code(b), 0, f, n).Exhausted? {
      CompiledCodeMeansSource(vm, b, f, n);
      assert !Eval(vm, b, f, n).Diverged?;
    }
    if rounds: nat :| !Eval(vm, b, f, rounds).Diverged? {
      var m := Eval(vm, b, f, rounds);
      Simulate(vm, Code(b), b, 0, f, rounds);
      RunAgrees(vm, Code(b), f, m, m.steps);
      assert !Run(vm, Code(b), 0, f, m.steps).Exhausted?;
    }
  }
}
