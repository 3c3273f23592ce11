// What the control flow of OGL means to a script's author: which instructions it compiles to, and how
// often a loop runs its body.

module OglLoops {
  import opened Basics
  import opened Text
  import opened ScriptVm
  import opened ScriptEffects
  import opened OglLanguage
  import opened OglCompiler

  // ---------- lines, blocks and instructions ----------

  // The shortest programs of each kind, line by line.
  lemma ShortPrograms(c: Cond, a: Command, b: Command, v: string, start: string, step: string, value: NonZero, finish: string)
    ensures Structure([CommandLine(a), CommandLine(b)]) == Ok(Do(a, Do(b, Done)))
    ensures Structure([IfLine(c), CommandLine(a), EndIfLine]) == Ok(If(c, Do(a, Done), Done))
    ensures Structure([IfLine(c), CommandLine(a), ElseLine, CommandLine(b), EndIfLine]) ==
      Ok(IfElse(c, Do(a, Done), Do(b, Done), Done))
    ensures Structure([WhileLine(c), CommandLine(a), EndWhileLine]) == Ok(While(c, Do(a, Done), Done))
    ensures Structure([ForLine(v, start, step, value, finish), CommandLine(a), EndForLine]) ==
      Ok(For(v, start, step, value, finish, Do(a, Done), Done))
  {
    assert Flatten(Do(b, Done)) == [CommandLine(b)] && Size(Do(b, Done)) == 1;
    WrittenAs([CommandLine(a), CommandLine(b)], Do(a, Do(b, Done)));
    WrittenAs([IfLine(c), CommandLine(a), EndIfLine], If(c, Do(a, Done), Done));
    WrittenAs([IfLine(c), CommandLine(a), ElseLine, CommandLine(b), EndIfLine], IfElse(c, Do(a, Done), Do(b, Done), Done));
    WrittenAs([WhileLine(c), CommandLine(a), EndWhileLine], While(c, Do(a, Done), Done));
    WrittenAs([ForLine(v, start, step, value, finish), CommandLine(a), EndForLine],
              For(v, start, step, value, finish, Do(a, Done), Done));
  }

  lemma WrittenAs(lines: seq<Line>, b: Block)
    requires lines == Flatten(b) && Size(b) <= 1024
    ensures Structure(lines) == Ok(b)
  {
    RoomWhenSmall(b, 0);
    StructureExact(lines, b);
  }

  // Lines that close nothing, close something else, or leave something open, and a loop that stands still.
  lemma MisplacedLines(c: Cond, v: string, start: string, step: string, value: NonZero, finish: string)
    ensures Structure([ElseLine]) == Err("ogl-unexpected-else") && Structure([EndIfLine]) == Err("ogl-unexpected-endif")
    ensures Structure([EndWhileLine]) == Err("ogl-unexpected-endwhile") && Structure([EndForLine]) == Err("ogl-unexpected-endfor")
    ensures Structure([WhileLine(c), EndIfLine]) == Err("ogl-unexpected-endif")
    ensures Structure([IfLine(c), EndWhileLine]) == Err("ogl-unexpected-endwhile")
    ensures Structure([IfLine(c), EndForLine]) == Err("ogl-unexpected-endfor")
    ensures Structure([IfLine(c)]) == Err("ogl-unclosed-control-flow") && Structure([WhileLine(c)]) == Err("ogl-unclosed-control-flow")
    ensures Structure([ForLine(v, start, step, value, finish)]) == Err("ogl-unclosed-control-flow")
    ensures Structure([ForLine(v, start, step, 0, finish)]) == Err("ogl-for-zero-step")
  {
    OpensThen(IfLine(c), []);
    OpensThen(WhileLine(c), []);
    OpensThen(ForLine(v, start, step, value, finish), []);
    OpensThen(WhileLine(c), [EndIfLine]);
    OpensThen(IfLine(c), [EndWhileLine]);
    OpensThen(IfLine(c), [EndForLine]);
    assert [IfLine(c)] + [] == [IfLine(c)] && [WhileLine(c)] + [] == [WhileLine(c)];
    assert [ForLine(v, start, step, value, finish)] + [] == [ForLine(v, start, step, value, finish)];
  }

  lemma OpensThen(line: Line, rest: seq<Line>)
    requires Read(Reading(Top, Done), line).Ok?
    ensures Structure([line] + rest) == ReadAll(Read(Reading(Top, Done), line).value, rest)
  {
    ReadOne(Reading(Top, Done), line, rest);
  }

  // The instructions of a conditional and of the loops, one by one.
  lemma ConditionalCode(b: Block)
    requires b.If? && b.next.Done?
    ensures var code := Code(b);
      |code| == Size(b.thn) + 1 && code[0] == Instruction(OpJumpIfFalse, b.c.left, b.c.op, b.c.right, |code|)
  {
    assert InsAt(b, 0, 0) == JFalse(b.c, Size(b));
  }

  lemma AlternativeCode(b: Block)
    requires b.IfElse? && b.next.Done?
    ensures var code, hop := Code(b), 1 + Size(b.thn);
      && |code| == Size(b.thn) + Size(b.els) + 2
      && code[0] == Instruction(OpJumpIfFalse, b.c.left, b.c.op, b.c.right, hop + 1)
      && code[hop] == Instruction(OpJump, "", "", "", |code|)
  {
    var hop := 1 + Size(b.thn);
    assert InsAt(b, 0, 0) == JFalse(b.c, hop + 1) && InsAt(b, 0, hop) == Jump(Size(b));
  }

  lemma WhileCode(b: Block)
    requires b.While? && b.next.Done?
    ensures var code := Code(b);
      && |code| == Size(b.body) + 2
      && code[0] == Instruction(OpJumpIfFalse, b.c.left, b.c.op, b.c.right, |code|)
      && code[|code| - 1] == Instruction(OpJump, "", "", "", 0)
  {
    assert InsAt(b, 0, 0) == JFalse(b.c, Size(b)) && InsAt(b, 0, Size(b) - 1) == Jump(0);
  }

  lemma ForCode(b: Block)
    requires b.For? && b.next.Done?
    ensures var code := Code(b);
      && |code| == Size(b.body) + 4
      && code[0] == Instruction(OpSet, b.variable, b.start, "", 0)
      && code[1] == Instruction(OpJumpIfFalse, "$" + b.variable, if b.stepValue > 0 then "<=" else ">=", b.finish, |code|)
      && code[|code| - 2] == Instruction(OpAdd, b.variable, b.step, "", 0)
      && code[|code| - 1] == Instruction(OpJump, "", "", "", 1)
  {
    ForParts4(b, Size(b.body));
  }

  lemma ForParts4(b: Block, n: nat)
    requires b.For? && b.next.Done? && n == Size(b.body)
    ensures Size(b) == n + 4
    ensures InsAt(b, 0, 0) == SetIns(b.variable, b.start) && InsAt(b, 0, 1) == JFalse(LoopCond(b), n + 4)
    ensures InsAt(b, 0, n + 2) == AddIns(b.variable, b.step) && InsAt(b, 0, n + 3) == Jump(1)
  {
  }

  // ---------- the test of a `for` ----------

  // Doubles hold integers up to this size exactly.
  const EXACT: int := 0x20_0000_0000_0000

  predicate Small(n: int) { -EXACT <= n <= EXACT }

  // The host reads decimal texts of such integers.
  ghost predicate ReadsDecimals(h: Host) { forall n: int :: Small(n) ==> h.number(IntText(n)) == Some(n as real) }

  // The variable holds a number.
  predicate Counts(s: VmState, v: string, n: int) { v in s.variables && s.variables[v] == IntText(n) }

  // A value of a counter within the bound of its loop.
  predicate InRange(i: int, step: int, last: int) { if step > 0 then i <= last else i >= last }

  // A `for` goes on exactly while its variable has not passed the last value.
  lemma TestMeans(h: Host, s: VmState, v: string, step: NonZero, finish: string, i: int, last: int)
    requires ReadsDecimals(h) && v != "" && Counts(s, v, i) && Resolve(finish, s) == IntText(last) && Small(i) && Small(last)
    ensures ConditionTrue(h, Cond("$" + v, if step > 0 then "<=" else ">=", finish), s) <==> InRange(i, step, last)
  {
    Resolving("", v, s);
    Comparing(h, "$" + v, finish, "<=", s);
    assert h.number(IntText(i)) == Some(i as real) && h.number(IntText(last)) == Some(last as real);
  }

  // How far a counter is from leaving its range.
  function Distance(i: int, step: NonZero, last: int): nat {
    if !InRange(i, step, last) then 0 else if step > 0 then last - i + 1 else i - last + 1
  }

  // How often a counter from i by steps is in range.
  function Rounds(i: int, step: NonZero, last: int): nat
    decreases Distance(i, step, last)
  {
    if InRange(i, step, last) then 1 + Rounds(i + step, step, last) else 0
  }

  // A counter after k steps.
  function CounterAfter(i: int, step: int, k: nat): int { if k == 0 then i else CounterAfter(i, step, k - 1) + step }

  lemma {:induction false} AfterIs(i: int, step: int, k: nat)
    ensures CounterAfter(i, step, k) == i + k * step
    decreases k
  {
    if k > 0 {
      AfterIs(i, step, k - 1);
    }
  }

  lemma {:induction false} AfterFirst(i: int, step: int, k: nat)
    requires k > 0
    ensures CounterAfter(i, step, k) == CounterAfter(i + step, step, k - 1)
    decreases k
  {
    if k > 1 {
      AfterFirst(i, step, k - 1);
    }
  }

  lemma {:induction false} Beyond(i: int, step: int, k: nat)
    ensures step > 0 ==> CounterAfter(i, step, k) >= i
    ensures step < 0 ==> CounterAfter(i, step, k) <= i
    decreases k
  {
    if k > 0 {
      Beyond(i, step, k - 1);
    }
  }

  // It is in range before the first so many steps, and not after them.
  lemma {:induction false} RoundsMean(i: int, step: NonZero, last: int, k: nat)
    ensures InRange(CounterAfter(i, step, k), step, last) <==> k < Rounds(i, step, last)
    decreases k
  {
    Beyond(i, step, k);
    if k > 0 {
      AfterFirst(i, step, k);
      RoundsMean(i + step, step, last, k - 1);
    }
  }

  // ---------- the rounds of a `for` ----------

  // One round: the test holds, the body comes to its end, and the step is added.
  ghost predicate Round(vm: Machine, b: Block, f: Frame, g: Frame, cost: nat, rounds: nat)
    requires b.For?
  {
    vm.holds(LoopCond(b), f) &&
    exists mid :: Eval(vm, b.body, f, rounds) == Normal(mid, cost) && vm.effect(AddIns(b.variable, b.step), mid) == Next(g)
  }

  lemma ChargeTwice(m: nat, n: nat, x: Meaning)
    ensures Charge(m, Charge(n, x)) == Charge(m + n, x)
  {
  }

  lemma RoundParts(vm: Machine, b: Block, f: Frame, g: Frame, cost: nat, rounds: nat) returns (mid: Frame)
    requires b.For? && Round(vm, b, f, g, cost, rounds)
    ensures Eval(vm, b.body, f, rounds) == Normal(mid, cost) && vm.effect(AddIns(b.variable, b.step), mid) == Next(g)
  {
    mid :| Eval(vm, b.body, f, rounds) == Normal(mid, cost) && vm.effect(AddIns(b.variable, b.step), mid) == Next(g);
  }

  lemma RoundOf(vm: Machine, b: Block, f: Frame, mid: Frame, g: Frame, cost: nat, more: nat)
    requires b.For? && vm.holds(LoopCond(b), f) && Eval(vm, b.body, f, more) == Normal(mid, cost)
    requires vm.effect(AddIns(b.variable, b.step), mid) == Next(g)
    ensures Loop(vm, b, f, more + 1) == Charge(cost + 3, Loop(vm, b, g, more))
  {
    assert Back(vm, b, mid, more) == Charge(2, Loop(vm, b, g, more));
    ChargeTwice(1 + cost, 2, Loop(vm, b, g, more));
  }

  lemma OneRound(vm: Machine, b: Block, f: Frame, g: Frame, cost: nat, rounds: nat, more: nat)
    requires b.For? && Round(vm, b, f, g, cost, rounds) && rounds <= more
    ensures Loop(vm, b, f, more + 1) == Charge(cost + 3, Loop(vm, b, g, more))
  {
    var mid := RoundParts(vm, b, f, g, cost, rounds);
    MoreRounds(vm, b.body, f, rounds, more);
    RoundOf(vm, b, f, mid, g, cost, more);
  }

  function Total(costs: seq<nat>): nat { if costs == [] then 0 else costs[0] + 3 + Total(costs[1..]) }

  // One after another, and then the test fails.
  ghost predicate Rounding(vm: Machine, b: Block, frames: seq<Frame>, costs: seq<nat>, rounds: nat)
    requires b.For?
  {
    && |frames| == |costs| + 1 && !vm.holds(LoopCond(b), frames[|costs|])
    && forall k :: 0 <= k < |costs| ==> Round(vm, b, frames[k], frames[k + 1], costs[k], rounds)
  }

  // Where the rounds lead: the first test to the last, and the script after it.
  ghost predicate Runs(vm: Machine, b: Block, frames: seq<Frame>, costs: seq<nat>, rounds: nat)
    requires IsLoop(b) && |frames| == |costs| + 1
  {
    Loop(vm, b, frames[0], rounds + |costs|) == Charge(Total(costs) + 1, Eval(vm, b.next, frames[|costs|], rounds))
  }

  lemma {:induction false} LoopRuns(vm: Machine, b: Block, frames: seq<Frame>, costs: seq<nat>, rounds: nat)
    requires b.For? && Rounding(vm, b, frames, costs, rounds)
    ensures Runs(vm, b, frames, costs, rounds)
    decreases |costs|
  {
    if costs != [] {
      RoundingNext(vm, b, frames, costs, rounds);
      LoopRuns(vm, b, frames[1..], costs[1..], rounds);
      RunsBefore(vm, b, frames, costs, rounds, rounds + |costs| - 1);
    }
  }

  lemma RunsBefore(vm: Machine, b: Block, frames: seq<Frame>, costs: seq<nat>, rounds: nat, more: nat)
    requires b.For? && |frames| == |costs| + 1 && costs != [] && more + 1 == rounds + |costs|
    requires Round(vm, b, frames[0], frames[1], costs[0], rounds) && Runs(vm, b, frames[1..], costs[1..], rounds)
    ensures Runs(vm, b, frames, costs, rounds)
  {
    assert frames[1..][0] == frames[1] && frames[1..][|costs| - 1] == frames[|costs|];
    OneRound(vm, b, frames[0], frames[1], costs[0], rounds, more);
    ChargeTwice(costs[0] + 3, Total(costs[1..]) + 1, Eval(vm, b.next, frames[|costs|], rounds));
  }

  lemma RoundingNext(vm: Machine, b: Block, frames: seq<Frame>, costs: seq<nat>, rounds: nat)
    requires b.For? && Rounding(vm, b, frames, costs, rounds) && costs != []
    ensures Rounding(vm, b, frames[1..], costs[1..], rounds)
    ensures Round(vm, b, frames[0], frames[1], costs[0], rounds)
  {
    forall k | 0 <= k < |costs| - 1 ensures Round(vm, b, frames[1..][k], frames[1..][k + 1], costs[1..][k], rounds) {
      assert Round(vm, b, frames[k + 1], frames[k + 2], costs[k + 1], rounds);
    }
  }

  // The body runs and leaves the counter alone; then the step is added.
  ghost predicate Turns(h: Host, lim: Limits, b: Block, f: Frame, g: Frame, cost: nat, rounds: nat)
    requires b.For?
  {
    exists mid ::
      && Eval(MachineOf(h, lim), b.body, f, rounds) == Normal(mid, cost)
      && Resolve("$" + b.variable, mid.state) == Resolve("$" + b.variable, f.state) && b.variable in mid.state.variables
      && Effect(h, lim, Instruction(OpAdd, b.variable, b.step, "", 0), mid) == Next(g)
  }

  ghost predicate TurnAt(h: Host, lim: Limits, b: Block, frames: seq<Frame>, costs: seq<nat>, rounds: nat, k: nat)
    requires b.For? && k < |costs| && |frames| == |costs| + 1
  {
    Turns(h, lim, b, frames[k], frames[k + 1], costs[k], rounds)
  }

  lemma TurnParts(h: Host, lim: Limits, b: Block, f: Frame, g: Frame, cost: nat, rounds: nat) returns (mid: Frame)
    requires b.For? && Turns(h, lim, b, f, g, cost, rounds)
    ensures Eval(MachineOf(h, lim), b.body, f, rounds) == Normal(mid, cost)
    ensures Resolve("$" + b.variable, mid.state) == Resolve("$" + b.variable, f.state) && b.variable in mid.state.variables
    ensures Effect(h, lim, Instruction(OpAdd, b.variable, b.step, "", 0), mid) == Next(g)
  {
    mid :| Eval(MachineOf(h, lim), b.body, f, rounds) == Normal(mid, cost)
      && Resolve("$" + b.variable, mid.state) == Resolve("$" + b.variable, f.state) && b.variable in mid.state.variables
      && Effect(h, lim, Instruction(OpAdd, b.variable, b.step, "", 0), mid) == Next(g);
  }

  // Then the counter has gone up by the step.
  lemma TurnCounts(h: Host, lim: Limits, b: Block, f: Frame, g: Frame, cost: nat, rounds: nat, i: int)
    requires b.For? && b.variable != "" && Integer(b.step) == Some(b.stepValue as int)
    requires Turns(h, lim, b, f, g, cost, rounds) && Counts(f.state, b.variable, i) && Small(i)
    ensures Counts(g.state, b.variable, i + b.stepValue)
  {
    var mid := TurnParts(h, lim, b, f, g, cost, rounds);
    Resolving("", b.variable, mid.state);
    Resolving("", b.variable, f.state);
    IntegerReads(i);
    AddOperates(h, lim, Instruction(OpAdd, b.variable, b.step, "", 0), mid, b.stepValue, i);
  }

  lemma TurnRounds(h: Host, lim: Limits, b: Block, f: Frame, g: Frame, cost: nat, rounds: nat)
    requires b.For? && Turns(h, lim, b, f, g, cost, rounds) && MachineOf(h, lim).holds(LoopCond(b), f)
    ensures Round(MachineOf(h, lim), b, f, g, cost, rounds)
  {
    var mid := TurnParts(h, lim, b, f, g, cost, rounds);
    assert MachineOf(h, lim).effect(AddIns(b.variable, b.step), mid) == Next(g);
  }

  // What is known of a loop and its host: decimals are read, the step is a number, and while the loop
  // runs the counter is small and the last value the same.
  ghost predicate Countable(h: Host, b: Block, frames: seq<Frame>, first: int, last: int) {
    && b.For? && ReadsDecimals(h) && b.variable != "" && Integer(b.step) == Some(b.stepValue as int) && Small(last)
    && forall k :: 0 <= k < |frames| ==> Small(CounterAfter(first, b.stepValue, k)) && Resolve(b.finish, frames[k].state) == IntText(last)
  }

  // The counter before a round.
  lemma {:induction false} CounterAt(
    h: Host, lim: Limits, b: Block, frames: seq<Frame>, costs: seq<nat>, rounds: nat, first: int, last: int, k: nat)
    requires Countable(h, b, frames, first, last) && k <= |costs| && |frames| == |costs| + 1
    requires forall j :: 0 <= j < |costs| ==> TurnAt(h, lim, b, frames, costs, rounds, j)
    requires Counts(frames[0].state, b.variable, first)
    ensures Counts(frames[k].state, b.variable, CounterAfter(first, b.stepValue, k))
    decreases k
  {
    if k > 0 {
      CounterAt(h, lim, b, frames, costs, rounds, first, last, k - 1);
      var before := CounterAfter(first, b.stepValue, k - 1);
      assert Small(before) && TurnAt(h, lim, b, frames, costs, rounds, k - 1);
      TurnCounts(h, lim, b, frames[k - 1], frames[k], costs[k - 1], rounds, before);
    }
  }

  // The loop's test, by the counter.
  lemma ForHolds(h: Host, lim: Limits, b: Block, f: Frame, i: int, last: int)
    requires b.For? && ReadsDecimals(h) && b.variable != "" && Small(i) && Small(last)
    requires Counts(f.state, b.variable, i) && Resolve(b.finish, f.state) == IntText(last)
    ensures MachineOf(h, lim).holds(LoopCond(b), f) <==> InRange(i, b.stepValue, last)
  {
    TestMeans(h, f.state, b.variable, b.stepValue, b.finish, i, last);
  }

  lemma HoldsAt(
    h: Host, lim: Limits, b: Block, frames: seq<Frame>, costs: seq<nat>, rounds: nat, first: int, last: int, k: nat)
    requires Countable(h, b, frames, first, last) && k <= |costs| && |frames| == |costs| + 1
    requires forall j :: 0 <= j < |costs| ==> TurnAt(h, lim, b, frames, costs, rounds, j)
    requires Counts(frames[0].state, b.variable, first)
    ensures MachineOf(h, lim).holds(LoopCond(b), frames[k]) <==> k < Rounds(first, b.stepValue, last)
  {
    CounterAt(h, lim, b, frames, costs, rounds, first, last, k);
    RoundsMean(first, b.stepValue, last, k);
    ForHolds(h, lim, b, frames[k], CounterAfter(first, b.stepValue, k), last);
  }

  // The body of a `for` runs once for every value of the counter that is in range, from the first by the
  // step, when it leaves the counter alone; then the script goes on.
  lemma ForRuns(
    h: Host, lim: Limits, b: Block, frames: seq<Frame>, costs: seq<nat>, rounds: nat, first: int, last: int)
    requires Countable(h, b, frames, first, last) && |frames| == |costs| + 1
    requires |costs| == Rounds(first, b.stepValue, last)
    requires forall k :: 0 <= k < |costs| ==> TurnAt(h, lim, b, frames, costs, rounds, k)
    requires Counts(frames[0].state, b.variable, first)
    ensures Runs(MachineOf(h, lim), b, frames, costs, rounds)
  {
    forall k | 0 <= k < |costs| ensures Round(MachineOf(h, lim), b, frames[k], frames[k + 1], costs[k], rounds) {
      HoldsAt(h, lim, b, frames, costs, rounds, first, last, k);
      assert TurnAt(h, lim, b, frames, costs, rounds, k);
      TurnRounds(h, lim, b, frames[k], frames[k + 1], costs[k], rounds);
    }
    HoldsAt(h, lim, b, frames, costs, rounds, first, last, |costs|);
    LoopRuns(MachineOf(h, lim), b, frames, costs, rounds);
  }

  // At its test, the compiled loop goes on to its body while the counter has not passed the last value,
  // and else to its end, whatever the body does.
  lemma AtTheTest(h: Host, lim: Limits, b: Block, f: Frame, i: int, last: int, n: nat)
    requires b.For? && b.next.Done? && ReadsDecimals(h) && b.variable != "" && Small(i) && Small(last) && n > 0
    requires Counts(f.state, b.variable, i) && Resolve(b.finish, f.state) == IntText(last)
    ensures var vm, code := MachineOf(h, lim), Code(b);
      Run(vm, code, 1, f, n) ==
        Run(vm, code, if (if b.stepValue > 0 then i <= last else i >= last) then 2 else |code|, f, n - 1)
  {
    ForCode(b);
    TestMeans(h, f.state, b.variable, b.stepValue, b.finish, i, last);
    JumpsMean(h, lim, Code(b), 1, f, n, "$" + b.variable, if b.stepValue > 0 then "<=" else ">=", b.finish, |Code(b)|);
  }

  // ---------- counting ----------

  function Counting(f: Frame, v: string, i: int): Frame {
    f.(state := f.state.(variables := f.state.variables[v := IntText(i)]))
  }

  // There is room for the counter at every value it takes, and the last value stays the same.
  ghost predicate RoomToCount(lim: Limits, b: Block, f: Frame, first: int, last: int, k: nat)
    requires b.For?
  {
    var i := CounterAfter(first, b.stepValue, k);
    Small(i) && Fits(lim, Counting(f, b.variable, i)) && Resolve(b.finish, Counting(f, b.variable, i).state) == IntText(last)
  }

  ghost predicate CanCount(h: Host, lim: Limits, b: Block, f: Frame, first: int, last: int) {
    && b.For? && b.body.Done? && b.next.Done? && ReadsDecimals(h) && b.variable != ""
    && Integer(b.step) == Some(b.stepValue as int) && Small(last)
    && Resolve(b.start, f.state) == IntText(first) && !NoRoom(lim, f.state, b.variable)
    && forall k :: 0 <= k <= Rounds(first, b.stepValue, last) ==> RoomToCount(lim, b, f, first, last, k)
  }

  lemma CountsOn(h: Host, lim: Limits, b: Block, f: Frame, first: int, last: int, k: nat)
    requires CanCount(h, lim, b, f, first, last) && k < Rounds(first, b.stepValue, last)
    ensures var i := CounterAfter(first, b.stepValue, k);
      Turns(h, lim, b, Counting(f, b.variable, i), Counting(f, b.variable, i + b.stepValue), 0, 0)
  {
    RoomAt(h, lim, b, f, first, last, k);
    RoomAt(h, lim, b, f, first, last, k + 1);
    TurnNow(h, lim, b, f, CounterAfter(first, b.stepValue, k));
  }

  lemma RoomAt(h: Host, lim: Limits, b: Block, f: Frame, first: int, last: int, k: nat)
    requires CanCount(h, lim, b, f, first, last) && k <= Rounds(first, b.stepValue, last)
    ensures var i := CounterAfter(first, b.stepValue, k); Small(i) && Fits(lim, Counting(f, b.variable, i))
  {
    assert RoomToCount(lim, b, f, first, last, k);
  }

  lemma TurnNow(h: Host, lim: Limits, b: Block, f: Frame, i: int)
    requires b.For? && b.body.Done? && Small(i) && Integer(b.step) == Some(b.stepValue as int)
    requires b.variable != "" && Fits(lim, Counting(f, b.variable, i + b.stepValue))
    ensures Turns(h, lim, b, Counting(f, b.variable, i), Counting(f, b.variable, i + b.stepValue), 0, 0)
  {
    StepCounts(h, lim, b, f, i);
    assert Eval(MachineOf(h, lim), b.body, Counting(f, b.variable, i), 0) == Normal(Counting(f, b.variable, i), 0);
  }

  lemma CountingTwice(f: Frame, v: string, i: int, j: int)
    ensures Counting(Counting(f, v, i), v, j) == Counting(f, v, j)
  {
  }

  lemma CountedNow(f: Frame, v: string, i: int)
    requires Small(i)
    ensures Counted(Counting(f, v, i).state, v) == Some(i)
  {
    IntegerReads(i);
  }

  lemma StepOperates(h: Host, lim: Limits, at: Frame, v: string, step: string, size: int, i: int)
    requires Integer(step) == Some(size) && Counted(at.state, v) == Some(i)
    ensures Operate(h, lim, Instruction(OpAdd, v, step, "", 0), at) == Next(Counting(at, v, i + size))
  {
    AddOperates(h, lim, Instruction(OpAdd, v, step, "", 0), at, size, i);
  }

  lemma StepCounts(h: Host, lim: Limits, b: Block, f: Frame, i: int)
    requires b.For? && Small(i) && Integer(b.step) == Some(b.stepValue as int)
    requires Fits(lim, Counting(f, b.variable, i + b.stepValue))
    ensures Effect(h, lim, Instruction(OpAdd, b.variable, b.step, "", 0), Counting(f, b.variable, i)) ==
      Next(Counting(f, b.variable, i + b.stepValue))
  {
    CountedNow(f, b.variable, i);
    StepOperates(h, lim, Counting(f, b.variable, i), b.variable, b.step, b.stepValue, i);
    CountingTwice(f, b.variable, i, i + b.stepValue);
    Limited(h, lim, Instruction(OpAdd, b.variable, b.step, "", 0), Counting(f, b.variable, i),
            Counting(f, b.variable, i + b.stepValue));
  }

  lemma StartsCounting(h: Host, lim: Limits, b: Block, f: Frame, first: int, last: int)
    requires CanCount(h, lim, b, f, first, last)
    ensures MachineOf(h, lim).effect(SetIns(b.variable, b.start), f) == Next(Counting(f, b.variable, first))
  {
    assert RoomToCount(lim, b, f, first, last, 0);
  }

  function Zeros(n: nat): (costs: seq<nat>)
    ensures |costs| == n && Total(costs) == 3 * n && forall j :: 0 <= j < n ==> costs[j] == 0
  {
    if n == 0 then [] else [0] + Zeros(n - 1)
  }

  // The frames before each test.
  function CountingFrames(b: Block, f: Frame, first: int, k: nat): (frames: seq<Frame>)
    requires b.For?
    ensures |frames| == k + 1
    ensures forall j :: 0 <= j <= k ==> frames[j] == Counting(f, b.variable, CounterAfter(first, b.stepValue, j))
  {
    seq(k + 1, j requires 0 <= j <= k => Counting(f, b.variable, CounterAfter(first, b.stepValue, j)))
  }

  lemma NextFrame(b: Block, f: Frame, first: int, k: nat, j: nat)
    requires b.For? && j < k
    ensures var frames, i := CountingFrames(b, f, first, k), CounterAfter(first, b.stepValue, j);
      frames[j] == Counting(f, b.variable, i) && frames[j + 1] == Counting(f, b.variable, i + b.stepValue)
  {
    assert CounterAfter(first, b.stepValue, j + 1) == CounterAfter(first, b.stepValue, j) + b.stepValue;
  }

  lemma CountingCountable(h: Host, lim: Limits, b: Block, f: Frame, first: int, last: int)
    requires CanCount(h, lim, b, f, first, last)
    ensures Countable(h, b, CountingFrames(b, f, first, Rounds(first, b.stepValue, last)), first, last)
  {
    var frames := CountingFrames(b, f, first, Rounds(first, b.stepValue, last));
    forall j | 0 <= j < |frames|
      ensures Small(CounterAfter(first, b.stepValue, j)) && Resolve(b.finish, frames[j].state) == IntText(last)
    {
      assert RoomToCount(lim, b, f, first, last, j);
    }
  }

  lemma CountingRuns(h: Host, lim: Limits, b: Block, f: Frame, first: int, last: int, frames: seq<Frame>, costs: seq<nat>)
    requires CanCount(h, lim, b, f, first, last) && |costs| == Rounds(first, b.stepValue, last)
    requires frames == CountingFrames(b, f, first, |costs|) && forall j :: 0 <= j < |costs| ==> costs[j] == 0
    ensures Runs(MachineOf(h, lim), b, frames, costs, 0)
  {
    forall j | 0 <= j < |costs| ensures TurnAt(h, lim, b, frames, costs, 0, j) {
      NextFrame(b, f, first, |costs|, j);
      CountsOn(h, lim, b, f, first, last, j);
    }
    CountingCountable(h, lim, b, f, first, last);
    ForRuns(h, lim, b, frames, costs, 0, first, last);
  }

  // The loop with nothing in its body counts: it runs as often as the counter is in range, and leaves it
  // at the first value that is not.
  lemma CountingMeans(h: Host, lim: Limits, b: Block, f: Frame, first: int, last: int)
    requires CanCount(h, lim, b, f, first, last)
    ensures var k := Rounds(first, b.stepValue, last);
      Eval(MachineOf(h, lim), b, f, k) == Normal(Counting(f, b.variable, CounterAfter(first, b.stepValue, k)), 3 * k + 2)
  {
    var k := Rounds(first, b.stepValue, last);
    var frames := CountingFrames(b, f, first, k);
    CountingRuns(h, lim, b, f, first, last, frames, Zeros(k));
    StartsCounting(h, lim, b, f, first, last);
    EndsCounting(MachineOf(h, lim), b, f, frames, Zeros(k), k);
  }

  lemma EndsCounting(vm: Machine, b: Block, f: Frame, frames: seq<Frame>, costs: seq<nat>, k: nat)
    requires b.For? && b.next.Done? && |frames| == k + 1 && |costs| == k && Runs(vm, b, frames, costs, 0)
    requires vm.effect(SetIns(b.variable, b.start), f) == Next(frames[0]) && Total(costs) == 3 * k
    ensures Eval(vm, b, f, k) == Normal(frames[k], 3 * k + 2)
  {
    assert Eval(vm, b.next, frames[k], 0) == Normal(frames[k], 0);
  }

  lemma RunsAsMeant(vm: Machine, b: Block, f: Frame, rounds: nat, n: nat, g: Frame, steps: nat)
    requires Eval(vm, b, f, rounds) == Normal(g, steps) && rounds <= n && steps <= n
    ensures Run(vm, Code(b), 0, f, n) == Finished(g, n - steps)
  {
    MoreRounds(vm, b, f, rounds, n);
    CompiledCodeMeansSource(vm, b, f, n);
  }

  // So does its compiled code, three instructions a round.
  lemma CompiledCounting(h: Host, lim: Limits, b: Block, f: Frame, first: int, last: int, n: nat)
    requires CanCount(h, lim, b, f, first, last) && n >= 3 * Rounds(first, b.stepValue, last) + 2
    ensures var k := Rounds(first, b.stepValue, last);
      Run(MachineOf(h, lim), Code(b), 0, f, n) ==
        Finished(Counting(f, b.variable, first + k * b.stepValue), n - 3 * k - 2)
  {
    var k := Rounds(first, b.stepValue, last);
    CountingMeans(h, lim, b, f, first, last);
    CountedOn(MachineOf(h, lim), b, f, first, k, n);
  }

  lemma CountedOn(vm: Machine, b: Block, f: Frame, first: int, k: nat, n: nat)
    requires b.For? && n >= 3 * k + 2
    requires Eval(vm, b, f, k) == Normal(Counting(f, b.variable, CounterAfter(first, b.stepValue, k)), 3 * k + 2)
    ensures Run(vm, Code(b), 0, f, n) == Finished(Counting(f, b.variable, first + k * b.stepValue), n - 3 * k - 2)
  {
    RunsAsMeant(vm, b, f, k, n, Counting(f, b.variable, CounterAfter(first, b.stepValue, k)), 3 * k + 2);
    AfterIs(first, b.stepValue, k);
  }
}
