// What delivering an event comes to, written out on the states it passes through: the event's own run,
// and for every change of logical state a state_exit and a state_entry run.

module ScriptDeliveries {
  import opened Basics
  import opened ScriptVm
  import opened VmCodec
  import opened ScriptEffects
  import opened ScriptLifecycle
  import opened ScriptRuntime

  // ---------- one change of logical state ----------

  // Running an event without payload, from a state and within limits.
  type Exec = (string, VmState, Limits) -> VmResult

  ghost function ExecOf(h: Host, program: seq<Handler>): Exec {
    (event: string, s: VmState, lim: Limits) => ExecEvent(h, program, event, s, lim, "")
  }

  // A run within what instructions and actions are left, that ends well.
  ghost predicate Continues(exec: Exec, lim: Limits, event: string, s: VmState, used: nat, requested: nat, run: VmResult) {
    && used < lim.instructionBudget
    && run == exec(event, s,
         Limits(lim.instructionBudget - used, lim.maxVariables, lim.maxStateBytes,
                if requested <= lim.maxOutputActions then lim.maxOutputActions - requested else 0))
    && run.ok && requested + |run.actions| <= lim.maxOutputActions
  }

  // Why such a run is not made, or does not end well.
  ghost function FailureOf(exec: Exec, lim: Limits, event: string, s: VmState, used: nat, requested: nat): string {
    if used >= lim.instructionBudget then "instruction-budget-exceeded"
    else
      var run := exec(event, s,
        Limits(lim.instructionBudget - used, lim.maxVariables, lim.maxStateBytes,
               if requested <= lim.maxOutputActions then lim.maxOutputActions - requested else 0));
      if run.ok then "action-budget-exceeded" else run.error
  }

  // Where an event has got to: the logical state it came from, the state it is in, and what it has used.
  datatype Point = Point(previous: string, state: VmState, used: nat, actions: seq<Action>)

  predicate Settled(p: Point) { p.state.state == p.previous }

  // The logical state was left: state_exit runs in the old one with the variables as they are, and
  // state_entry in the new one with the variables state_exit left.
  ghost predicate Both(exec: Exec, lim: Limits, p: Point, exit: VmResult, entry: VmResult) {
    && Continues(exec, lim, "state_exit", VmState(p.previous, p.state.variables), p.used, |p.actions|, exit)
    && Continues(exec, lim, "state_entry", VmState(p.state.state, exit.state.variables),
                 p.used + exit.instructionsExecuted, |p.actions| + |exit.actions|, entry)
  }

  // Where they lead.
  function Landing(p: Point, exit: VmResult, entry: VmResult): Point {
    Point(p.state.state, entry.state, p.used + exit.instructionsExecuted + entry.instructionsExecuted,
          p.actions + exit.actions + entry.actions)
  }

  ghost predicate Hops(exec: Exec, lim: Limits, p: Point, q: Point) {
    !Settled(p) && exists exit, entry :: Both(exec, lim, p, exit, entry) && q == Landing(p, exit, entry)
  }

  // Why a state that was left is not followed by another: its state_exit fails, or its state_entry.
  ghost predicate Stuck(exec: Exec, lim: Limits, p: Point, reason: string) {
    || ((forall exit :: !Continues(exec, lim, "state_exit", VmState(p.previous, p.state.variables), p.used, |p.actions|, exit)) &&
        reason == FailureOf(exec, lim, "state_exit", VmState(p.previous, p.state.variables), p.used, |p.actions|))
    || exists exit ::
         && Continues(exec, lim, "state_exit", VmState(p.previous, p.state.variables), p.used, |p.actions|, exit)
         && (forall entry :: !Both(exec, lim, p, exit, entry))
         && reason == FailureOf(exec, lim, "state_entry", VmState(p.state.state, exit.state.variables),
                                p.used + exit.instructionsExecuted, |p.actions| + |exit.actions|)
  }

  ghost function Hopping(exec: Exec, lim: Limits): (Point, Point) -> bool { (p: Point, q: Point) => Hops(exec, lim, p, q) }

  function PointOf(previous: string, total: VmResult): Point {
    Point(previous, total.state, total.instructionsExecuted, total.actions)
  }

  // A runner makes such runs, charged to the totals.
  ghost predicate Agree(run: Runner, exec: Exec, lim: Limits) {
    forall event: string, s: VmState, total: VmResult, r: VmResult :: AgreeAt(run, exec, lim, event, s, total, r)
  }

  ghost predicate AgreeAt(run: Runner, exec: Exec, lim: Limits, event: string, s: VmState, total: VmResult, r: VmResult) {
    && (run(event, s, total) == Ok(r) <==> Continues(exec, lim, event, s, total.instructionsExecuted, |total.actions|, r))
    && (run(event, s, total).Err? ==>
          run(event, s, total).error == FailureOf(exec, lim, event, s, total.instructionsExecuted, |total.actions|))
  }

  lemma LifecycleContinues(x: Session, event: string, s: VmState, total: VmResult, r: VmResult)
    ensures AgreeAt(RunnerOf(x), ExecOf(x.h, x.program), x.lim, event, s, total, r)
  {
    if total.instructionsExecuted < x.lim.instructionBudget {
      assert Remaining(x.lim, total) ==
        Limits(x.lim.instructionBudget - total.instructionsExecuted, x.lim.maxVariables, x.lim.maxStateBytes,
               if |total.actions| <= x.lim.maxOutputActions then x.lim.maxOutputActions - |total.actions| else 0);
    }
  }

  lemma RunnerAgrees(x: Session)
    ensures Agree(RunnerOf(x), ExecOf(x.h, x.program), x.lim)
  {
    forall event: string, s: VmState, total: VmResult, r: VmResult
      ensures AgreeAt(RunnerOf(x), ExecOf(x.h, x.program), x.lim, event, s, total, r)
    {
      LifecycleContinues(x, event, s, total, r);
    }
  }

  lemma TransitRuns(exec: Exec, lim: Limits, run: Runner, previous: string, total: VmResult, exit: VmResult, entry: VmResult)
    requires Agree(run, exec, lim)
    ensures Transit(run, previous, total) == Ok(Transition(previous, total.state.state, exit, entry)) <==>
      Both(exec, lim, PointOf(previous, total), exit, entry)
  {
    assert AgreeAt(run, exec, lim, "state_exit", VmState(previous, total.state.variables), total, exit);
    assert AgreeAt(run, exec, lim, "state_entry", VmState(total.state.state, exit.state.variables), Add(total, exit), entry);
  }

  lemma TransitNames(run: Runner, previous: string, total: VmResult)
    ensures var r := Transit(run, previous, total);
      r.Ok? ==> r == Ok(Transition(previous, total.state.state, r.value.exit, r.value.entry))
  {
  }

  lemma HopTransits(exec: Exec, lim: Limits, run: Runner, previous: string, total: VmResult, q: Point)
    requires Agree(run, exec, lim) && Hops(exec, lim, PointOf(previous, total), q)
    ensures MirrorsAt(run, previous, total, q)
  {
    var exit, entry :| Both(exec, lim, PointOf(previous, total), exit, entry) && q == Landing(PointOf(previous, total), exit, entry);
    TransitRuns(exec, lim, run, previous, total, exit, entry);
  }

  lemma TransitHops(exec: Exec, lim: Limits, run: Runner, previous: string, total: VmResult)
    requires Agree(run, exec, lim) && total.state.state != previous && Transit(run, previous, total).Ok?
    ensures Hops(exec, lim, PointOf(previous, total), PointOf(total.state.state, After(total, Transit(run, previous, total).value)))
  {
    var t := Transit(run, previous, total).value;
    TransitNames(run, previous, total);
    TransitRuns(exec, lim, run, previous, total, t.exit, t.entry);
  }

  lemma TransitFails(exec: Exec, lim: Limits, run: Runner, previous: string, total: VmResult)
    requires Agree(run, exec, lim) && Transit(run, previous, total).Err?
    ensures Stuck(exec, lim, PointOf(previous, total), Transit(run, previous, total).error)
  {
    var left := run("state_exit", VmState(previous, total.state.variables), total);
    if left.Err? {
      forall exit
        ensures !Continues(exec, lim, "state_exit", VmState(previous, total.state.variables),
                           total.instructionsExecuted, |total.actions|, exit)
      {
        assert AgreeAt(run, exec, lim, "state_exit", VmState(previous, total.state.variables), total, exit);
      }
      assert AgreeAt(run, exec, lim, "state_exit", VmState(previous, total.state.variables), total, total);
    } else {
      var exit, p := left.value, PointOf(previous, total);
      assert AgreeAt(run, exec, lim, "state_exit", VmState(previous, total.state.variables), total, exit);
      forall entry ensures !Both(exec, lim, p, exit, entry) {
        assert AgreeAt(run, exec, lim, "state_entry", VmState(total.state.state, exit.state.variables), Add(total, exit), entry);
      }
      assert AgreeAt(run, exec, lim, "state_entry", VmState(total.state.state, exit.state.variables), Add(total, exit), exit);
    }
  }

  // ---------- from change to change ----------

  // The steps between points are the transitions of the event machine.
  ghost predicate Mirrors(step: (Point, Point) -> bool, run: Runner) {
    forall previous: string, total: VmResult, q: Point {:trigger step(PointOf(previous, total), q)} ::
      step(PointOf(previous, total), q) <==> MirrorsAt(run, previous, total, q)
  }

  ghost predicate MirrorsAt(run: Runner, previous: string, total: VmResult, q: Point) {
    total.state.state != previous && Transit(run, previous, total).Ok? &&
    q == PointOf(total.state.state, After(total, Transit(run, previous, total).value))
  }

  lemma HoppingMirrors(exec: Exec, lim: Limits, run: Runner)
    requires Agree(run, exec, lim)
    ensures Mirrors(Hopping(exec, lim), run)
  {
    forall previous: string, total: VmResult, q: Point
      ensures Hopping(exec, lim)(PointOf(previous, total), q) <==> MirrorsAt(run, previous, total, q)
    {
      if Hops(exec, lim, PointOf(previous, total), q) {
        HopTransits(exec, lim, run, previous, total, q);
      }
      if MirrorsAt(run, previous, total, q) {
        TransitHops(exec, lim, run, previous, total);
      }
    }
  }

  lemma {:induction false} SettleSteps(step: (Point, Point) -> bool, run: Runner, previous: string, total: VmResult, k: nat)
    returns (n: nat)
    requires Mirrors(step, run) && k <= 8 && Settle(run, previous, total, k).Ok?
    ensures var final := Settle(run, previous, total, k).value;
      && n + k <= 8 && Path(step, PointOf(previous, total), PointOf(final.state.state, final), n)
      && final.ok == total.ok && final.error == total.error
    decreases 8 - k
  {
    if total.state.state == previous {
      n := 0;
    } else {
      var t := Transit(run, previous, total).value;
      var next := PointOf(total.state.state, After(total, t));
      TransitNames(run, previous, total);
      assert step(PointOf(previous, total), next);
      var rest := SettleSteps(step, run, total.state.state, After(total, t), k + 1);
      n := rest + 1;
    }
  }

  lemma {:induction false} StepsSettle(
    step: (Point, Point) -> bool, run: Runner, previous: string, total: VmResult, k: nat, n: nat, q: Point)
    requires Mirrors(step, run) && n + k <= 8 && Path(step, PointOf(previous, total), q, n)
    ensures Settled(q) ==> Settle(run, previous, total, k) == Ok(VmResult(total.ok, total.error, q.used, q.state, q.actions))
    ensures !Settled(q) && n + k == 8 ==> Settle(run, previous, total, k) == Err("state-transition-budget-exceeded")
    decreases n
  {
    if n > 0 {
      var u :| step(PointOf(previous, total), u) && Path(step, u, q, n - 1);
      assert MirrorsAt(run, previous, total, u);
      TransitNames(run, previous, total);
      StepsSettle(step, run, total.state.state, After(total, Transit(run, previous, total).value), k + 1, n - 1, q);
    }
  }

  lemma {:induction false} SettleStops(step: (Point, Point) -> bool, run: Runner, previous: string, total: VmResult, k: nat)
    returns (n: nat, last: string, at: VmResult)
    requires Mirrors(step, run) && k <= 8 && Settle(run, previous, total, k).Err?
    ensures n + k <= 8 && Path(step, PointOf(previous, total), PointOf(last, at), n) && at.state.state != last
    ensures n + k == 8 ==> Settle(run, previous, total, k) == Err("state-transition-budget-exceeded")
    ensures n + k < 8 ==> Transit(run, last, at) == Err(Settle(run, previous, total, k).error)
    decreases 8 - k
  {
    n, last, at := 0, previous, total;
    if k < 8 && Transit(run, previous, total).Ok? {
      var t := Transit(run, previous, total).value;
      var next := PointOf(total.state.state, After(total, t));
      TransitNames(run, previous, total);
      assert step(PointOf(previous, total), next);
      n, last, at := SettleStops(step, run, total.state.state, After(total, t), k + 1);
      n := n + 1;
    }
  }

  // ---------- the event ----------

  // The state a script's next event starts in.
  ghost predicate StartsIn(script: ScriptRecord, start: VmState) {
    if script.vmState == "" then start == VmState(script.state, map[]) else Decode(script.vmState) == Ok(start)
  }

  lemma OkSaysNothing(h: Host, program: seq<Handler>, event: string, s: VmState, lim: Limits, payload: string)
    ensures ExecEvent(h, program, event, s, lim, payload).ok ==> ExecEvent(h, program, event, s, lim, payload).error == ""
  {
  }

  // What is refused before anything runs, and in which order.
  lemma RefusedUnrun(h: Host, compile: Compiler, script: ScriptRecord, event: string, lim: Limits, payload: string)
    ensures !script.enabled ==> EventOutcome(h, compile, script, event, lim, payload) == Refused("script-disabled")
    ensures script.enabled && script.source == "" ==>
      EventOutcome(h, compile, script, event, lim, payload) == Refused("script-program-missing")
    ensures script.enabled && script.source != "" && compile(script.language, script.source).Err? ==>
      EventOutcome(h, compile, script, event, lim, payload) == Refused(compile(script.language, script.source).error)
    ensures script.enabled && script.source != "" && script.vmState != "" ==>
      match (compile(script.language, script.source), Decode(script.vmState))
      case (Ok(_), Err(reason)) => EventOutcome(h, compile, script, event, lim, payload) == Refused(reason)
      case _ => true
  {
  }

  // A script that can run.
  ghost predicate Ready(compile: Compiler, script: ScriptRecord, program: seq<Handler>, start: VmState) {
    script.enabled && script.source != "" && compile(script.language, script.source) == Ok(program) && StartsIn(script, start)
  }

  // An event whose own run fails shows what that run came to; no lifecycle run follows.
  lemma FaultyShown(
    h: Host, compile: Compiler, script: ScriptRecord, event: string, lim: Limits, payload: string,
    program: seq<Handler>, start: VmState)
    requires Ready(compile, script, program, start) && !ExecEvent(h, program, event, start, lim, payload).ok
    ensures EventOutcome(h, compile, script, event, lim, payload) == Faulty(ExecEvent(h, program, event, start, lim, payload))
  {
  }

  lemma OutcomeSettles(
    h: Host, compile: Compiler, script: ScriptRecord, event: string, lim: Limits, payload: string,
    program: seq<Handler>, start: VmState)
    requires Ready(compile, script, program, start) && ExecEvent(h, program, event, start, lim, payload).ok
    ensures EventOutcome(h, compile, script, event, lim, payload) ==
      DeliveryOf(Settle(RunnerOf(Session(h, program, lim)), start.state, ExecEvent(h, program, event, start, lim, payload), 0))
  {
  }

  // At most eight changes of logical state lead from p to a state that was not left again; `end` is that
  // state and everything used on the way.
  ghost predicate EndsIn(step: (Point, Point) -> bool, p: Point, end: VmResult, n: nat, q: Point) {
    n <= 8 && Path(step, p, q, n) && q.state.state == q.previous && end == VmResult(true, "", q.used, q.state, q.actions)
  }

  ghost predicate Ends(step: (Point, Point) -> bool, p: Point, end: VmResult) { exists n: nat, q: Point :: EndsIn(step, p, end, n, q) }

  // An event ends well exactly when the changes of logical state that follow its own run come to an end,
  // and then with that end.
  lemma DeliveredExactly(
    h: Host, compile: Compiler, script: ScriptRecord, event: string, lim: Limits, payload: string,
    program: seq<Handler>, start: VmState, end: VmResult)
    requires Ready(compile, script, program, start) && ExecEvent(h, program, event, start, lim, payload).ok
    ensures var first := ExecEvent(h, program, event, start, lim, payload);
      var p := Point(start.state, first.state, first.instructionsExecuted, first.actions);
      EventOutcome(h, compile, script, event, lim, payload) == Ran(end) <==> Ends(Hopping(ExecOf(h, program), lim), p, end)
  {
    var x, first := Session(h, program, lim), ExecEvent(h, program, event, start, lim, payload);
    OkSaysNothing(h, program, event, start, lim, payload);
    OutcomeSettles(h, compile, script, event, lim, payload, program, start);
    SettlesAt(x, start.state, first, end);
  }

  lemma SettlesAt(x: Session, previous: string, first: VmResult, end: VmResult)
    requires first.ok && first.error == ""
    ensures Settle(RunnerOf(x), previous, first, 0) == Ok(end) <==>
      Ends(Hopping(ExecOf(x.h, x.program), x.lim), PointOf(previous, first), end)
  {
    RunnerAgrees(x);
    HoppingMirrors(ExecOf(x.h, x.program), x.lim, RunnerOf(x));
    SettlesWhen(Hopping(ExecOf(x.h, x.program), x.lim), RunnerOf(x), previous, first, end);
  }

  lemma SettlesWhen(step: (Point, Point) -> bool, run: Runner, previous: string, first: VmResult, end: VmResult)
    requires Mirrors(step, run) && first.ok && first.error == ""
    ensures Settle(run, previous, first, 0) == Ok(end) <==>
      exists n: nat, q: Point :: EndsIn(step, PointOf(previous, first), end, n, q)
  {
    if Settle(run, previous, first, 0) == Ok(end) {
      var n := SettleSteps(step, run, previous, first, 0);
      assert EndsIn(step, PointOf(previous, first), end, n, PointOf(end.state.state, end));
    }
    forall n: nat, q: Point | EndsIn(step, PointOf(previous, first), end, n, q)
      ensures Settle(run, previous, first, 0) == Ok(end)
    {
      StepsSettle(step, run, previous, first, 0, n, q);
    }
  }

  // Otherwise it is refused: after eight changes, when the last of them left its state again; and before,
  // when a lifecycle run has no instruction left, fails, or asks for too much.
  ghost predicate Stops(exec: Exec, lim: Limits, p: Point, reason: string, n: nat, q: Point) {
    && n <= 8 && Path(Hopping(exec, lim), p, q, n) && q.state.state != q.previous
    && if n == 8 then reason == "state-transition-budget-exceeded" else Stuck(exec, lim, q, reason)
  }

  lemma RefusedExactly(
    h: Host, compile: Compiler, script: ScriptRecord, event: string, lim: Limits, payload: string,
    program: seq<Handler>, start: VmState)
    requires Ready(compile, script, program, start) && ExecEvent(h, program, event, start, lim, payload).ok
    requires !EventOutcome(h, compile, script, event, lim, payload).Ran?
    ensures var first := ExecEvent(h, program, event, start, lim, payload);
      var p := Point(start.state, first.state, first.instructionsExecuted, first.actions);
      exists reason, n: nat, q ::
        EventOutcome(h, compile, script, event, lim, payload) == Refused(reason) && Stops(ExecOf(h, program), lim, p, reason, n, q)
  {
    var x, first := Session(h, program, lim), ExecEvent(h, program, event, start, lim, payload);
    OutcomeSettles(h, compile, script, event, lim, payload, program, start);
    RunnerAgrees(x);
    var n, q := StopsWhen(ExecOf(h, program), lim, RunnerOf(x), start.state, first);
  }

  lemma StopsWhen(exec: Exec, lim: Limits, run: Runner, previous: string, first: VmResult) returns (n: nat, q: Point)
    requires Agree(run, exec, lim) && Settle(run, previous, first, 0).Err?
    ensures Stops(exec, lim, PointOf(previous, first), Settle(run, previous, first, 0).error, n, q)
  {
    HoppingMirrors(exec, lim, run);
    var last, at;
    n, last, at := SettleStops(Hopping(exec, lim), run, previous, first, 0);
    q := PointOf(last, at);
    if n < 8 {
      TransitFails(exec, lim, run, last, at);
    }
  }

  // ---------- scripts without lifecycle handlers ----------

  predicate NoneFor(program: seq<Handler>, event: string, state: string) {
    forall j :: 0 <= j < |program| ==> program[j].event != event || (program[j].state != state && program[j].state != "*")
  }

  lemma QuietRun(h: Host, program: seq<Handler>, lim: Limits, event: string, s: VmState, used: nat, requested: nat)
    requires NoneFor(program, event, s.state) && used < lim.instructionBudget && requested <= lim.maxOutputActions
    ensures Continues(ExecOf(h, program), lim, event, s, used, requested, VmResult(true, "", 0, s, []))
  {
    NoHandlerNothing(h, program, event, s,
      Limits(lim.instructionBudget - used, lim.maxVariables, lim.maxStateBytes, lim.maxOutputActions - requested), "");
  }

  lemma QuietHop(h: Host, program: seq<Handler>, lim: Limits, p: Point)
    requires !Settled(p) && p.used < lim.instructionBudget && |p.actions| <= lim.maxOutputActions
    requires NoneFor(program, "state_exit", p.previous) && NoneFor(program, "state_entry", p.state.state)
    ensures Hops(ExecOf(h, program), lim, p, Point(p.state.state, p.state, p.used, p.actions))
  {
    QuietRun(h, program, lim, "state_exit", VmState(p.previous, p.state.variables), p.used, |p.actions|);
    QuietRun(h, program, lim, "state_entry", VmState(p.state.state, p.state.variables), p.used, |p.actions|);
    var exit := VmResult(true, "", 0, VmState(p.previous, p.state.variables), []);
    var entry := VmResult(true, "", 0, VmState(p.state.state, p.state.variables), []);
    assert p.actions + exit.actions + entry.actions == p.actions;
    assert Both(ExecOf(h, program), lim, p, exit, entry);
  }

  // An event of a script that does not answer the changes of state it makes comes to what its own run
  // came to: the state with all its variables, the actions, and the count.
  lemma QuietDelivery(
    h: Host, compile: Compiler, script: ScriptRecord, event: string, lim: Limits, payload: string,
    program: seq<Handler>, start: VmState)
    requires Ready(compile, script, program, start) && ExecEvent(h, program, event, start, lim, payload).ok
    requires ExecEvent(h, program, event, start, lim, payload).instructionsExecuted < lim.instructionBudget
    requires NoneFor(program, "state_exit", start.state)
    requires NoneFor(program, "state_entry", ExecEvent(h, program, event, start, lim, payload).state.state)
    ensures EventOutcome(h, compile, script, event, lim, payload) == Ran(ExecEvent(h, program, event, start, lim, payload))
  {
    var first := ExecEvent(h, program, event, start, lim, payload);
    OkSaysNothing(h, program, event, start, lim, payload);
    ExecWithin(h, program, event, start, lim, payload);
    DeliveredExactly(h, compile, script, event, lim, payload, program, start, first);
    QuietEnd(h, program, lim, start.state, first);
  }

  lemma QuietEnd(h: Host, program: seq<Handler>, lim: Limits, previous: string, first: VmResult)
    requires first.ok && first.error == "" && first.instructionsExecuted < lim.instructionBudget
    requires |first.actions| <= lim.maxOutputActions
    requires NoneFor(program, "state_exit", previous) && NoneFor(program, "state_entry", first.state.state)
    ensures Ends(Hopping(ExecOf(h, program), lim), PointOf(previous, first), first)
  {
    var step, p := Hopping(ExecOf(h, program), lim), PointOf(previous, first);
    if Settled(p) {
      assert EndsIn(step, p, first, 0, p);
    } else {
      var q := Point(p.state.state, p.state, p.used, p.actions);
      QuietHop(h, program, lim, p);
      assert Path(step, q, q, 0) && step(p, q);
      assert EndsIn(step, p, first, 1, q);
    }
  }

  // An event that does not change the logical state ends as its own run, whatever handlers there are.
  lemma StayingDelivery(
    h: Host, compile: Compiler, script: ScriptRecord, event: string, lim: Limits, payload: string,
    program: seq<Handler>, start: VmState)
    requires Ready(compile, script, program, start) && ExecEvent(h, program, event, start, lim, payload).ok
    requires ExecEvent(h, program, event, start, lim, payload).state.state == start.state
    ensures EventOutcome(h, compile, script, event, lim, payload) == Ran(ExecEvent(h, program, event, start, lim, payload))
  {
    OutcomeSettles(h, compile, script, event, lim, payload, program, start);
  }

  // ---------- what is stored ----------

  // The record after an event: its state, its settings, and one more event counted.
  lemma DeliveredRecord(script: ScriptRecord, final: VmResult, encoded: string, now: int)
    ensures var r := Delivered(script, final, encoded, now);
      r == ScriptRecord(script.objectId, script.owner, script.language, script.source, encoded, final.state.state,
             script.enabled, r.timerIntervalMs, r.nextTimerMs, r.chatEnabled, r.chatChannel, script.eventCount + 1)
    ensures var r := Delivered(script, final, encoded, now);
      (forall a :: a in final.actions ==> a.kind != ActSetTimer && a.kind != ActListen) ==>
        && r.timerIntervalMs == script.timerIntervalMs && r.nextTimerMs == script.nextTimerMs
        && r.chatEnabled == script.chatEnabled && r.chatChannel == script.chatChannel
  {
    var stored := script.(state := final.state.state, vmState := encoded, eventCount := script.eventCount + 1);
    ActionsTouch(stored, final.actions, now);
    Untouched(stored, final.actions, now);
    if forall a :: a in final.actions ==> a.kind != ActSetTimer && a.kind != ActListen {
      FreeOf(final.actions, ActSetTimer);
      FreeOf(final.actions, ActListen);
    }
  }

  lemma {:induction false} FreeOf(actions: seq<Action>, kind: ActionType)
    requires forall a :: a in actions ==> a.kind != kind
    ensures Free(actions, kind)
    decreases |actions|
  {
    if actions != [] {
      FreeOf(actions[1..], kind);
    }
  }
}
