// The script runtime: the table of scripts, event execution, and the rebinding of scripts to the
// entities an object receives in another region.

module ScriptRuntime {
  import opened Basics
  import opened ScriptVm
  import opened Text
  import opened VmCodec
  import opened ScriptLifecycle
  import opened WorldResults

  datatype ScriptRecord = ScriptRecord(
    objectId: string, owner: string, language: int, source: string, vmState: string, state: string, enabled: bool,
    timerIntervalMs: int, nextTimerMs: int, chatEnabled: bool, chatChannel: int, eventCount: nat)

  // Compiling a script's source in its language.
  type Compiler = (int, string) -> Result<seq<Handler>>

  // ---------- one event ----------

  function StartState(script: ScriptRecord): Result<VmState> {
    if script.vmState == "" then Ok(VmState(script.state, map[])) else Decode(script.vmState)
  }

  // An event that ran to its end, one whose own run failed and left a result to show, and one that was
  // refused or failed on a lifecycle run.
  datatype Delivery = Ran(result: VmResult) | Faulty(partial: VmResult) | Refused(reason: string)

  function Reason(d: Delivery): string {
    match d case Ran(_) => "" case Faulty(partial) => partial.error case Refused(reason) => reason
  }

  function DeliveryOf(r: Result<VmResult>): Delivery { match r case Ok(result) => Ran(result) case Err(e) => Refused(e) }

  // What delivering an event to a script comes to, before anything is stored.
  ghost function EventOutcome(
    h: Host, compile: Compiler, script: ScriptRecord, event: string, lim: Limits, payload: string): Delivery
  {
    if !script.enabled then Refused("script-disabled")
    else if script.source == "" then Refused("script-program-missing")
    else
      match (compile(script.language, script.source), StartState(script))
      case (Err(reason), _) => Refused(reason)
      case (Ok(_), Err(reason)) => Refused(reason)
      case (Ok(program), Ok(start)) =>
        var first := ExecEvent(h, program, event, start, lim, payload);
        if first.ok then DeliveryOf(Settle(RunnerOf(Session(h, program, lim)), start.state, first, 0)) else Faulty(first)
  }

  function Int32(n: int): (r: int)
    ensures -0x8000_0000 <= r < 0x8000_0000 && (r - n) % 0x1_0000_0000 == 0
  {
    (n + 0x8000_0000) % 0x1_0000_0000 - 0x8000_0000
  }

  function WithAction(script: ScriptRecord, action: Action, now: int): ScriptRecord {
    if action.kind == ActSetTimer then
      script.(timerIntervalMs := action.number, nextTimerMs := if action.number <= 0 then 0 else now + action.number)
    else if action.kind == ActListen then
      script.(chatEnabled := true, chatChannel := Int32(action.number))
    else script
  }

  function WithActions(script: ScriptRecord, actions: seq<Action>, now: int): ScriptRecord
    decreases |actions|
  {
    if actions == [] then script
    else WithActions(WithAction(script, actions[0], now), actions[1..], now)
  }

  // The record after an event that ended well.
  function Delivered(script: ScriptRecord, final: VmResult, encoded: string, now: int): ScriptRecord {
    WithActions(
      script.(state := final.state.state, vmState := encoded, eventCount := script.eventCount + 1), final.actions, now)
  }

  // Timer and listen settings are all that actions change in a record.
  lemma {:induction false} ActionsTouch(script: ScriptRecord, actions: seq<Action>, now: int)
    ensures var r := WithActions(script, actions, now);
      r == script.(timerIntervalMs := r.timerIntervalMs, nextTimerMs := r.nextTimerMs,
                   chatEnabled := r.chatEnabled, chatChannel := r.chatChannel)
    decreases |actions|
  {
    if actions != [] {
      ActionsTouch(WithAction(script, actions[0], now), actions[1..], now);
    }
  }

  predicate Free(actions: seq<Action>, kind: ActionType) {
    actions == [] || (actions[0].kind != kind && Free(actions[1..], kind))
  }

  lemma {:induction false} Untouched(script: ScriptRecord, actions: seq<Action>, now: int)
    ensures var r := WithActions(script, actions, now);
      && (Free(actions, ActSetTimer) ==> r.timerIntervalMs == script.timerIntervalMs && r.nextTimerMs == script.nextTimerMs)
      && (Free(actions, ActListen) ==> r.chatEnabled == script.chatEnabled && r.chatChannel == script.chatChannel)
    decreases |actions|
  {
    if actions != [] {
      Untouched(WithAction(script, actions[0], now), actions[1..], now);
    }
  }

  // The last timer action and the last listen action decide.
  lemma {:induction false} LastActionWins(
    script: ScriptRecord, before: seq<Action>, action: Action, after: seq<Action>, now: int)
    requires Free(after, action.kind)
    ensures var r := WithActions(script, before + [action] + after, now);
      && (action.kind == ActSetTimer ==> r.timerIntervalMs == action.number)
      && (action.kind == ActSetTimer ==> r.nextTimerMs == if action.number <= 0 then 0 else now + action.number)
      && (action.kind == ActListen ==> r.chatEnabled && r.chatChannel == Int32(action.number))
    decreases |before|
  {
    var all := before + [action] + after;
    if before == [] {
      assert all[1..] == after;
      Untouched(WithAction(script, action, now), after, now);
    } else {
      assert all[1..] == before[1..] + [action] + after;
      LastActionWins(WithAction(script, before[0], now), before[1..], action, after, now);
    }
  }

  // The next event starts in the state this one ended in, when its names are atoms.
  lemma NextEventResumes(script: ScriptRecord, final: VmResult, walk: seq<Entry>, now: int)
    requires Storable(final.state) && Walks(walk, final.state.variables)
    ensures var next := StartState(Delivered(script, final, Encoded(final.state, walk), now));
      if Named(final.state) then next == Ok(final.state)
      else Encoded(final.state, walk) != "" ==> next.Err?
  {
    ActionsTouch(script.(state := final.state.state, vmState := Encoded(final.state, walk),
                         eventCount := script.eventCount + 1), final.actions, now);
    RoundTrip(final.state, walk);
  }

  // ---------- answers to queries ----------

  // What an accepted answer leaves can be loaded again exactly when the state's own name, prefix.ready
  // and every accepted prefix.key is an atom; and it is then what was stored.
  lemma WorldResultLoads(script: ScriptRecord, prefix: string, result: string, text: string)
    requires Bytes(prefix) && Bytes(result) && (script.vmState == "" ==> Bytes(script.state))
    requires WithResult(StartState(script), prefix, result).Ok?
    requires Encodes(WithResult(StartState(script), prefix, result).value, text)
    ensures var next, state := StartState(script.(vmState := text)), WithResult(StartState(script), prefix, result).value;
      if VmAtom(state.state) && forall name :: name in Names(Lines(result), prefix) ==> VmAtom(name) then next == Ok(state)
      else next.Err?
  {
    var start, state := StartState(script).value, WithResult(StartState(script), prefix, result).value;
    if script.vmState != "" {
      DecodedNamed(script.vmState);
    }
    AbsorbNames(Lines(result), 0, prefix, start.variables);
    ResultStorable(start, prefix, result);
    var walk :| Walks(walk, state.variables) && text == Encoded(state, walk);
    RoundTrip(state, walk);
    EncodedSome(state, walk, prefix + ".ready");
  }

  // A script names its query by an atom of at most 64 characters, and a World node of this repository
  // names its fields by short atoms: such an answer never makes a state unreadable.
  lemma OwnResultsLoad(script: ScriptRecord, prefix: string, result: string, text: string)
    requires VmAtom(prefix) && |prefix| <= 64 && Bytes(result) && (script.vmState == "" ==> VmAtom(script.state))
    requires forall key :: key in FieldNames(Lines(result)) ==> VmAtom(key) && |key| <= 63
    requires WithResult(StartState(script), prefix, result).Ok?
    requires Encodes(WithResult(StartState(script), prefix, result).value, text)
    ensures StartState(script.(vmState := text)) == WithResult(StartState(script), prefix, result)
  {
    if script.vmState != "" {
      DecodedNamed(script.vmState);
    }
    AtomBytes(prefix);
    AtomBytes(StartState(script).value.state);
    AtomNames(Lines(result), prefix);
    WorldResultLoads(script, prefix, result, text);
  }

  // A field named with a space is accepted, and makes the script's state unreadable: an input that only
  // a node running other software would send.
  lemma SpacedFieldBreaks(script: ScriptRecord, text: string)
    requires script.vmState == "" && script.state == "default"
    ensures var outcome := WithResult(StartState(script), "q", "a b=1");
      outcome.Ok? && (Encodes(outcome.value, text) ==>
        |text| <= MAX_STATE_TEXT && StartState(script.(vmState := text)).Err?)
  {
    var state := VmState("default", map["q.a b" := "1", "q.ready" := "1"]);
    SpacedResult();
    assert WithResult(StartState(script), "q", "a b=1") == Ok(state);
    SpacedNoAtom();
    SpacedBytes();
    ShortBroken(script, state, "q", "a b=1", text, "q.a b", "q.ready");
  }

  lemma ShortBroken(
    script: ScriptRecord, state: VmState, prefix: string, result: string, text: string, name: string, ready: string)
    requires Bytes(prefix) && Bytes(result) && script.vmState == "" && Bytes(script.state)
    requires WithResult(StartState(script), prefix, result) == Ok(state)
    requires |state.state| <= 10 && |name| <= 10 && |ready| <= 10
    requires forall k :: k in state.variables ==> (k == name || k == ready) && |state.variables[k]| <= 10
    requires name in Names(Lines(result), prefix) && !VmAtom(name)
    ensures Encodes(state, text) ==> |text| <= MAX_STATE_TEXT && StartState(script.(vmState := text)).Err?
  {
    if Encodes(state, text) {
      ShortText(state, text, name, ready);
      BrokenBy(script, prefix, result, text, name);
    }
  }

  lemma BrokenBy(script: ScriptRecord, prefix: string, result: string, text: string, name: string)
    requires Bytes(prefix) && Bytes(result) && script.vmState == "" && Bytes(script.state)
    requires WithResult(StartState(script), prefix, result).Ok?
    requires Encodes(WithResult(StartState(script), prefix, result).value, text)
    requires name in Names(Lines(result), prefix) && !VmAtom(name)
    ensures StartState(script.(vmState := text)).Err?
  {
    WorldResultLoads(script, prefix, result, text);
  }

  method ResultText(script: ScriptRecord, prefix: string, result: string) returns (r: Result<string>)
    ensures Stores(WithResult(StartState(script), prefix, result), r)
  {
    var start := Ok(VmState(script.state, map[]));
    if script.vmState != "" {
      start := DeserializeVmState(script.vmState);
    }
    if start.Err? {
      return Err(start.error);
    }
    r := ExtendedText(start.value, prefix, result);
  }

  // ---------- rebinding to another region's entities ----------

  // The text that names an entity of a region in a script record.
  function Bound(region: string, entity: nat): string { region + "/" + NatText(entity) }

  datatype Binding = Binding(source: string, destination: string)

  predicate Clash(bindings: seq<Binding>, b: Binding) {
    exists i :: 0 <= i < |bindings| && (bindings[i].source == b.source || bindings[i].destination == b.destination)
  }

  function BindingsOf(source: string, destination: string, pairs: seq<(nat, nat)>): (r: Result<seq<Binding>>)
    ensures r.Err? ==> r.error != ""
    decreases |pairs|
  {
    if pairs == [] then Ok([])
    else
      match BindingsOf(source, destination, pairs[..|pairs| - 1])
      case Err(e) => Err(e)
      case Ok(bindings) =>
        var (from, to) := pairs[|pairs| - 1];
        if from == 0 || to == 0 then Err("invalid-script-rebind-entity")
        else
          var b := Binding(Bound(source, from), Bound(destination, to));
          if Clash(bindings, b) then Err("duplicate-script-rebind-entity") else Ok(bindings + [b])
  }

  lemma {:induction false} ErrorStays(source: string, destination: string, pairs: seq<(nat, nat)>, i: nat)
    requires i <= |pairs| && BindingsOf(source, destination, pairs[..i]).Err?
    ensures BindingsOf(source, destination, pairs) == BindingsOf(source, destination, pairs[..i])
    decreases |pairs|
  {
    if i < |pairs| {
      assert pairs[..|pairs| - 1][..i] == pairs[..i];
      ErrorStays(source, destination, pairs[..|pairs| - 1], i);
    } else {
      assert pairs[..i] == pairs;
    }
  }

  lemma {:induction false} NoSlashIn(n: nat)
    ensures '/' !in NatText(n)
  {
    if n >= 10 {
      NoSlashIn(n / 10);
    }
  }

  lemma LastSlash(region: string, digits: string)
    requires '/' !in digits
    ensures var text := region + "/" + digits; text[|region|] == '/' && forall i :: |region| < i < |text| ==> text[i] != '/'
  {
    var text := region + "/" + digits;
    forall i | |region| < i < |text| ensures text[i] != '/' {
      assert text[i] == digits[i - |region| - 1];
    }
  }

  // The region, a slash, and the entity's number.
  lemma BoundAsWritten()
    ensures Bound("harbour", 7) == "harbour/7" && Bound("a/b", 42) == "a/b/42"
  {
    assert NatText(42) == NatText(4) + "2";
  }

  // A binding text names one region and one entity, whatever the region is called.
  lemma BoundInjective(r: string, n: nat, q: string, m: nat)
    requires Bound(r, n) == Bound(q, m)
    ensures r == q && n == m
  {
    var text := Bound(r, n);
    NoSlashIn(n);
    NoSlashIn(m);
    LastSlash(r, NatText(n));
    LastSlash(q, NatText(m));
    assert text[..|r|] == r && text[..|q|] == q;
    assert text[|r| + 1..] == NatText(n) && text[|q| + 1..] == NatText(m);
    DigitsOfNatText(n);
    DigitsOfNatText(m);
  }

  // Entities are named, and no two pairs share a source or a destination.
  ghost predicate OneToOne(pairs: seq<(nat, nat)>) {
    && (forall i :: 0 <= i < |pairs| ==> pairs[i].0 != 0 && pairs[i].1 != 0)
    && forall i, j :: 0 <= i < j < |pairs| ==> pairs[i].0 != pairs[j].0 && pairs[i].1 != pairs[j].1
  }

  lemma BoundUnequal(r: string, n: nat, m: nat)
    requires n != m
    ensures Bound(r, n) != Bound(r, m)
  {
    if Bound(r, n) == Bound(r, m) {
      BoundInjective(r, n, r, m);
    }
  }

  // The map is accepted exactly when it is one-to-one, and then gives one binding for each pair.
  lemma {:induction false} BindingsExact(source: string, destination: string, pairs: seq<(nat, nat)>)
    ensures BindingsOf(source, destination, pairs).Ok? <==> OneToOne(pairs)
    ensures var r := BindingsOf(source, destination, pairs);
      r.Ok? ==> |r.value| == |pairs| && forall i :: 0 <= i < |pairs| ==>
        r.value[i] == Binding(Bound(source, pairs[i].0), Bound(destination, pairs[i].1))
    decreases |pairs|
  {
    if pairs != [] {
      var n := |pairs| - 1;
      var before := pairs[..n];
      BindingsExact(source, destination, before);
      if BindingsOf(source, destination, before).Ok? {
        forall i | 0 <= i < n ensures
          && (Bound(source, before[i].0) == Bound(source, pairs[n].0) <==> pairs[i].0 == pairs[n].0)
          && (Bound(destination, before[i].1) == Bound(destination, pairs[n].1) <==> pairs[i].1 == pairs[n].1)
        {
          if pairs[i].0 != pairs[n].0 { BoundUnequal(source, pairs[i].0, pairs[n].0); }
          if pairs[i].1 != pairs[n].1 { BoundUnequal(destination, pairs[i].1, pairs[n].1); }
        }
        OneToOneSnoc(pairs);
      } else {
        OneToOneSnoc(pairs);
      }
    }
  }

  lemma OneToOneSnoc(pairs: seq<(nat, nat)>)
    requires pairs != []
    ensures var n := |pairs| - 1; OneToOne(pairs) <==>
      && OneToOne(pairs[..n]) && pairs[n].0 != 0 && pairs[n].1 != 0
      && forall i :: 0 <= i < n ==> pairs[i].0 != pairs[n].0 && pairs[i].1 != pairs[n].1
  {
    var n := |pairs| - 1;
    assert forall i :: 0 <= i < n ==> pairs[..n][i] == pairs[i];
    if OneToOne(pairs[..n]) {
      assert forall i, j :: 0 <= i < j < n ==> pairs[..n][i].0 != pairs[..n][j].0 && pairs[..n][i].1 != pairs[..n][j].1;
    }
  }

  predicate ValidRegions(source: string, destination: string, owner: string, pairs: seq<(nat, nat)>) {
    && SafeField(source, 256) && SafeField(destination, 256) && source != destination
    && 0 < |owner| <= 256 && 0 < |pairs| <= 64
  }

  function SourceIndex(bindings: seq<Binding>, entity: string): (i: nat)
    ensures i <= |bindings| && (i < |bindings| ==> bindings[i].source == entity)
    ensures forall j :: 0 <= j < i ==> bindings[j].source != entity
  {
    if bindings == [] || bindings[0].source == entity then 0 else 1 + SourceIndex(bindings[1..], entity)
  }

  function DestinationIndex(bindings: seq<Binding>, entity: string): (i: nat)
    ensures i <= |bindings| && (i < |bindings| ==> bindings[i].destination == entity)
    ensures forall j :: 0 <= j < i ==> bindings[j].destination != entity
  {
    if bindings == [] || bindings[0].destination == entity then 0 else 1 + DestinationIndex(bindings[1..], entity)
  }

  // The record is bound to one pair's source and to another pair's destination.
  predicate Ambiguous(script: ScriptRecord, bindings: seq<Binding>, owner: string) {
    var from, to := SourceIndex(bindings, script.objectId), DestinationIndex(bindings, script.objectId);
    script.owner == owner && from < |bindings| && to < |bindings| && from != to
  }

  function Moved(script: ScriptRecord, bindings: seq<Binding>, owner: string): ScriptRecord {
    var i := SourceIndex(bindings, script.objectId);
    if script.owner == owner && i < |bindings| then script.(objectId := bindings[i].destination) else script
  }

  function Rebound(scripts: map<string, ScriptRecord>, bindings: seq<Binding>, owner: string): map<string, ScriptRecord> {
    map id | id in scripts :: Moved(scripts[id], bindings, owner)
  }

  ghost function RebindOutcome(
    scripts: map<string, ScriptRecord>, source: string, destination: string, pairs: seq<(nat, nat)>, owner: string)
    : (r: Result<map<string, ScriptRecord>>)
    ensures r.Err? ==> r.error != ""
  {
    if !ValidRegions(source, destination, owner, pairs) then Err("invalid-script-rebind")
    else
      match BindingsOf(source, destination, pairs)
      case Err(e) => Err(e)
      case Ok(bindings) =>
        if exists id :: id in scripts && Ambiguous(scripts[id], bindings, owner) then Err("ambiguous-script-rebind")
        else Ok(Rebound(scripts, bindings, owner))
  }

  // Bindings of two regions: sources are of one, destinations of the other, each named once.
  ghost predicate Separate(bindings: seq<Binding>) {
    && (forall i, j :: 0 <= i < |bindings| && 0 <= j < |bindings| ==> bindings[i].source != bindings[j].destination)
    && forall i, j :: 0 <= i < j < |bindings| ==> bindings[i].source != bindings[j].source
  }

  lemma BindingsSeparate(source: string, destination: string, pairs: seq<(nat, nat)>)
    requires source != destination && OneToOne(pairs)
    ensures BindingsOf(source, destination, pairs).Ok? && Separate(BindingsOf(source, destination, pairs).value)
  {
    BindingsExact(source, destination, pairs);
    var bindings := BindingsOf(source, destination, pairs).value;
    forall i, j | 0 <= i < |bindings| && 0 <= j < |bindings| ensures bindings[i].source != bindings[j].destination {
      if bindings[i].source == bindings[j].destination {
        BoundInjective(source, pairs[i].0, destination, pairs[j].1);
      }
    }
    forall i, j | 0 <= i < j < |bindings| ensures bindings[i].source != bindings[j].source {
      BoundUnequal(source, pairs[i].0, pairs[j].0);
    }
  }

  // Rebinding succeeds exactly on valid, one-to-one maps: the ambiguity error never occurs.
  lemma RebindAccepts(
    scripts: map<string, ScriptRecord>, source: string, destination: string, pairs: seq<(nat, nat)>, owner: string)
    ensures RebindOutcome(scripts, source, destination, pairs, owner).Ok? <==>
      && SafeField(source, 256) && SafeField(destination, 256) && source != destination
      && owner != "" && |owner| <= 256 && 1 <= |pairs| <= 64 && OneToOne(pairs)
  {
    BindingsExact(source, destination, pairs);
    if ValidRegions(source, destination, owner, pairs) && OneToOne(pairs) {
      BindingsSeparate(source, destination, pairs);
    }
  }

  // Which scripts move, and where: the owner's scripts on a mapped source entity, to the entity it is
  // mapped to. Everything else about every script stays.
  lemma RebindMoves(
    scripts: map<string, ScriptRecord>, source: string, destination: string, pairs: seq<(nat, nat)>, owner: string,
    id: string)
    requires ValidRegions(source, destination, owner, pairs) && OneToOne(pairs) && id in scripts
    ensures RebindOutcome(scripts, source, destination, pairs, owner).Ok?
    ensures var after := RebindOutcome(scripts, source, destination, pairs, owner).value; var script := scripts[id];
      && after.Keys == scripts.Keys && after[id] == script.(objectId := after[id].objectId)
      && (script.owner != owner ==> after[id] == script)
      && (forall i :: 0 <= i < |pairs| && script.owner == owner && script.objectId == Bound(source, pairs[i].0) ==>
            after[id].objectId == Bound(destination, pairs[i].1))
      && ((forall i :: 0 <= i < |pairs| ==> script.objectId != Bound(source, pairs[i].0)) ==> after[id] == script)
  {
    RebindAccepts(scripts, source, destination, pairs, owner);
    BindingsExact(source, destination, pairs);
    BindingsSeparate(source, destination, pairs);
    var bindings := BindingsOf(source, destination, pairs).value;
    var at := SourceIndex(bindings, scripts[id].objectId);
    forall i | 0 <= i < |pairs| && scripts[id].objectId == Bound(source, pairs[i].0) ensures i == at {
      assert bindings[i].source == scripts[id].objectId;
    }
  }

  lemma MovedTwice(script: ScriptRecord, bindings: seq<Binding>, owner: string)
    requires Separate(bindings)
    ensures Moved(Moved(script, bindings, owner), bindings, owner) == Moved(script, bindings, owner)
    ensures !Ambiguous(script, bindings, owner)
  {
    var i := SourceIndex(bindings, script.objectId);
    if i < |bindings| {
      assert SourceIndex(bindings, bindings[i].destination) == |bindings|;
    }
  }

  // A retry after success changes nothing.
  lemma RebindIdempotent(
    scripts: map<string, ScriptRecord>, source: string, destination: string, pairs: seq<(nat, nat)>, owner: string)
    requires RebindOutcome(scripts, source, destination, pairs, owner).Ok?
    ensures var after := RebindOutcome(scripts, source, destination, pairs, owner).value;
      RebindOutcome(after, source, destination, pairs, owner) == Ok(after)
  {
    RebindAccepts(scripts, source, destination, pairs, owner);
    BindingsSeparate(source, destination, pairs);
    var bindings := BindingsOf(source, destination, pairs).value;
    var after := Rebound(scripts, bindings, owner);
    RebindAccepts(after, source, destination, pairs, owner);
    forall id | id in scripts ensures Moved(after[id], bindings, owner) == after[id] {
      MovedTwice(scripts[id], bindings, owner);
    }
    assert Rebound(after, bindings, owner) == after;
  }

  // ---------- lifecycle runs as the runtime makes them ----------

  ghost predicate Runs(run: Runner, x: Session) {
    forall event: string, s: VmState, total: VmResult {:trigger LifecycleRun(x, event, s, total)} ::
      run(event, s, total) == LifecycleRun(x, event, s, total)
  }

  method RunLifecycle(x: Session, event: string, s: VmState, total: VmResult) returns (r: Result<VmResult>)
    ensures r == LifecycleRun(x, event, s, total)
  {
    if total.instructionsExecuted >= x.lim.instructionBudget {
      return Err("instruction-budget-exceeded");
    }
    var run := ExecuteScriptEvent(x.h, x.program, event, s, Remaining(x.lim, total), "");
    if !run.ok {
      return Err(run.error);
    }
    if |total.actions| + |run.actions| > x.lim.maxOutputActions {
      return Err("action-budget-exceeded");
    }
    r := Ok(run);
  }

  method RunTransition(x: Session, previous: string, total: VmResult, ghost run: Runner) returns (r: Result<Transition>)
    requires Runs(run, x)
    ensures r == Transit(run, previous, total)
  {
    var target := total.state.state;
    var exit := RunLifecycle(x, "state_exit", total.state.(state := previous), total);
    if exit.Err? {
      return Err(exit.error);
    }
    var entry := RunLifecycle(x, "state_entry", exit.value.state.(state := target), Add(total, exit.value));
    r := if entry.Ok? then Ok(Transition(previous, target, exit.value, entry.value)) else Err(entry.error);
  }

  method RunTransitions(x: Session, original: string, first: VmResult, ghost run: Runner) returns (r: Result<VmResult>)
    requires Runs(run, x)
    ensures r == Settle(run, original, first, 0)
  {
    var total := first;
    var previous := original;
    var transitions: nat := 0;
    while total.state.state != previous
      invariant transitions <= MAX_TRANSITIONS
      invariant Settle(run, original, first, 0) == Settle(run, previous, total, transitions)
      decreases MAX_TRANSITIONS - transitions
    {
      if transitions + 1 > MAX_TRANSITIONS {
        return Err("state-transition-budget-exceeded");
      }
      var step := RunTransition(x, previous, total, run);
      if step.Err? {
        return Err(step.error);
      }
      previous := step.value.to;
      total := After(total, step.value);
      transitions := transitions + 1;
    }
    r := Ok(total);
  }

  class ScriptRuntime {
    var scripts: map<string, ScriptRecord>

    // An event either fails, with its reason and no change to any script, or ends in a settled
    // state, which is stored with the effects of its timer and listen actions.
    method ExecuteEvent(
      h: Host, compile: Compiler, id: string, event: string, now: int, lim: Limits, payload: string)
      returns (r: Delivery, reason: string)
      modifies this
      ensures id !in old(scripts) ==> r == Refused("script-not-found")
      ensures id in old(scripts) ==> r == EventOutcome(h, compile, old(scripts)[id], event, lim, payload)
      ensures reason == Reason(r) && (!r.Ran? ==> scripts == old(scripts))
      ensures r.Ran? ==> exists walk ::
        && Walks(walk, r.result.state.variables)
        && scripts == old(scripts)[id := Delivered(old(scripts)[id], r.result, Encoded(r.result.state, walk), now)]
    {
      if id !in scripts {
        return Refused("script-not-found"), "script-not-found";
      }
      var script := scripts[id];
      r := Execute(h, compile, script, event, lim, payload);
      reason := Reason(r);
      if r.Ran? {
        Store(id, r.result, now);
      }
    }

    method Store(id: string, result: VmResult, now: int)
      requires id in scripts
      modifies this
      ensures exists walk ::
        && Walks(walk, result.state.variables)
        && scripts == old(scripts)[id := Delivered(old(scripts)[id], result, Encoded(result.state, walk), now)]
    {
      var script := scripts[id];
      var walk := WalkVariables(result.state.variables);
      var encoded := SerializeVmState(result.state, walk);
      script := script.(state := result.state.state, vmState := encoded, eventCount := script.eventCount + 1);
      for i := 0 to |result.actions|
        invariant WithActions(script, result.actions[i..], now) == Delivered(scripts[id], result, encoded, now)
        invariant scripts == old(scripts)
      {
        script := WithAction(script, result.actions[i], now);
        assert result.actions[i..][1..] == result.actions[i + 1..];
      }
      scripts := scripts[id := script];
    }

    // The fields of a region's answer to a script's query become variables of the script, or nothing
    // changes.
    method ApplyWorldResult(id: string, prefix: string, result: string) returns (reason: string)
      modifies this
      ensures !SafeField(prefix, 64) ==> reason == "invalid-world-result-prefix" && scripts == old(scripts)
      ensures SafeField(prefix, 64) && id !in old(scripts) ==> reason == "script-not-found" && scripts == old(scripts)
      ensures SafeField(prefix, 64) && id in old(scripts) ==>
        exists stored :: Stores(WithResult(StartState(old(scripts)[id]), prefix, result), stored) &&
          match stored
          case Err(e) => reason == e && scripts == old(scripts)
          case Ok(text) => reason == "" && scripts == old(scripts)[id := old(scripts)[id].(vmState := text)]
    {
      if !SafeField(prefix, 64) {
        return "invalid-world-result-prefix";
      }
      if id !in scripts {
        return "script-not-found";
      }
      var stored := ResultText(scripts[id], prefix, result);
      if stored.Err? {
        return stored.error;
      }
      scripts := scripts[id := scripts[id].(vmState := stored.value)];
      reason := "";
    }

    // All or nothing: either every script of the owner on a mapped entity moves, or none does.
    method RebindObjects(source: string, destination: string, pairs: seq<(nat, nat)>, owner: string)
      returns (reason: string)
      modifies this
      ensures match RebindOutcome(old(scripts), source, destination, pairs, owner)
              case Ok(after) => reason == "" && scripts == after
              case Err(e) => reason == e && scripts == old(scripts)
    {
      if !ValidRegions(source, destination, owner, pairs) {
        return "invalid-script-rebind";
      }
      var made := MakeBindings(source, destination, pairs);
      if made.Err? {
        return made.error;
      }
      var ambiguous := AnyAmbiguous(scripts, made.value, owner);
      if ambiguous {
        return "ambiguous-script-rebind";
      }
      MoveAll(made.value, owner);
      reason := "";
    }

    method MoveAll(bindings: seq<Binding>, owner: string)
      modifies this
      ensures scripts == Rebound(old(scripts), bindings, owner)
    {
      var rest := scripts;
      while rest != map[]
        invariant rest.Keys <= scripts.Keys == old(scripts).Keys
        invariant forall id :: id in scripts ==>
          scripts[id] == if id in rest then old(scripts)[id] else Moved(old(scripts)[id], bindings, owner)
        decreases |rest|
      {
        var id :| id in rest;
        scripts := scripts[id := Moved(scripts[id], bindings, owner)];
        rest := rest - {id};
      }
    }
  }

  method AnyAmbiguous(scripts: map<string, ScriptRecord>, bindings: seq<Binding>, owner: string) returns (found: bool)
    ensures found <==> exists id :: id in scripts && Ambiguous(scripts[id], bindings, owner)
  {
    var rest := scripts;
    while rest != map[]
      invariant rest.Keys <= scripts.Keys
      invariant forall id :: id in scripts && id !in rest ==> !Ambiguous(scripts[id], bindings, owner)
      decreases |rest|
    {
      var id :| id in rest;
      if Ambiguous(scripts[id], bindings, owner) {
        return true;
      }
      rest := rest - {id};
    }
    found := false;
  }

  method MakeBindings(source: string, destination: string, pairs: seq<(nat, nat)>) returns (r: Result<seq<Binding>>)
    ensures r == BindingsOf(source, destination, pairs)
  {
    var bindings := [];
    for i := 0 to |pairs|
      invariant BindingsOf(source, destination, pairs[..i]) == Ok(bindings)
    {
      var (from, to) := pairs[i];
      assert pairs[..i + 1][..i] == pairs[..i];
      if from == 0 || to == 0 {
        ErrorStays(source, destination, pairs, i + 1);
        return Err("invalid-script-rebind-entity");
      }
      var b := Binding(Bound(source, from), Bound(destination, to));
      if Clash(bindings, b) {
        ErrorStays(source, destination, pairs, i + 1);
        return Err("duplicate-script-rebind-entity");
      }
      bindings := bindings + [b];
    }
    assert pairs[..|pairs|] == pairs;
    r := Ok(bindings);
  }

  method Execute(h: Host, compile: Compiler, script: ScriptRecord, event: string, lim: Limits, payload: string)
    returns (r: Delivery)
    ensures r == EventOutcome(h, compile, script, event, lim, payload)
  {
    if !script.enabled {
      return Refused("script-disabled");
    }
    if script.source == "" {
      return Refused("script-program-missing");
    }
    var program := compile(script.language, script.source);
    if program.Err? {
      return Refused(program.error);
    }
    var start := Ok(VmState(script.state, map[]));
    if script.vmState != "" {
      start := DeserializeVmState(script.vmState);
    }
    if start.Err? {
      return Refused(start.error);
    }
    var first := ExecuteScriptEvent(h, program.value, event, start.value, lim, payload);
    if !first.ok {
      return Faulty(first);
    }
    var x := Session(h, program.value, lim);
    assert Runs(RunnerOf(x), x);
    var settled := RunTransitions(x, start.value.state, first, RunnerOf(x));
    r := DeliveryOf(settled);
  }
}
