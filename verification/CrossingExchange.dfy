// What one step of the running system does to a crossing: the exchanges between Core and a region that
// move it, and that no step does anything else.

module CrossingExchange {
  import opened Basics
  import opened ObjectCrossingStore
  import opened CrossingProtocol
  import opened CrossingRegion
  import opened CoreCrossings
  import opened ScriptRuntime
  import opened Text
  import opened CrossingSystem

  ghost function Going(c: Config): (System, System) -> bool { (s: System, t: System) => Goes(s, t, c) }

  // ---------- one command, from poll to answer ----------

  // Core offers this crossing's command to the region.
  ghost predicate Head(m: Crossings, region: string, id: string) {
    && id in m && Due(m[id], region).Some?
    && forall other :: other in m && Due(m[other], region).Some? ==> m[id].created <= m[other].created
  }

  function DueOf(m: Crossings, region: string, id: string): Command
    requires id in m && Due(m[id], region).Some?
  {
    Command(Due(m[id], region).value, id, m[id])
  }

  function CarriedOut(scene: map<Key, string>, c: Config, cmd: Command): (Option<string>, Report) {
    var k := Target(c.links, OrderOf(cmd));
    Carried(Found(scene, k), k.entity, OrderOf(cmd), cmd.record.owner, c.checks, true)
  }

  // A region takes the command it is offered, carries it out, and its report arrives.
  lemma Exchange(
    s: System, c: Config, region: string, cmd: Command, after: Option<string>, r: Report, now: int)
    returns (t: System)
    requires s.busy == map[] && Head(s.core.crossings, region, cmd.id) && cmd == DueOf(s.core.crossings, region, cmd.id)
    requires CarriedOut(s.scene, c, cmd) == (after, r)
    ensures t == System(Recorded(s.core, cmd, region, r, c.numbers, c.maxAttempts, now).after,
                        Put(s.scene, Target(c.links, OrderOf(cmd)), after), map[])
    ensures Reaches(Going(c), s, t)
  {
    var a := System(s.core, s.scene, s.busy[region := Sent(cmd)]);
    var b := System(s.core, Put(s.scene, Target(c.links, OrderOf(cmd)), after), a.busy[region := Replied(cmd, r)]);
    t := System(Recorded(s.core, cmd, region, r, c.numbers, c.maxAttempts, now).after, b.scene, map[]);
    ExchangePolls(s, a, c, region, cmd);
    ExchangeActs(a, b, c, region);
    assert b.busy - {region} == map[];
    ExchangeAnswers(b, t, c, region, r, now);
    ReachesInThree(Going(c), s, a, b, t);
  }

  lemma ExchangePolls(s: System, a: System, c: Config, region: string, cmd: Command)
    requires region !in s.busy && a == System(s.core, s.scene, s.busy[region := Sent(cmd)])
    requires Offers(s.core.crossings, region, Some(cmd))
    ensures Goes(s, a, c)
  {
    assert Polls(s, a, region, cmd);
  }

  lemma ExchangeActs(a: System, b: System, c: Config, region: string)
    requires region in a.busy && a.busy[region].Sent?
    requires var cmd := a.busy[region].cmd;
      var (after, r) := CarriedOut(a.scene, c, cmd);
      b == System(a.core, Put(a.scene, Target(c.links, OrderOf(cmd)), after), a.busy[region := Replied(cmd, r)])
    ensures Goes(a, b, c)
  {
    assert Acts(a, b, c, region, true);
  }

  lemma ExchangeAnswers(b: System, t: System, c: Config, region: string, r: Report, now: int)
    requires region in b.busy && b.busy[region].Replied? && b.busy[region].report == r
    requires var cmd := b.busy[region].cmd;
      && Offers(b.core.crossings, region, Some(cmd))
      && t == System(Recorded(b.core, cmd, region, r, c.numbers, c.maxAttempts, now).after, b.scene, b.busy - {region})
    ensures Goes(b, t, c)
  {
    assert Answers(b, t, c, region, true, Some(b.busy[region].cmd), now);
  }

  // ---------- what each exchange does ----------

  // Nothing but one record has changed in Core's table, and that one only as a step of its crossing.
  ghost predicate Turned(m: Crossings, n: Crossings, id: string, slot: Slot) {
    && id in m && id in n && n == m[id := n[id]] && SameCrossing(n[id], m[id]) && SlotOf(n[id]) == slot
  }

  lemma ExportRecorded(core: CoreState, id: string, x: string, c: Config, now: int)
    requires id in core.crossings && core.crossings[id].state.Prepared? && 0 < |x| <= 256 * 1024
    ensures var r := core.crossings[id];
      var after := Recorded(core, Command(ExportSource, id, r), r.source, Report(true, "", x, 0, ""), c.numbers, c.maxAttempts, now).after;
      Turned(core.crossings, after.crossings, id, SlotOf(r).(state := Exported, snapshot := x))
  {
  }

  lemma ExportExchange(s: System, c: Config, id: string, x: string, now: int) returns (t: System)
    requires s.busy == map[] && id in s.core.crossings && s.core.crossings[id].state.Prepared?
    requires Head(s.core.crossings, s.core.crossings[id].source, id)
    requires Holds(s.scene, SlotIn(c.links, s.core.crossings[id]).from, x) && 0 < |x| <= 256 * 1024
    requires c.checks.whole(x) && c.checks.owner(x) == Some(s.core.crossings[id].owner)
    ensures Reaches(Going(c), s, t) && t.busy == map[] && t.scene == s.scene
    ensures Turned(s.core.crossings, t.core.crossings, id, SlotOf(s.core.crossings[id]).(state := Exported, snapshot := x))
  {
    PutBack(s.scene, SlotIn(c.links, s.core.crossings[id]).from);
    var cmd := Command(ExportSource, id, s.core.crossings[id]);
    t := Exchange(s, c, cmd.record.source, cmd, Some(x), Report(true, "", x, 0, ""), now);
    ExportRecorded(s.core, id, x, c, now);
  }

  lemma ImportRecorded(core: CoreState, id: string, text: string, c: Config, now: int)
    requires id in core.crossings && core.crossings[id].state.Exported? && EntityMap(c.numbers, text).Some?
    ensures var r := core.crossings[id];
      var report := Report(true, "", "", r.destinationEntity, text);
      var after := Recorded(core, Command(ImportDestination, id, r), r.destination, report, c.numbers, c.maxAttempts, now).after;
      && Turned(core.crossings, after.crossings, id, SlotOf(r).(state := Imported))
      && after.crossings[id].entityMap == text
  {
  }

  // An import or restore that the region accepts.
  lemma PlacesOut(scene: map<Key, string>, c: Config, cmd: Command)
    requires cmd.kind.ImportDestination? || cmd.kind.RestoreSource?
    requires var r := cmd.record; c.checks.owner(r.snapshot) == Some(r.owner) && c.checks.placeable(OrderOf(cmd))
    requires Only(scene, Target(c.links, OrderOf(cmd)), cmd.record.snapshot)
    ensures CarriedOut(scene, c, cmd) == (Some(cmd.record.snapshot),
      Report(true, "", "", Target(c.links, OrderOf(cmd)).entity, c.checks.entities(OrderOf(cmd))))
  {
  }

  lemma ImportExchange(s: System, c: Config, id: string, now: int) returns (t: System)
    requires s.busy == map[] && id in s.core.crossings && s.core.crossings[id].state.Exported?
    requires Head(s.core.crossings, s.core.crossings[id].destination, id)
    requires var r := s.core.crossings[id];
      && c.checks.owner(r.snapshot) == Some(r.owner) && c.checks.placeable(ImportOf(id, r))
      && EntityMap(c.numbers, c.checks.entities(ImportOf(id, r))).Some? && Only(s.scene, SlotOf(r).to, r.snapshot)
    ensures Reaches(Going(c), s, t) && t.busy == map[]
    ensures var slot := SlotOf(s.core.crossings[id]);
      && Turned(s.core.crossings, t.core.crossings, id, slot.(state := Imported))
      && t.scene == s.scene[slot.to := slot.snapshot]
    ensures EntityMap(c.numbers, t.core.crossings[id].entityMap).Some?
  {
    var r := s.core.crossings[id];
    var cmd := Command(ImportDestination, id, r);
    PlacesOut(s.scene, c, cmd);
    var report := Report(true, "", "", r.destinationEntity, c.checks.entities(ImportOf(id, r)));
    t := Exchange(s, c, r.destination, cmd, Some(r.snapshot), report, now);
    ImportRecorded(s.core, id, report.entityMap, c, now);
  }

  lemma RemoveRecorded(core: CoreState, id: string, report: Report, c: Config, now: int)
    requires id in core.crossings && core.crossings[id].state.Imported? && report.ok
    requires var r := core.crossings[id]; RecordSound(c, r) && SafeField(r.source, 256) && SafeField(r.destination, 256)
    ensures var r := core.crossings[id];
      var after := Recorded(core, Command(RemoveSource, id, r), r.source, report, c.numbers, c.maxAttempts, now).after;
      Turned(core.crossings, after.crossings, id, SlotOf(r).(state := Completed))
  {
    var r := core.crossings[id];
    EntityMapRebinds(c.numbers, r.entityMap, core.scripts, r.source, r.destination, r.owner);
  }

  // A removal or cleanup that the region accepts.
  lemma ClearsOut(scene: map<Key, string>, c: Config, cmd: Command)
    requires cmd.kind.RemoveSource? || cmd.kind.CleanupDestination?
    requires Only(scene, Target(c.links, OrderOf(cmd)), cmd.record.snapshot)
    requires c.checks.owner(cmd.record.snapshot) == Some(cmd.record.owner)
    ensures CarriedOut(scene, c, cmd) ==
      (None, Report(true, "", "", if cmd.kind.RemoveSource? then 0 else cmd.record.destinationEntity, ""))
  {
  }

  lemma RemoveExchange(s: System, c: Config, id: string, now: int) returns (t: System)
    requires s.busy == map[] && id in s.core.crossings && s.core.crossings[id].state.Imported?
    requires Head(s.core.crossings, s.core.crossings[id].source, id)
    requires var r := s.core.crossings[id];
      && RecordSound(c, r) && SafeField(r.source, 256) && SafeField(r.destination, 256)
      && Only(s.scene, SlotIn(c.links, r).from, r.snapshot)
    ensures Reaches(Going(c), s, t) && t.busy == map[]
    ensures var r := s.core.crossings[id];
      && Turned(s.core.crossings, t.core.crossings, id, SlotOf(r).(state := Completed))
      && t.scene == s.scene - {SlotIn(c.links, r).from}
  {
    var r := s.core.crossings[id];
    var cmd, report := Command(RemoveSource, id, r), Report(true, "", "", 0, "");
    ClearsOut(s.scene, c, cmd);
    t := Exchange(s, c, r.source, cmd, None, report, now);
    RemoveRecorded(s.core, id, report, c, now);
  }

  lemma CleanupRecorded(core: CoreState, id: string, report: Report, c: Config)
    requires id in core.crossings && core.crossings[id].state.CleanupPending? && report.ok
    ensures var r := core.crossings[id];
      var after := Recorded(core, Command(CleanupDestination, id, r), r.destination, report, c.numbers, c.maxAttempts, 0).after;
      Turned(core.crossings, after.crossings, id, SlotOf(r).(state := RestorePending))
  {
  }

  lemma CleanupExchange(s: System, c: Config, id: string) returns (t: System)
    requires s.busy == map[] && id in s.core.crossings && s.core.crossings[id].state.CleanupPending?
    requires Head(s.core.crossings, s.core.crossings[id].destination, id)
    requires var r := s.core.crossings[id]; RecordSound(c, r) && Only(s.scene, SlotOf(r).to, r.snapshot)
    ensures Reaches(Going(c), s, t) && t.busy == map[]
    ensures var slot := SlotOf(s.core.crossings[id]);
      && Turned(s.core.crossings, t.core.crossings, id, slot.(state := RestorePending))
      && t.scene == s.scene - {slot.to}
  {
    var r := s.core.crossings[id];
    var cmd, report := Command(CleanupDestination, id, r), Report(true, "", "", r.destinationEntity, "");
    ClearsOut(s.scene, c, cmd);
    t := Exchange(s, c, r.destination, cmd, None, report, 0);
    CleanupRecorded(s.core, id, report, c);
  }

  function RestoreOf(id: string, r: Record): Order { OrderOf(Command(RestoreSource, id, r)) }

  lemma RestoreRecorded(core: CoreState, id: string, report: Report, c: Config, now: int)
    requires id in core.crossings && core.crossings[id].state.RestorePending? && report.ok
    ensures var r := core.crossings[id];
      var after := Recorded(core, Command(RestoreSource, id, r), r.source, report, c.numbers, c.maxAttempts, now).after;
      Turned(core.crossings, after.crossings, id, SlotOf(r).(state := RolledBack))
  {
  }

  lemma RestoreExchange(s: System, c: Config, id: string, now: int) returns (t: System)
    requires s.busy == map[] && id in s.core.crossings && s.core.crossings[id].state.RestorePending?
    requires Head(s.core.crossings, s.core.crossings[id].source, id)
    requires var r := s.core.crossings[id];
      && RecordSound(c, r) && Only(s.scene, SlotIn(c.links, r).from, r.snapshot) && c.checks.placeable(RestoreOf(id, r))
    ensures Reaches(Going(c), s, t) && t.busy == map[]
    ensures var r := s.core.crossings[id];
      && Turned(s.core.crossings, t.core.crossings, id, SlotOf(r).(state := RolledBack))
      && t.scene == s.scene[SlotIn(c.links, r).from := r.snapshot]
  {
    var r := s.core.crossings[id];
    var cmd := Command(RestoreSource, id, r);
    PlacesOut(s.scene, c, cmd);
    var report := Report(true, "", "", SlotIn(c.links, r).from.entity, c.checks.entities(RestoreOf(id, r)));
    t := Exchange(s, c, r.source, cmd, Some(r.snapshot), report, now);
    RestoreRecorded(s.core, id, report, c, now);
  }

  // The owner rolls a crossing back.
  lemma ClientRollback(s: System, c: Config, id: string, now: int) returns (t: System)
    requires s.busy == map[] && id in s.core.crossings
    requires var state := s.core.crossings[id].state; state.Prepared? || state.Exported? || state.Imported? || state.CleanupPending?
    ensures Reaches(Going(c), s, t) && t.busy == map[] && t.scene == s.scene
    ensures var slot := SlotOf(s.core.crossings[id]);
      Turned(s.core.crossings, t.core.crossings, id, slot.(state := if slot.state.Prepared? then RolledBack else CleanupPending))
  {
    var m := s.core.crossings;
    t := s.(core := s.core.(crossings := RollbackOutcome(m, id, m[id].owner, "", now).crossings));
    RollbackGoes(s, t, c, id, m[id].owner, now);
    RollbackRecorded(m, id, now);
    ReachesInOne(Going(c), s, t);
  }

  lemma RollbackGoes(s: System, t: System, c: Config, id: string, owner: string, now: int)
    requires RollsBack(s, t, id, owner, "", now)
    ensures Goes(s, t, c)
  {
  }

  lemma RollbackRecorded(m: Crossings, id: string, now: int)
    requires id in m
    requires m[id].state.Prepared? || m[id].state.Exported? || m[id].state.Imported? || m[id].state.CleanupPending?
    ensures Turned(m, RollbackOutcome(m, id, m[id].owner, "", now).crossings, id,
                   SlotOf(m[id]).(state := if m[id].state.Prepared? then RolledBack else CleanupPending))
  {
  }

  // Every connection drops: commands and reports in hand are lost.
  lemma {:induction false} LoseAll(s: System, c: Config) returns (t: System)
    ensures Reaches(Going(c), s, t) && t == s.(busy := map[])
    decreases |s.busy|
  {
    if s.busy == map[] {
      t := s;
      ReachesNow(Going(c), s);
    } else {
      var region :| region in s.busy;
      var u := s.(busy := s.busy - {region});
      assert Loses(s, u, region);
      ReachesInOne(Going(c), s, u);
      t := LoseAll(u, c);
      ReachesTrans(Going(c), s, u, t);
    }
  }

  // ---------- what one step can do to a record ----------

  predicate SafeNames(r: Record) { SafeField(r.source, 256) && SafeField(r.destination, 256) }

  // A linkset that may leave: one the crossing's owner owns, whole, and of a size Core takes.
  predicate Leaves(c: Config, r: Record, x: string) {
    c.checks.whole(x) && c.checks.owner(x) == Some(r.owner) && 0 < |x| <= 256 * 1024
  }

  // An import that the destination accepts, with a map that Core can read.
  predicate Arrives(c: Config, id: string, r: Record) {
    c.checks.placeable(ImportOf(id, r)) && EntityMap(c.numbers, c.checks.entities(ImportOf(id, r))).Some?
  }

  predicate RecordNext(c: Config, scene: map<Key, string>, id: string, r: Record, u: Record) {
    && SameCrossing(u, r)
    && (|| TurnsRecordBack(r, u)
        || (r.state.Prepared? && u.state.Exported? && Holds(scene, SlotIn(c.links, r).from, u.snapshot) && Leaves(c, r, u.snapshot))
        || (r.state.Exported? && u.state.Imported? && u.snapshot == r.snapshot && Arrives(c, id, r))
        || (r.state.Imported? && u.state.Completed? && SafeNames(r))
        || (r.state.CleanupPending? && u.state.RestorePending? && u.snapshot == r.snapshot)
        || (r.state.RestorePending? && u.state.RolledBack? && c.checks.placeable(RestoreOf(id, r)))
        || (r.state.Exported? && u.state.RolledBack?))
  }

  lemma TaskOrder(s: System, c: Config, home: map<string, Home>, region: string)
    requires Good(s, c, home) && region in s.busy && s.busy[region].cmd.id in s.core.crossings
    ensures var cmd := s.busy[region].cmd;
      !cmd.kind.ExportSource? ==> OrderOf(cmd) == OrderOf(Command(cmd.kind, cmd.id, s.core.crossings[cmd.id]))
  {
    var w := View(s, c.links);
    assert Fits(w.busy[region], w.slots, w.scene) && TaskSound(c, s.core.crossings, s.busy[region]);
  }

  lemma TaskExport(s: System, c: Config, home: map<string, Home>, region: string)
    requires Good(s, c, home) && region in s.busy && s.busy[region].Replied? && s.busy[region].report.ok
    requires var cmd := s.busy[region].cmd;
      cmd.kind.ExportSource? && cmd.id in s.core.crossings && s.core.crossings[cmd.id].state.Prepared?
    ensures var r := s.core.crossings[s.busy[region].cmd.id];
      Holds(s.scene, SlotIn(c.links, r).from, s.busy[region].report.snapshot)
  {
    var w := View(s, c.links);
    assert Fits(w.busy[region], w.slots, w.scene) && TaskSound(c, s.core.crossings, s.busy[region]);
  }

  lemma CountedNext(s: System, c: Config, home: map<string, Home>, region: string, cmd: Command, u: Record)
    requires Good(s, c, home) && region in s.busy && s.busy[region].Replied?
    requires cmd.id == s.busy[region].cmd.id && cmd.kind == s.busy[region].cmd.kind
    requires cmd.id in s.core.crossings && s.core.crossings[cmd.id] == cmd.record && cmd.record.state == StateFor(cmd.kind)
    requires Moves(cmd.record, u, cmd.kind, s.busy[region].report, c.numbers)
    requires u.state.Completed? ==> SafeNames(cmd.record)
    ensures RecordNext(c, s.scene, cmd.id, cmd.record, u)
  {
    var task := s.busy[region];
    MovesIn(c.links, cmd.record, u, cmd.kind, task.report, c.numbers);
    TaskOrder(s, c, home, region);
    assert TaskSound(c, s.core.crossings, task);
    if cmd.kind.ExportSource? && task.report.ok {
      TaskExport(s, c, home, region);
    }
    ReportNext(c, s.scene, task, cmd, u);
  }

  lemma ReportNext(c: Config, scene: map<Key, string>, task: Task, cmd: Command, u: Record)
    requires task.Replied? && cmd.id == task.cmd.id && cmd.kind == task.cmd.kind && cmd.record.state == StateFor(cmd.kind)
    requires task.report.ok ==> ReportSound(c, task.cmd, task.report) && task.cmd.record.owner == cmd.record.owner
    requires !cmd.kind.ExportSource? ==> OrderOf(task.cmd) == OrderOf(cmd)
    requires cmd.kind.ExportSource? && task.report.ok ==> Holds(scene, SlotIn(c.links, cmd.record).from, task.report.snapshot)
    requires Moves(cmd.record, u, cmd.kind, task.report, c.numbers) && SameCrossing(u, cmd.record)
    requires u.state.Completed? ==> SafeNames(cmd.record)
    ensures RecordNext(c, scene, cmd.id, cmd.record, u)
  {
  }

  lemma CompletedSafe(core: CoreState, cmd: Command, region: string, r: Report, numbers: Numbers, maxAttempts: nat, now: int)
    requires cmd.id in core.crossings && core.crossings[cmd.id] == cmd.record && cmd.record.state == StateFor(cmd.kind)
    ensures var n := Recorded(core, cmd, region, r, numbers, maxAttempts, now).after.crossings;
      cmd.id in n && (n[cmd.id].state.Completed? ==> SafeNames(cmd.record))
  {
    OnlyRemovalCompletes(core, cmd, region, r, numbers, maxAttempts, now);
    if r.ok && cmd.kind.RemoveSource? && EntityMap(numbers, cmd.record.entityMap).Some? {
      RebindAccepts(core.scripts, cmd.record.source, cmd.record.destination,
                    EntityMap(numbers, cmd.record.entityMap).value, cmd.record.owner);
    }
  }

  lemma AnswerNext(
    s: System, t: System, c: Config, home: map<string, Home>, region: string, owns: bool, expected: Option<Command>,
    now: int, id: string)
    requires Good(s, c, home) && id in s.core.crossings && Answers(s, t, c, region, owns, expected, now)
    ensures id in t.core.crossings && RecordNext(c, s.scene, id, s.core.crossings[id], t.core.crossings[id])
  {
    var task := s.busy[region];
    if owns && expected.Some? && expected.value.id == task.cmd.id && expected.value.kind == task.cmd.kind {
      var cmd := expected.value;
      DueState(cmd.record, region);
      RecordedAnswers(s.core, cmd, region, task.report, c.numbers, c.maxAttempts, now);
      CompletedSafe(s.core, cmd, region, task.report, c.numbers, c.maxAttempts, now);
      CountedNext(s, c, home, region, cmd, t.core.crossings[cmd.id]);
    }
  }

  lemma RollsBackNext(s: System, t: System, c: Config, other: string, owner: string, why: string, now: int, id: string)
    requires id in s.core.crossings && RollsBack(s, t, other, owner, why, now)
    ensures id in t.core.crossings && RecordNext(c, s.scene, id, s.core.crossings[id], t.core.crossings[id])
  {
    if other == id {
      RollbackTurnsBack(s.core.crossings[id], owner, if why == "" then "client-rollback" else Truncated(why), now);
    }
  }

  ghost predicate EntryNext(c: Config, scene: map<Key, string>, m: Crossings, n: Crossings, id: string) {
    && id in m
    && if id in n then RecordNext(c, scene, id, m[id], n[id]) else Finished(SlotOf(m[id]))
  }

  lemma MaintainsNext(s: System, t: System, c: Config, now: int, id: string)
    requires id in s.core.crossings && Maintains(s, t, now)
    ensures EntryNext(c, s.scene, s.core.crossings, t.core.crossings, id)
  {
    ExpiryTurnsBack(s.core.crossings[id], now);
  }

  lemma OthersNext(s: System, t: System, c: Config, id: string)
    requires id in s.core.crossings && Goes(s, t, c)
    requires forall region, owns, expected, now :: !Answers(s, t, c, region, owns, expected, now)
    ensures EntryNext(c, s.scene, s.core.crossings, t.core.crossings, id)
  {
    if other, owner, why, now :| RollsBack(s, t, other, owner, why, now) {
      RollsBackNext(s, t, c, other, owner, why, now, id);
    } else if now :| Maintains(s, t, now) {
      MaintainsNext(s, t, c, now, id);
    }
  }

  // Every step either leaves a record as it is, or forgets it when it is finished, or takes it one
  // step on or back, each under its own condition.
  lemma GoesNext(s: System, t: System, c: Config, home: map<string, Home>, id: string)
    requires Good(s, c, home) && id in s.core.crossings && Goes(s, t, c)
    ensures EntryNext(c, s.scene, s.core.crossings, t.core.crossings, id)
  {
    if region, owns, expected, now :| Answers(s, t, c, region, owns, expected, now) {
      AnswerNext(s, t, c, home, region, owns, expected, now, id);
    } else {
      OthersNext(s, t, c, id);
    }
  }
}
