// Core and the regions together, with their real tables: Core's records and scripts, the linksets of
// every region, and the command each region has in hand. Every step is a step of the crossing protocol,
// so the protocol's safety is the system's.

module CrossingSystem {
  import opened Basics
  import opened ObjectCrossingStore
  import opened CrossingProtocol
  import opened CrossingRegion
  import opened CoreCrossings
  import opened ScriptRuntime
  import opened Text

  // A command a region has in hand, and then its report.
  datatype Task = Sent(cmd: Command) | Replied(cmd: Command, report: Report)

  datatype System = System(core: CoreState, scene: map<Key, string>, busy: map<string, Task>)

  datatype Config = Config(numbers: Numbers, maxAttempts: nat, links: Links, checks: Checks)

  // ---------- the protocol's view of the system ----------

  // The protocol knows linksets by their roots.
  function SlotIn(links: Links, r: Record): Slot {
    var s := SlotOf(r);
    s.(from := Root(links, s.from))
  }

  function Slots(links: Links, m: Crossings): map<string, Slot> { map id | id in m :: SlotIn(links, m[id]) }

  function OrderOf(cmd: Command): Order {
    var s := SlotOf(cmd.record);
    Order(cmd.kind, cmd.id, s.from, s.to, s.snapshot)
  }

  function WorkOf(links: Links, task: Task): Work {
    match task
    case Sent(cmd) => Issued(Resolved(links, OrderOf(cmd)))
    case Replied(cmd, r) => Done(Resolved(links, OrderOf(cmd)), r)
  }

  function Works(links: Links, busy: map<string, Task>): map<string, Work> {
    map region | region in busy :: WorkOf(links, busy[region])
  }

  function View(s: System, links: Links): World {
    World(Slots(links, s.core.crossings), s.scene, Works(links, s.busy))
  }

  lemma SlotsUpdate(links: Links, m: Crossings, id: string, r: Record)
    ensures Slots(links, m[id := r]) == Slots(links, m)[id := SlotIn(links, r)]
  {
  }

  lemma WorksUpdate(links: Links, busy: map<string, Task>, region: string, task: Task)
    ensures Works(links, busy[region := task]) == Works(links, busy)[region := WorkOf(links, task)]
    ensures Works(links, busy - {region}) == Works(links, busy) - {region}
  {
  }

  // ---------- steps of the system ----------

  // An unfinished crossing leaves from the linkset, or goes to where it is.
  ghost predicate Touches(m: Crossings, links: Links, id: string, k: Key) {
    && id in m && !Finished(SlotIn(links, m[id]))
    && (k == SlotIn(links, m[id]).from || k == SlotIn(links, m[id]).to)
  }

  ghost predicate Untouched(m: Crossings, links: Links, k: Key) { forall id :: !Touches(m, links, id, k) }

  // A client's request, as the store checks it. The random id, and with it the destination, is fresh.
  ghost predicate Prepares(
    s: System, t: System, c: Config, id: string, owner: string, from: Key, destination: string, now: int, expires: int)
  {
    var to := Key(destination, DestinationId(id));
    && ValidCrossing(owner, from.region, destination, from.entity, true, now, expires)
    && id !in s.core.crossings && (forall region :: region in s.busy ==> s.busy[region].cmd.id != id)
    && to !in s.scene && Root(c.links, to) == to && Untouched(s.core.crossings, c.links, to)
    && (forall region :: region in s.busy ==> Target(c.links, OrderOf(s.busy[region].cmd)) != to)
    && t == s.(core := s.core.(crossings := s.core.crossings[
         id := NewRecord(id, owner, from.region, destination, from.entity, now, expires)]))
  }

  ghost predicate Polls(s: System, t: System, region: string, cmd: Command) {
    && region !in s.busy && Offers(s.core.crossings, region, Some(cmd))
    && t == s.(busy := s.busy[region := Sent(cmd)])
  }

  ghost predicate Acts(s: System, t: System, c: Config, region: string, room: bool) {
    && region in s.busy && s.busy[region].Sent?
    && var cmd := s.busy[region].cmd;
    && var k := Target(c.links, OrderOf(cmd));
    && var (after, r) := Carried(Found(s.scene, k), k.entity, OrderOf(cmd), cmd.record.owner, c.checks, room);
    && t == System(s.core, Put(s.scene, k, after), s.busy[region := Replied(cmd, r)])
  }

  // Core's answer to a report; `owns` says whether the reporting node still owns the region.
  ghost predicate Answers(s: System, t: System, c: Config, region: string, owns: bool, expected: Option<Command>, now: int) {
    && region in s.busy && s.busy[region].Replied? && Offers(s.core.crossings, region, expected)
    && var task := s.busy[region];
    && var counts := owns && expected.Some? && expected.value.id == task.cmd.id && expected.value.kind == task.cmd.kind;
    && t.core == (
         if counts then Recorded(s.core, expected.value, region, task.report, c.numbers, c.maxAttempts, now).after
         else s.core)
    && t.scene == s.scene && t.busy == s.busy - {region}
  }

  // A command or a report is lost with its connection.
  ghost predicate Loses(s: System, t: System, region: string) {
    region in s.busy && t == s.(busy := s.busy - {region})
  }

  ghost predicate RollsBack(s: System, t: System, id: string, owner: string, why: string, now: int) {
    t == s.(core := s.core.(crossings := RollbackOutcome(s.core.crossings, id, owner, why, now).crossings))
  }

  ghost predicate Maintains(s: System, t: System, now: int) {
    t == s.(core := s.core.(crossings := Maintained(s.core.crossings, now)))
  }

  // Whatever else Core does with scripts meanwhile.
  ghost predicate ScriptsChange(s: System, t: System) {
    t == s.(core := s.core.(scripts := t.core.scripts))
  }

  // Everything but the opening of a crossing.
  ghost predicate Goes(s: System, t: System, c: Config) {
    || (exists region, cmd :: Polls(s, t, region, cmd))
    || (exists region, room :: Acts(s, t, c, region, room))
    || (exists region, owns, expected, now :: Answers(s, t, c, region, owns, expected, now))
    || (exists region :: Loses(s, t, region))
    || (exists id, owner, why, now :: RollsBack(s, t, id, owner, why, now))
    || (exists now :: Maintains(s, t, now))
    || ScriptsChange(s, t)
  }

  // A crossing opened on a linkset that no unfinished crossing touches.
  ghost predicate Opens(s: System, t: System, c: Config) {
    exists id, owner, from, destination, now, expires ::
      Prepares(s, t, c, id, owner, from, destination, now, expires) && Untouched(s.core.crossings, c.links, Root(c.links, from))
  }

  // ---------- what is known of records and reports ----------

  predicate RecordSound(c: Config, r: Record) {
    && 0 < |r.owner| <= 256 && 0 < |r.source| <= 256 && 0 < |r.destination| <= 256 && r.source != r.destination
    && Root(c.links, SlotOf(r).to) == SlotOf(r).to
    && (Carrying(SlotOf(r)) ==> 0 < |r.snapshot| <= 256 * 1024 && c.checks.owner(r.snapshot) == Some(r.owner))
    && (r.state.Imported? ==> EntityMap(c.numbers, r.entityMap).Some?)
  }

  function ImportOf(id: string, r: Record): Order { OrderOf(Command(ImportDestination, id, r)) }

  // A copy at the destination passed the checks of the import.
  predicate CopyPassed(c: Config, scene: map<Key, string>, id: string, r: Record) {
    Carrying(SlotOf(r)) && SlotOf(r).to in scene ==> c.checks.placeable(ImportOf(id, r))
  }

  predicate SameCrossing(a: Record, b: Record) {
    && a.owner == b.owner && a.source == b.source && a.destination == b.destination
    && a.sourceEntity == b.sourceEntity && a.destinationEntity == b.destinationEntity && a.created == b.created
  }

  // What an accepting report says.
  predicate ReportSound(c: Config, cmd: Command, r: Report) {
    match cmd.kind
    case ExportSource => c.checks.owner(r.snapshot) == Some(cmd.record.owner) && c.checks.whole(r.snapshot)
    case ImportDestination =>
      c.checks.placeable(OrderOf(cmd)) && r.entityMap == c.checks.entities(OrderOf(cmd)) &&
      r.entity == cmd.record.destinationEntity
    case RestoreSource => c.checks.placeable(OrderOf(cmd))
    case _ => true
  }

  predicate TaskSound(c: Config, m: Crossings, task: Task) {
    && RecordSound(c, task.cmd.record) && task.cmd.record.state == StateFor(task.cmd.kind)
    && (task.cmd.id in m ==> SameCrossing(task.cmd.record, m[task.cmd.id]))
    && (task.Replied? && task.report.ok ==> ReportSound(c, task.cmd, task.report))
  }

  ghost predicate RecordsSound(s: System, c: Config) {
    forall id :: id in s.core.crossings ==> RecordSound(c, s.core.crossings[id])
  }

  ghost predicate CopiesPassed(s: System, c: Config) {
    forall id :: id in s.core.crossings ==> CopyPassed(c, s.scene, id, s.core.crossings[id])
  }

  ghost predicate TasksSound(s: System, c: Config) {
    forall region :: region in s.busy ==> TaskSound(c, s.core.crossings, s.busy[region])
  }

  ghost predicate Fine(s: System, c: Config) { RecordsSound(s, c) && CopiesPassed(s, c) && TasksSound(s, c) }

  // What holds in every state of a run without overlapping crossings.
  ghost predicate Good(s: System, c: Config, home: map<string, Home>) { Sound(View(s, c.links), home) && Fine(s, c) }

  // ---------- opening and polling ----------

  lemma OpensKeeps(
    s: System, t: System, c: Config, id: string, owner: string, from: Key, destination: string, now: int, expires: int)
    requires Fine(s, c) && Prepares(s, t, c, id, owner, from, destination, now, expires)
    ensures Fine(t, c)
  {
  }

  lemma OpensRefines(
    s: System, t: System, c: Config, id: string, owner: string, from: Key, destination: string, now: int, expires: int)
    requires Prepares(s, t, c, id, owner, from, destination, now, expires)
    requires Untouched(s.core.crossings, c.links, Root(c.links, from))
    ensures Open(View(s, c.links), View(t, c.links), id,
                 SlotIn(c.links, NewRecord(id, owner, from.region, destination, from.entity, now, expires)))
  {
    var m, r := s.core.crossings, NewRecord(id, owner, from.region, destination, from.entity, now, expires);
    SlotsUpdate(c.links, m, id, r);
    forall other | other in m && !Finished(SlotIn(c.links, m[other]))
      ensures KeysApart(SlotIn(c.links, r), SlotIn(c.links, m[other]))
    {
      assert !Touches(m, c.links, other, Root(c.links, from));
      assert !Touches(m, c.links, other, SlotIn(c.links, r).to);
    }
  }

  lemma DueState(r: Record, region: string)
    ensures Due(r, region).Some? ==>
      r.state == StateFor(Due(r, region).value) &&
      (if AtSource(Due(r, region).value) then r.source else r.destination) == region
  {
  }

  lemma PollsKeeps(s: System, t: System, c: Config, region: string, cmd: Command)
    requires Polls(s, t, region, cmd)
    ensures Step(View(s, c.links), View(t, c.links))
    ensures Fine(s, c) ==> Fine(t, c)
  {
    DueState(cmd.record, region);
    WorksUpdate(c.links, s.busy, region, Sent(cmd));
    assert Issue(View(s, c.links), View(t, c.links), region, Resolved(c.links, OrderOf(cmd)));
  }

  // ---------- acting ----------

  lemma TaskAdmitted(s: System, c: Config, home: map<string, Home>, region: string)
    requires Good(s, c, home) && region in s.busy
    ensures var cmd := s.busy[region].cmd;
      Admitted(s.scene, c.links, OrderOf(cmd), cmd.record.owner, c.checks) && Place(OrderOf(cmd)).region == region
  {
    var w, cmd := View(s, c.links), s.busy[region].cmd;
    assert TaskSound(c, s.core.crossings, s.busy[region]);
    assert Place(w.busy[region].order).region == region && Fits(w.busy[region], w.slots, w.scene);
    if cmd.kind.ImportDestination? {
      assert CopyPassed(c, s.scene, cmd.id, s.core.crossings[cmd.id]);
    }
  }

  lemma ActsRefines(s: System, t: System, c: Config, home: map<string, Home>, region: string, room: bool) returns (r: Report)
    requires Good(s, c, home) && Acts(s, t, c, region, room)
    ensures Act(View(s, c.links), View(t, c.links), region, r) && t.busy == s.busy[region := Replied(s.busy[region].cmd, r)]
    ensures r.ok ==> ReportSound(c, s.busy[region].cmd, r)
  {
    var cmd := s.busy[region].cmd;
    var o := OrderOf(cmd);
    TaskAdmitted(s, c, home, region);
    CarriedApplies(s.scene, c.links, o, cmd.record.owner, c.checks, room);
    var k := Target(c.links, o);
    var (after, report) := Carried(Found(s.scene, k), k.entity, o, cmd.record.owner, c.checks, room);
    r := report;
    WorksUpdate(c.links, s.busy, region, Replied(cmd, r));
    CarriedReport(Found(s.scene, k), c, cmd, room);
  }

  lemma CarriedReport(here: Option<string>, c: Config, cmd: Command, room: bool)
    ensures var (_, r) := Carried(here, Target(c.links, OrderOf(cmd)).entity, OrderOf(cmd), cmd.record.owner, c.checks, room);
      r.ok ==> ReportSound(c, cmd, r)
  {
  }

  // Only its own import puts anything at the destination of a crossing that carries a linkset.
  lemma FilledByImport(w: World, v: World, home: map<string, Home>, region: string, r: Report, id: string)
    requires Sound(w, home) && Act(w, v, region, r) && id in w.slots && Carrying(w.slots[id])
    requires w.slots[id].to in v.scene && w.slots[id].to !in w.scene
    ensures var o, s := w.busy[region].order, w.slots[id];
      o.kind.ImportDestination? && o.id == id && o.from == s.from && o.to == s.to && o.snapshot == s.snapshot && r.ok
  {
    ActTouches(w, v, region, r, w.slots[id].to);
    var o := w.busy[region].order;
    assert Fits(w.busy[region], w.slots, w.scene);
    forall j | j in w.slots && j != id && !Finished(w.slots[j]) ensures KeysApart(w.slots[id], w.slots[j]) {
    }
  }

  lemma ActsPassed(s: System, t: System, c: Config, home: map<string, Home>, region: string, r: Report, id: string)
    requires Good(s, c, home) && Act(View(s, c.links), View(t, c.links), region, r)
    requires r.ok ==> ReportSound(c, s.busy[region].cmd, r)
    requires id in s.core.crossings
    ensures CopyPassed(c, t.scene, id, s.core.crossings[id])
  {
    var u, cmd := s.core.crossings[id], s.busy[region].cmd;
    assert CopyPassed(c, s.scene, id, u);
    if Carrying(SlotOf(u)) && SlotOf(u).to in t.scene && SlotOf(u).to !in s.scene {
      FilledByImport(View(s, c.links), View(t, c.links), home, region, r, id);
      assert TaskSound(c, s.core.crossings, s.busy[region]);
      assert OrderOf(cmd) == ImportOf(id, u);
    }
  }

  lemma ActsKeeps(s: System, t: System, c: Config, home: map<string, Home>, region: string, room: bool)
    requires Good(s, c, home) && Acts(s, t, c, region, room)
    ensures Step(View(s, c.links), View(t, c.links)) && Fine(t, c)
  {
    var r := ActsRefines(s, t, c, home, region, room);
    forall id | id in t.core.crossings ensures CopyPassed(c, t.scene, id, t.core.crossings[id]) {
      ActsPassed(s, t, c, home, region, r, id);
    }
    ActsTasks(s, t, c, region, r);
  }

  lemma ActsTasks(s: System, t: System, c: Config, region: string, r: Report)
    requires TasksSound(s, c) && t.core == s.core && region in s.busy
    requires t.busy == s.busy[region := Replied(s.busy[region].cmd, r)]
    requires r.ok ==> ReportSound(c, s.busy[region].cmd, r)
    ensures TasksSound(t, c)
  {
    forall other | other in t.busy ensures TaskSound(c, t.core.crossings, t.busy[other]) {
      assert TaskSound(c, s.core.crossings, s.busy[other]);
    }
  }

  // ---------- changes of one record ----------

  ghost predicate OneRecord(s: System, t: System, id: string) {
    && t.scene == s.scene && (forall region :: region in t.busy ==> region in s.busy && t.busy[region] == s.busy[region])
    && id in s.core.crossings && id in t.core.crossings
    && t.core.crossings == s.core.crossings[id := t.core.crossings[id]]
    && SameCrossing(t.core.crossings[id], s.core.crossings[id])
  }

  lemma OneRecordFine(s: System, t: System, c: Config, id: string)
    requires Fine(s, c) && OneRecord(s, t, id)
    requires RecordSound(c, t.core.crossings[id]) && CopyPassed(c, t.scene, id, t.core.crossings[id])
    ensures Fine(t, c)
  {
    forall region | region in t.busy ensures TaskSound(c, t.core.crossings, t.busy[region]) {
      assert TaskSound(c, s.core.crossings, s.busy[region]);
    }
  }

  predicate TurnsRecordBack(r: Record, u: Record) {
    && SameCrossing(u, r) && u.snapshot == r.snapshot && TurnsBack(SlotOf(r), SlotOf(u))
    && (r.state.Imported? ==> u.entityMap == r.entityMap)
  }

  lemma TurnedBackSound(c: Config, scene: map<Key, string>, id: string, r: Record, u: Record)
    requires TurnsRecordBack(r, u)
    ensures TurnsBack(SlotIn(c.links, r), SlotIn(c.links, u))
    ensures RecordSound(c, r) ==> RecordSound(c, u)
    ensures CopyPassed(c, scene, id, r) ==> CopyPassed(c, scene, id, u)
  {
  }

  lemma OneTurnedBack(s: System, t: System, c: Config, id: string)
    requires OneRecord(s, t, id) && TurnsRecordBack(s.core.crossings[id], t.core.crossings[id])
    ensures Sweep(View(s, c.links), View(t, c.links)) && (Fine(s, c) ==> Fine(t, c))
  {
    TurnedBackSound(c, s.scene, id, s.core.crossings[id], t.core.crossings[id]);
    OneSwept(s, t, c, id);
    if Fine(s, c) {
      OneRecordFine(s, t, c, id);
    }
  }

  lemma OneSwept(s: System, t: System, c: Config, id: string)
    requires OneRecord(s, t, id)
    requires TurnsBack(SlotIn(c.links, s.core.crossings[id]), SlotIn(c.links, t.core.crossings[id]))
    ensures Sweep(View(s, c.links), View(t, c.links))
  {
    SlotsUpdate(c.links, s.core.crossings, id, t.core.crossings[id]);
  }

  // ---------- Core's answers ----------

  lemma SweepsOnly(s: System, t: System, c: Config)
    requires t.core.crossings == s.core.crossings && t.scene == s.scene
    requires forall region :: region in t.busy ==> region in s.busy && t.busy[region] == s.busy[region]
    ensures Step(View(s, c.links), View(t, c.links)) && (Fine(s, c) ==> Fine(t, c))
  {
    assert Sweep(View(s, c.links), View(t, c.links));
  }

  // What a counted report makes of a record, for the protocol and for the checks.
  lemma MovesIn(links: Links, r: Record, u: Record, kind: Kind, report: Report, numbers: Numbers)
    requires Moves(r, u, kind, report, numbers)
    ensures SameCrossing(u, r)
    ensures var a, b := SlotIn(links, r), SlotIn(links, u);
      || TurnsBack(a, b)
      || (report.ok && b == Advanced(a, kind, report.snapshot) && (kind.ExportSource? ==> report.snapshot != ""))
      || (!report.ok && kind.ImportDestination? && b == a.(state := RolledBack))
  {
    assert SlotOf(u).from == SlotOf(r).from && SlotOf(u).to == SlotOf(r).to;
  }

  lemma MovedSound(
    c: Config, scene: map<Key, string>, id: string, r: Record, u: Record, kind: Kind, report: Report)
    requires RecordSound(c, r) && CopyPassed(c, scene, id, r)
    requires Moves(r, u, kind, report, c.numbers) && r.state == StateFor(kind)
    requires kind.ExportSource? && report.ok ==>
      c.checks.owner(report.snapshot) == Some(r.owner) && SlotOf(r).to !in scene
    ensures RecordSound(c, u) && CopyPassed(c, scene, id, u)
  {
    MovesIn(map[], r, u, kind, report, c.numbers);
    if SlotOf(u) == SlotOf(r) || !kind.ExportSource? {
      assert u.snapshot == r.snapshot;
      assert ImportOf(id, u) == ImportOf(id, r);
    }
  }

  lemma AnsweredRecord(s: System, c: Config, home: map<string, Home>, region: string, cmd: Command)
    requires Good(s, c, home) && region in s.busy && s.busy[region].Replied? && s.busy[region].report.ok
    requires cmd.id == s.busy[region].cmd.id && cmd.kind == s.busy[region].cmd.kind && cmd.kind.ExportSource?
    requires cmd.id in s.core.crossings && s.core.crossings[cmd.id] == cmd.record && cmd.record.state == StateFor(cmd.kind)
    ensures c.checks.owner(s.busy[region].report.snapshot) == Some(cmd.record.owner) && SlotOf(cmd.record).to !in s.scene
  {
    assert TaskSound(c, s.core.crossings, s.busy[region]);
    assert Located(View(s, c.links).slots[cmd.id], s.scene);
  }

  lemma AnswerSteps(s: System, t: System, c: Config, region: string, cmd: Command)
    requires region in s.busy && s.busy[region].Replied? && t.scene == s.scene && t.busy == s.busy - {region}
    requires cmd.id == s.busy[region].cmd.id && cmd.kind == s.busy[region].cmd.kind
    requires cmd.id in s.core.crossings && s.core.crossings[cmd.id] == cmd.record && cmd.record.state == StateFor(cmd.kind)
    requires Answered(s.core.crossings, t.core.crossings, cmd, s.busy[region].report, c.numbers)
    ensures Step(View(s, c.links), View(t, c.links))
  {
    var u := t.core.crossings[cmd.id];
    SlotsUpdate(c.links, s.core.crossings, cmd.id, u);
    WorksUpdate(c.links, s.busy, region, s.busy[region]);
    MovesIn(c.links, cmd.record, u, cmd.kind, s.busy[region].report, c.numbers);
    SlotSteps(View(s, c.links), View(t, c.links), region, SlotIn(c.links, u));
  }

  lemma SlotSteps(w: World, v: World, region: string, u: Slot)
    requires region in w.busy && w.busy[region].Done? && v.scene == w.scene && v.busy == w.busy - {region}
    requires var o := w.busy[region].order; o.id in w.slots && w.slots[o.id].state == StateFor(o.kind) && v.slots == w.slots[o.id := u]
    requires var o, report := w.busy[region].order, w.busy[region].report;
      || TurnsBack(w.slots[o.id], u)
      || (report.ok && u == Advanced(w.slots[o.id], o.kind, report.snapshot) && (o.kind.ExportSource? ==> report.snapshot != ""))
      || (!report.ok && o.kind.ImportDestination? && u == w.slots[o.id].(state := RolledBack))
    ensures Step(w, v)
  {
    var o := w.busy[region].order;
    if TurnsBack(w.slots[o.id], u) {
      assert Sweep(w, v);
    } else if w.busy[region].report.ok {
      assert Commit(w, v, region);
    } else {
      assert Abandon(w, v, region);
    }
  }

  lemma AnswersKeeps(
    s: System, t: System, c: Config, home: map<string, Home>, region: string, owns: bool, expected: Option<Command>, now: int)
    requires Good(s, c, home) && Answers(s, t, c, region, owns, expected, now)
    ensures Step(View(s, c.links), View(t, c.links)) && Fine(t, c)
  {
    var task := s.busy[region];
    if owns && expected.Some? && expected.value.id == task.cmd.id && expected.value.kind == task.cmd.kind {
      var cmd := expected.value;
      DueState(cmd.record, region);
      RecordedAnswers(s.core, cmd, region, task.report, c.numbers, c.maxAttempts, now);
      AnswerSteps(s, t, c, region, cmd);
      if cmd.kind.ExportSource? && task.report.ok {
        AnsweredRecord(s, c, home, region, cmd);
      }
      var u := t.core.crossings[cmd.id];
      MovesIn(c.links, cmd.record, u, cmd.kind, task.report, c.numbers);
      MovedSound(c, s.scene, cmd.id, cmd.record, u, cmd.kind, task.report);
      OneRecordFine(s, t, c, cmd.id);
    } else {
      SweepsOnly(s, t, c);
    }
  }

  // ---------- rollback and maintenance ----------

  lemma RollbackTurnsBack(r: Record, owner: string, why: string, now: int)
    ensures TurnsRecordBack(r, RollbackReply(r, owner, why, now).record)
  {
  }

  lemma RollsBackKeeps(s: System, t: System, c: Config, id: string, owner: string, why: string, now: int)
    requires RollsBack(s, t, id, owner, why, now)
    ensures Step(View(s, c.links), View(t, c.links)) && (Fine(s, c) ==> Fine(t, c))
  {
    if id in s.core.crossings {
      RollbackTurnsBack(s.core.crossings[id], owner, if why == "" then "client-rollback" else Truncated(why), now);
      OneTurnedBack(s, t, c, id);
    } else {
      SweepsOnly(s, t, c);
    }
  }

  lemma ExpiryTurnsBack(r: Record, now: int)
    ensures TurnsRecordBack(r, Expired(r, now))
    ensures Purged(Expired(r, now), now) ==> Finished(SlotOf(r))
  {
  }

  // A maintenance pass turns back all expired crossings and forgets all old ones in one step.
  lemma MaintainsRefines(s: System, t: System, c: Config, now: int)
    requires Maintains(s, t, now)
    ensures Step(View(s, c.links), View(t, c.links))
  {
    var m := s.core.crossings;
    forall id | id in m
      ensures TurnsBack(SlotIn(c.links, m[id]), SlotIn(c.links, Expired(m[id], now)))
      ensures Purged(Expired(m[id], now), now) ==> Finished(SlotIn(c.links, m[id]))
    {
      ExpiryTurnsBack(m[id], now);
      TurnedBackSound(c, s.scene, id, m[id], Expired(m[id], now));
    }
    assert Sweep(View(s, c.links), View(t, c.links));
  }

  lemma MaintainsFine(s: System, t: System, c: Config, now: int)
    requires Maintains(s, t, now) && Fine(s, c)
    ensures Fine(t, c)
  {
    var m := s.core.crossings;
    forall id | id in t.core.crossings
      ensures RecordSound(c, t.core.crossings[id]) && CopyPassed(c, t.scene, id, t.core.crossings[id])
    {
      ExpiryTurnsBack(m[id], now);
      TurnedBackSound(c, s.scene, id, m[id], Expired(m[id], now));
    }
    forall region | region in t.busy ensures TaskSound(c, t.core.crossings, t.busy[region]) {
      var cmd := s.busy[region].cmd;
      assert TaskSound(c, m, s.busy[region]);
      if cmd.id in t.core.crossings {
        ExpiryTurnsBack(m[cmd.id], now);
      }
    }
  }

  // ---------- every step ----------

  lemma GoesRefines(s: System, t: System, c: Config, home: map<string, Home>)
    requires Good(s, c, home) && Goes(s, t, c)
    ensures Step(View(s, c.links), View(t, c.links)) && Fine(t, c)
  {
    if region, cmd :| Polls(s, t, region, cmd) {
      PollsKeeps(s, t, c, region, cmd);
    } else if region, room :| Acts(s, t, c, region, room) {
      ActsKeeps(s, t, c, home, region, room);
    } else if region, owns, expected, now :| Answers(s, t, c, region, owns, expected, now) {
      AnswersKeeps(s, t, c, home, region, owns, expected, now);
    } else if region :| Loses(s, t, region) {
      SweepsOnly(s, t, c);
    } else if id, owner, why, now :| RollsBack(s, t, id, owner, why, now) {
      RollsBackKeeps(s, t, c, id, owner, why, now);
    } else if now :| Maintains(s, t, now) {
      MaintainsRefines(s, t, c, now);
      MaintainsFine(s, t, c, now);
    } else {
      SweepsOnly(s, t, c);
    }
  }

  lemma GoesKeeps(s: System, t: System, c: Config, home: map<string, Home>) returns (after: map<string, Home>)
    requires Good(s, c, home) && Goes(s, t, c)
    ensures Good(t, c, after) && after.Keys == home.Keys
  {
    GoesRefines(s, t, c, home);
    after := StepKeeps(View(s, c.links), View(t, c.links), home);
  }

  lemma OpenedGood(
    s: System, t: System, c: Config, home: map<string, Home>,
    id: string, owner: string, from: Key, destination: string, now: int, expires: int)
    requires Good(s, c, home) && Prepares(s, t, c, id, owner, from, destination, now, expires)
    requires Untouched(s.core.crossings, c.links, Root(c.links, from))
    ensures Good(t, c, home)
  {
    OpensRefines(s, t, c, id, owner, from, destination, now, expires);
    OpenKeeps(View(s, c.links), View(t, c.links), id,
              SlotIn(c.links, NewRecord(id, owner, from.region, destination, from.entity, now, expires)), home);
    OpensKeeps(s, t, c, id, owner, from, destination, now, expires);
  }

  // ---------- safety of the running system ----------

  ghost predicate Start(s: System) {
    s.core.crossings == map[] && s.busy == map[] &&
    forall k, l :: k in s.scene && l in s.scene && k != l ==> s.scene[k] != s.scene[l]
  }

  ghost predicate Next(s: System, t: System, c: Config) { Goes(s, t, c) || Opens(s, t, c) }

  // The steps of a run in which no crossing is opened on a linkset that an unfinished crossing touches.
  ghost function Guarded(c: Config): (System, System) -> bool { (s: System, t: System) => Next(s, t, c) }

  lemma NextKeeps(s: System, t: System, c: Config, home: map<string, Home>) returns (after: map<string, Home>)
    requires Good(s, c, home) && Next(s, t, c)
    ensures Good(t, c, after) && after.Keys == home.Keys
  {
    if Goes(s, t, c) {
      after := GoesKeeps(s, t, c, home);
    } else {
      var id, owner, from, destination, now, expires :|
        Prepares(s, t, c, id, owner, from, destination, now, expires) && Untouched(s.core.crossings, c.links, Root(c.links, from));
      OpenedGood(s, t, c, home, id, owner, from, destination, now, expires);
      after := home;
    }
  }

  lemma StartGood(s: System, c: Config) returns (home: map<string, Home>)
    requires Start(s)
    ensures Good(s, c, home) && home.Keys == s.scene.Values
  {
    assert Initial(View(s, c.links));
    home := InitialSound(View(s, c.links));
  }

  // Some account of where linksets belong shows the state to be good.
  ghost predicate Lives(s: System, c: Config, linksets: set<string>) {
    exists home: map<string, Home> :: home.Keys == linksets && Good(s, c, home)
  }

  lemma NextLives(s: System, t: System, c: Config, linksets: set<string>)
    requires Lives(s, c, linksets) && Next(s, t, c)
    ensures Lives(t, c, linksets)
  {
    var home: map<string, Home> :| home.Keys == linksets && Good(s, c, home);
    var after := NextKeeps(s, t, c, home);
  }

  lemma ReachesLives(s: System, t: System, c: Config, linksets: set<string>)
    requires Lives(s, c, linksets) && Reaches(Guarded(c), s, t)
    ensures Lives(t, c, linksets)
  {
    forall a, b | Lives(a, c, linksets) && Guarded(c)(a, b) ensures Lives(b, c, linksets) {
      NextLives(a, b, c, linksets);
    }
    ReachesKeeps(Guarded(c), a => Lives(a, c, linksets), s, t);
  }

  // The state is reached from a start by guarded steps, and holds the linksets of the start.
  ghost predicate Reached(s: System, c: Config, linksets: set<string>) {
    exists start :: Start(start) && start.scene.Values == linksets && Reaches(Guarded(c), start, s)
  }

  lemma ReachedGood(s: System, c: Config, linksets: set<string>) returns (home: map<string, Home>)
    requires Reached(s, c, linksets)
    ensures Good(s, c, home) && home.Keys == linksets
  {
    var start :| Start(start) && start.scene.Values == linksets && Reaches(Guarded(c), start, s);
    var first := StartGood(start, c);
    ReachesLives(start, s, c, linksets);
    home :| home.Keys == linksets && Good(s, c, home);
  }

  // An unfinished crossing has taken the linkset up.
  ghost predicate CarriedIn(s: System, id: string, x: string) {
    id in s.core.crossings && Carrying(SlotOf(s.core.crossings[id])) && s.core.crossings[id].snapshot == x
  }

  lemma CarriedView(s: System, c: Config, id: string, x: string)
    ensures CarriedIn(s, id, x) <==> CarriedBy(View(s, c.links), id, x)
  {
  }

  // The guarantee to a user, over every run in which no crossing is opened on a linkset that an
  // unfinished crossing touches: a linkset is never lost, and is in exactly one place whenever no
  // crossing carries it.
  lemma CrossingSafety(s: System, c: Config, linksets: set<string>, x: string)
    requires Reached(s, c, linksets) && x in linksets
    ensures
      || x in s.scene.Values
      || exists id :: CarriedIn(s, id, x) && SnapshotHeld(SlotOf(s.core.crossings[id]))
    ensures (forall id :: !CarriedIn(s, id, x)) ==> exists k :: Holds(s.scene, k, x) && AloneAt(s.scene, k)
  {
    var home := ReachedGood(s, c, linksets);
    var w := View(s, c.links);
    Somewhere(w, home, x);
    if x !in s.scene.Values {
      var id :| CarriedBy(w, id, x) && SnapshotHeld(w.slots[id]);
      assert CarriedIn(s, id, x);
    }
    if forall id :: !CarriedIn(s, id, x) {
      forall id ensures !CarriedBy(w, id, x) {
        CarriedView(s, c, id, x);
      }
      var k := Settled(w, home, x);
      assert Holds(s.scene, k, x) && AloneAt(s.scene, k);
    }
  }

  // In every such run, the step that completes a crossing leaves its linkset at the destination and
  // nowhere else; the step that rolls one back leaves it at the source and nowhere else, if the
  // crossing had taken it up, and at the source or nowhere if it had not.
  lemma CrossingsEndInOnePlace(s: System, t: System, c: Config, linksets: set<string>, id: string)
    requires Reached(s, c, linksets) && Next(s, t, c) && id in s.core.crossings && id in t.core.crossings
    requires !Finished(SlotOf(s.core.crossings[id])) && Finished(SlotOf(t.core.crossings[id]))
    ensures var r, u := s.core.crossings[id], t.core.crossings[id];
      var from, to := SlotIn(c.links, u).from, SlotIn(c.links, u).to;
      if u.state.Completed? then Holds(t.scene, to, u.snapshot) && AloneAt(t.scene, to)
      else if Carrying(SlotOf(r)) then Holds(t.scene, from, u.snapshot) && AloneAt(t.scene, from)
      else to !in t.scene && (from in t.scene ==> AloneAt(t.scene, from))
  {
    var home := ReachedGood(s, c, linksets);
    if Goes(s, t, c) {
      GoesRefines(s, t, c, home);
      FinishedMeansPlaced(View(s, c.links), View(t, c.links), home, id);
    }
  }

  // ---------- every run, guarded or not ----------

  // Any step at all: crossings may be opened on any linkset.
  ghost predicate Happens(s: System, t: System, c: Config) {
    || Goes(s, t, c)
    || (exists id, owner, from, destination, now, expires :: Prepares(s, t, c, id, owner, from, destination, now, expires))
  }

  ghost function Happening(c: Config): (System, System) -> bool { (s: System, t: System) => Happens(s, t, c) }

  lemma AnswersKeepMaps(s: System, t: System, c: Config, region: string, owns: bool, expected: Option<Command>, now: int)
    requires MapsReadable(c.numbers, s.core.crossings) && Answers(s, t, c, region, owns, expected, now)
    ensures MapsReadable(c.numbers, t.core.crossings)
  {
    var task := s.busy[region];
    if owns && expected.Some? && expected.value.id == task.cmd.id && expected.value.kind == task.cmd.kind {
      DueState(expected.value.record, region);
      RecordedKeepsMaps(s.core, expected.value, region, task.report, c.numbers, c.maxAttempts, now);
    }
  }

  lemma TurnsBackKeepMaps(s: System, t: System, c: Config)
    requires MapsReadable(c.numbers, s.core.crossings)
    requires forall id :: id in t.core.crossings ==>
      id in s.core.crossings && TurnsRecordBack(s.core.crossings[id], t.core.crossings[id])
    ensures MapsReadable(c.numbers, t.core.crossings)
  {
    forall id | id in t.core.crossings && t.core.crossings[id].state.Imported?
      ensures EntityMap(c.numbers, t.core.crossings[id].entityMap).Some?
    {
      assert TurnsRecordBack(s.core.crossings[id], t.core.crossings[id]);
    }
  }

  lemma RollbackKeepsMaps(s: System, t: System, c: Config, id: string, owner: string, why: string, now: int)
    requires MapsReadable(c.numbers, s.core.crossings) && RollsBack(s, t, id, owner, why, now)
    ensures MapsReadable(c.numbers, t.core.crossings)
  {
    if id in s.core.crossings {
      RollbackTurnsBack(s.core.crossings[id], owner, if why == "" then "client-rollback" else Truncated(why), now);
    }
    TurnsBackKeepMaps(s, t, c);
  }

  lemma MaintenanceKeepsMaps(s: System, t: System, c: Config, now: int)
    requires MapsReadable(c.numbers, s.core.crossings) && Maintains(s, t, now)
    ensures MapsReadable(c.numbers, t.core.crossings)
  {
    var m := s.core.crossings;
    forall id | id in m ensures TurnsRecordBack(m[id], Expired(m[id], now)) {
      ExpiryTurnsBack(m[id], now);
    }
    TurnsBackKeepMaps(s, t, c);
  }

  lemma HappensKeepsMaps(s: System, t: System, c: Config)
    requires MapsReadable(c.numbers, s.core.crossings) && Happens(s, t, c)
    ensures MapsReadable(c.numbers, t.core.crossings)
  {
    if region, owns, expected, now :| Answers(s, t, c, region, owns, expected, now) {
      AnswersKeepMaps(s, t, c, region, owns, expected, now);
    } else if id, owner, why, now :| RollsBack(s, t, id, owner, why, now) {
      RollbackKeepsMaps(s, t, c, id, owner, why, now);
    } else if now :| Maintains(s, t, now) {
      MaintenanceKeepsMaps(s, t, c, now);
    }
  }

  // In every run, an imported record holds an entity map that Core can read.
  lemma MapsAlwaysReadable(start: System, s: System, c: Config)
    requires Start(start) && Reaches(Happening(c), start, s)
    ensures MapsReadable(c.numbers, s.core.crossings)
  {
    forall a: System, b: System | MapsReadable(c.numbers, a.core.crossings) && Happening(c)(a, b)
      ensures MapsReadable(c.numbers, b.core.crossings)
    {
      HappensKeepsMaps(a, b, c);
    }
    ReachesKeeps(Happening(c), (a: System) => MapsReadable(c.numbers, a.core.crossings), start, s);
  }
}
