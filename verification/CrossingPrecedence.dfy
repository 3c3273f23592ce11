// A later crossing on the linkset of an earlier one that is on its way back, or that goes to the same
// region: Core's oldest-first offer keeps the later one from the linkset until the earlier one is done.

module CrossingPrecedence {
  import opened Basics
  import opened ObjectCrossingStore
  import opened CrossingProtocol
  import opened CrossingRegion
  import opened CoreCrossings
  import opened CrossingSystem
  import opened CrossingExchange
  import opened CrossingQueue
  import opened CrossingWithout

  // ---------- what no step changes ----------

  lemma AnswerSame(m: Crossings, n: Crossings, cmd: Command, report: Report, c: Config, id: string)
    requires Answered(m, n, cmd, report, c.numbers) && id in n && cmd.id in m && m[cmd.id] == cmd.record
    requires cmd.record.state == StateFor(cmd.kind)
    ensures id in m && SameCrossing(n[id], m[id])
    ensures Finished(SlotOf(m[id])) ==> Finished(SlotOf(n[id]))
    ensures n[id].state.Prepared? ==> m[id].state.Prepared?
  {
    if id == cmd.id {
      MovesIn(map[], m[id], n[id], cmd.kind, report, c.numbers);
    }
  }

  lemma AnswersSame(
    s: System, t: System, c: Config, region: string, owns: bool, expected: Option<Command>, now: int, id: string)
    requires Answers(s, t, c, region, owns, expected, now) && id in t.core.crossings
    ensures id in s.core.crossings && SameCrossing(t.core.crossings[id], s.core.crossings[id])
    ensures Finished(SlotOf(s.core.crossings[id])) ==> Finished(SlotOf(t.core.crossings[id]))
    ensures t.core.crossings[id].state.Prepared? ==> s.core.crossings[id].state.Prepared?
  {
    var task := s.busy[region];
    if owns && expected.Some? && expected.value.id == task.cmd.id && expected.value.kind == task.cmd.kind {
      DueState(expected.value.record, region);
      RecordedAnswers(s.core, expected.value, region, task.report, c.numbers, c.maxAttempts, now);
      AnswerSame(s.core.crossings, t.core.crossings, expected.value, task.report, c, id);
    }
  }

  // A record that is there was there, as the same crossing; it neither comes back to life nor starts anew.
  lemma GoesSame(s: System, t: System, c: Config, id: string)
    requires Goes(s, t, c) && id in t.core.crossings
    ensures id in s.core.crossings && SameCrossing(t.core.crossings[id], s.core.crossings[id])
    ensures Finished(SlotOf(s.core.crossings[id])) ==> Finished(SlotOf(t.core.crossings[id]))
    ensures t.core.crossings[id].state.Prepared? ==> s.core.crossings[id].state.Prepared?
  {
    if region, owns, expected, now :| Answers(s, t, c, region, owns, expected, now) {
      AnswersSame(s, t, c, region, owns, expected, now, id);
    } else if other, owner, why, now :| RollsBack(s, t, other, owner, why, now) {
      RollsBackTurns(s, t, other, owner, why, now, id);
    } else if now :| Maintains(s, t, now) {
      MaintainsTurns(s, t, now, id);
    }
  }

  lemma RollsBackTurns(s: System, t: System, other: string, owner: string, why: string, now: int, id: string)
    requires RollsBack(s, t, other, owner, why, now) && id in t.core.crossings
    ensures id in s.core.crossings && TurnsRecordBack(s.core.crossings[id], t.core.crossings[id])
  {
    if other in s.core.crossings {
      RollbackTurnsBack(s.core.crossings[other], owner, if why == "" then "client-rollback" else Truncated(why), now);
    }
  }

  lemma MaintainsTurns(s: System, t: System, now: int, id: string)
    requires Maintains(s, t, now) && id in t.core.crossings
    ensures id in s.core.crossings && TurnsRecordBack(s.core.crossings[id], t.core.crossings[id])
  {
    ExpiryTurnsBack(s.core.crossings[id], now);
  }

  lemma GoesTouches(s: System, t: System, c: Config, id: string, q: Key)
    requires Goes(s, t, c) && Touches(t.core.crossings, c.links, id, q)
    ensures Touches(s.core.crossings, c.links, id, q)
  {
    GoesSame(s, t, c, id);
  }

  // A task in hand was in hand before, or is a command just offered, or has just been carried out.
  ghost predicate Offered(m: Crossings, region: string, task: Task) { task.Sent? && Offers(m, region, Some(task.cmd)) }

  lemma GoesTask(s: System, t: System, c: Config, region: string)
    requires Goes(s, t, c) && region in t.busy
    ensures
      || Offered(s.core.crossings, region, t.busy[region])
      || (region in s.busy && s.busy[region] == t.busy[region])
      || (exists room :: Acts(s, t, c, region, room))
  {
  }

  // Every region works at its own keys.
  ghost predicate InPlace(s: System, c: Config) {
    forall region :: region in s.busy ==> Target(c.links, OrderOf(s.busy[region].cmd)).region == region
  }

  // What a region has not acted on has not changed.
  lemma GoesElsewhere(s: System, t: System, c: Config, region: string, q: Key)
    requires Goes(s, t, c) && InPlace(s, c) && region in s.busy && region in t.busy && t.busy[region] == s.busy[region]
    requires q.region == region
    ensures SameAt(s.scene, t.scene, q)
  {
    if other, room :| Acts(s, t, c, other, room) {
      assert other != region;
    }
  }

  // The scene changes at the key of one command only, and not for an export.
  lemma GoesScene(s: System, t: System, c: Config, q: Key)
    requires Goes(s, t, c)
    requires forall region :: region in s.busy && Target(c.links, OrderOf(s.busy[region].cmd)) == q ==>
      s.busy[region].cmd.kind.ExportSource?
    ensures SameAt(s.scene, t.scene, q)
  {
    if region, room :| Acts(s, t, c, region, room) {
      PutBack(s.scene, Target(c.links, OrderOf(s.busy[region].cmd)));
    }
  }

  // ---------- two crossings ----------

  datatype Rivals = Rivals(a: string, ra: Record, b: string, rb: Record)

  function FromA(c: Config, v: Rivals): Key { SlotIn(c.links, v.ra).from }
  function ToA(c: Config, v: Rivals): Key { SlotIn(c.links, v.ra).to }
  function FromB(c: Config, v: Rivals): Key { SlotIn(c.links, v.rb).from }
  function ToB(c: Config, v: Rivals): Key { SlotIn(c.links, v.rb).to }

  // The later crossing b leaves from an end of the earlier crossing a; no other crossing is at their keys.
  ghost predicate Paired(m: Crossings, c: Config, v: Rivals) {
    && v.a != v.b && v.ra.created < v.rb.created
    && RecordSound(c, v.rb) && v.ra.source != v.ra.destination
    && Root(c.links, ToA(c, v)) == ToA(c, v) && Root(c.links, ToB(c, v)) == ToB(c, v)
    && (FromB(c, v) == FromA(c, v) || FromB(c, v) == ToA(c, v)) && ToB(c, v) != FromA(c, v) && ToB(c, v) != ToA(c, v)
    && (v.a in m ==> SameCrossing(m[v.a], v.ra)) && (v.b in m ==> SameCrossing(m[v.b], v.rb))
    && (forall q :: q in {FromA(c, v), ToA(c, v), ToB(c, v)} ==> Aside(m, c.links, {v.a, v.b}, q))
  }

  lemma GoesPaired(s: System, t: System, c: Config, v: Rivals)
    requires Goes(s, t, c) && Paired(s.core.crossings, c, v)
    ensures Paired(t.core.crossings, c, v)
  {
    var m, n := s.core.crossings, t.core.crossings;
    if v.a in n {
      GoesSame(s, t, c, v.a);
    }
    if v.b in n {
      GoesSame(s, t, c, v.b);
    }
    forall q | q in {FromA(c, v), ToA(c, v), ToB(c, v)} ensures Aside(n, c.links, {v.a, v.b}, q) {
      assert Aside(m, c.links, {v.a, v.b}, q);
      forall id | Touches(n, c.links, id, q) ensures id in {v.a, v.b} {
        GoesTouches(s, t, c, id, q);
      }
    }
  }

  // The earlier crossing's command for a region comes before the later one's.
  lemma EarlierBlocks(m: Crossings, c: Config, v: Rivals, region: string, cmd: Command)
    requires Paired(m, c, v) && v.a in m && cmd.id == v.b && Offers(m, region, Some(cmd))
    ensures Due(m[v.a], region).None?
  {
  }

  // ---------- the later crossing waits ----------

  // The earlier crossing keeps the later one waiting.
  predicate Before(c: Config, v: Rivals, state: State) {
    match state
    case RestorePending => true
    case CleanupPending => FromB(c, v) == ToA(c, v) || v.ra.destination == v.rb.destination
    case Imported => FromB(c, v) == FromA(c, v) && v.ra.destination == v.rb.destination
    case _ => false
  }

  // The later crossing has taken nothing up, and asks for nothing but its export.
  ghost predicate Idle(s: System, c: Config, v: Rivals) {
    && ToB(c, v) !in s.scene
    && (v.b in s.core.crossings ==>
          RecordSound(c, s.core.crossings[v.b]) && (s.core.crossings[v.b].state.Prepared? || s.core.crossings[v.b].state.RolledBack?))
    && forall region :: region in s.busy ==> IdleTask(s, c, v, region, s.busy[region])
  }

  ghost predicate IdleTask(s: System, c: Config, v: Rivals, region: string, task: Task) {
    if task.cmd.id == v.b then
      && task.cmd.kind.ExportSource? && TaskSound(c, s.core.crossings, task)
      && Place(OrderOf(task.cmd)).region == region && SameCrossing(task.cmd.record, v.rb)
      && (task.Replied? && task.report.ok ==> Holds(s.scene, FromB(c, v), task.report.snapshot))
    else Target(c.links, OrderOf(task.cmd)) != ToB(c, v)
  }

  ghost predicate Waiting(s: System, c: Config, linksets: set<string>, v: Rivals) {
    && Paired(s.core.crossings, c, v) && Idle(s, c, v)
    && Lives(Without(s, c.links, v.b, ToB(c, v)), c, linksets)
    && v.a in s.core.crossings && Before(c, v, s.core.crossings[v.a].state)
  }

  lemma LivesHome(s: System, c: Config, linksets: set<string>) returns (home: map<string, Home>)
    requires Lives(s, c, linksets)
    ensures Good(s, c, home) && home.Keys == linksets
  {
    home :| home.Keys == linksets && Good(s, c, home);
  }

  lemma LivesSound(s: System, c: Config, linksets: set<string>, id: string)
    requires Lives(s, c, linksets) && id in s.core.crossings
    ensures RecordSound(c, s.core.crossings[id]) && Located(SlotIn(c.links, s.core.crossings[id]), s.scene)
  {
    var home := LivesHome(s, c, linksets);
    assert Located(View(s, c.links).slots[id], s.scene);
  }

  lemma IdleNone(s: System, c: Config, linksets: set<string>, v: Rivals)
    requires Paired(s.core.crossings, c, v) && Lives(Without(s, c.links, v.b, ToB(c, v)), c, linksets)
    ensures NoneAt(s.core.crossings, c.links, v.b, ToB(c, v))
  {
    var m, u := s.core.crossings, Without(s, c.links, v.b, ToB(c, v));
    forall other | other in m && other != v.b ensures Root(c.links, SlotOf(m[other]).to) == SlotOf(m[other]).to {
      LivesSound(u, c, linksets, other);
    }
    assert Aside(m, c.links, {v.a, v.b}, ToB(c, v));
  }

  lemma IdleAloof(s: System, t: System, c: Config, v: Rivals)
    requires Idle(s, c, v)
    ensures Aloof(s, t, c, v.b, ToB(c, v))
  {
    forall region, room | Acts(s, t, c, region, room) && s.busy[region].cmd.id == v.b
      ensures t.scene - {ToB(c, v)} == s.scene - {ToB(c, v)}
    {
      assert IdleTask(s, c, v, region, s.busy[region]);
      PutBack(s.scene, Target(c.links, OrderOf(s.busy[region].cmd)));
    }
  }

  lemma IdlePasses(s: System, t: System, c: Config, linksets: set<string>, v: Rivals)
    requires Goes(s, t, c) && Paired(s.core.crossings, c, v) && Idle(s, c, v)
    requires Lives(Without(s, c.links, v.b, ToB(c, v)), c, linksets)
    ensures Passes(s, t, c, v.b, ToB(c, v)) && Lives(Without(t, c.links, v.b, ToB(c, v)), c, linksets)
  {
    IdleNone(s, c, linksets, v);
    IdleAloof(s, t, c, v);
    assert IdleAt(s, c.links, v.b, ToB(c, v)) by {
      forall region | region in s.busy ensures IdleTask(s, c, v, region, s.busy[region]) {
      }
    }
    GoesWithout(s, t, c, v.b, ToB(c, v));
    PassesLives(s, t, c, linksets, v.b, ToB(c, v));
  }

  // How a record goes on, seen by the others.
  lemma PassesNext(s: System, t: System, c: Config, linksets: set<string>, id: string, e: Key, other: string)
    requires Lives(Without(s, c.links, id, e), c, linksets) && Passes(s, t, c, id, e)
    requires other != id && other in s.core.crossings && !Finished(SlotOf(s.core.crossings[other]))
    ensures other in t.core.crossings && RecordNext(c, s.scene - {e}, other, s.core.crossings[other], t.core.crossings[other])
  {
    var u, w := Without(s, c.links, id, e), Without(t, c.links, id, e);
    if w != u {
      var home := LivesHome(u, c, linksets);
      GoesNext(u, w, c, home, other);
    }
    assert other in w.core.crossings;
  }

  // The later crossing's record goes on waiting, unless its export is answered.
  ghost predicate Taken(s: System, t: System, c: Config, v: Rivals) {
    exists region :: region in s.busy && s.busy[region].Replied? && s.busy[region].report.ok && s.busy[region].cmd.id == v.b
      && TakenFrom(s, t, c, v, region)
  }

  ghost predicate TakenFrom(s: System, t: System, c: Config, v: Rivals, region: string) {
    && region in s.busy && s.busy[region].Replied? && t.busy == s.busy - {region} && t.scene == s.scene
    && v.b in s.core.crossings && v.b in t.core.crossings && t.core.crossings == s.core.crossings[v.b := t.core.crossings[v.b]]
    && Offers(s.core.crossings, region, Some(Command(ExportSource, v.b, s.core.crossings[v.b])))
    && SlotOf(t.core.crossings[v.b]) == SlotOf(s.core.crossings[v.b]).(state := Exported, snapshot := s.busy[region].report.snapshot)
    && SameCrossing(t.core.crossings[v.b], s.core.crossings[v.b]) && 0 < |s.busy[region].report.snapshot| <= 256 * 1024
  }

  lemma AnswersIdle(
    s: System, t: System, c: Config, v: Rivals, region: string, owns: bool, expected: Option<Command>, now: int)
    requires Idle(s, c, v) && Answers(s, t, c, region, owns, expected, now) && v.b in s.core.crossings
    ensures v.b in t.core.crossings && SameCrossing(t.core.crossings[v.b], s.core.crossings[v.b])
    ensures var r, u := s.core.crossings[v.b], t.core.crossings[v.b];
      TurnsBack(SlotOf(r), SlotOf(u)) || Taken(s, t, c, v)
  {
    var task := s.busy[region];
    if owns && expected.Some? && expected.value.id == task.cmd.id && expected.value.kind == task.cmd.kind {
      DueState(expected.value.record, region);
      RecordedAnswers(s.core, expected.value, region, task.report, c.numbers, c.maxAttempts, now);
      if task.cmd.id == v.b {
        assert IdleTask(s, c, v, region, task);
        MovesIn(map[], expected.value.record, t.core.crossings[v.b], task.cmd.kind, task.report, c.numbers);
        assert TurnsBack(SlotOf(s.core.crossings[v.b]), SlotOf(t.core.crossings[v.b])) || TakenFrom(s, t, c, v, region);
      }
    }
  }

  lemma IdleRecord(s: System, t: System, c: Config, v: Rivals)
    requires Goes(s, t, c) && Idle(s, c, v) && v.b in t.core.crossings
    ensures v.b in s.core.crossings && (TurnsBack(SlotOf(s.core.crossings[v.b]), SlotOf(t.core.crossings[v.b])) || Taken(s, t, c, v))
  {
    GoesSame(s, t, c, v.b);
    if region, owns, expected, now :| Answers(s, t, c, region, owns, expected, now) {
      AnswersIdle(s, t, c, v, region, owns, expected, now);
    } else if other, owner, why, now :| RollsBack(s, t, other, owner, why, now) {
      RollsBackTurns(s, t, other, owner, why, now, v.b);
    } else if now :| Maintains(s, t, now) {
      MaintainsTurns(s, t, now, v.b);
    }
  }

  lemma WaitingInPlace(s: System, c: Config, linksets: set<string>, v: Rivals)
    requires Paired(s.core.crossings, c, v) && Idle(s, c, v) && Lives(Without(s, c.links, v.b, ToB(c, v)), c, linksets)
    ensures InPlace(s, c)
  {
    var u := Without(s, c.links, v.b, ToB(c, v));
    var home := LivesHome(u, c, linksets);
    var w := View(u, c.links);
    forall region | region in s.busy ensures Target(c.links, OrderOf(s.busy[region].cmd)).region == region {
      assert IdleTask(s, c, v, region, s.busy[region]);
      if s.busy[region].cmd.id != v.b {
        assert region in u.busy && Place(w.busy[region].order).region == region;
      }
    }
  }

  lemma IdleActed(s: System, t: System, c: Config, v: Rivals, region: string, room: bool)
    requires Acts(s, t, c, region, room) && s.busy[region].cmd.id == v.b && IdleTask(s, c, v, region, s.busy[region])
    ensures IdleTask(t, c, v, region, t.busy[region])
  {
    var cmd := s.busy[region].cmd;
    CarriedReport(Found(s.scene, FromB(c, v)), c, cmd, room);
    PutBack(s.scene, FromB(c, v));
    assert Target(c.links, OrderOf(cmd)) == FromB(c, v);
  }

  lemma IdleOffered(s: System, t: System, c: Config, v: Rivals, region: string)
    requires Goes(s, t, c) && Idle(s, c, v) && region in t.busy && t.busy[region].cmd.id == v.b
    requires Offered(s.core.crossings, region, t.busy[region]) && Paired(s.core.crossings, c, v)
    ensures IdleTask(t, c, v, region, t.busy[region])
  {
    var task := t.busy[region];
    DueState(task.cmd.record, region);
    if v.b in t.core.crossings {
      GoesSame(s, t, c, v.b);
    }
  }

  lemma IdleTaskKept(s: System, t: System, c: Config, v: Rivals, region: string)
    requires Goes(s, t, c) && Paired(s.core.crossings, c, v) && Idle(s, c, v) && region in t.busy
    requires InPlace(s, c) && NoneAt(s.core.crossings, c.links, v.b, ToB(c, v))
    ensures IdleTask(t, c, v, region, t.busy[region])
  {
    var task := t.busy[region];
    GoesTask(s, t, c, region);
    if Offered(s.core.crossings, region, task) {
      if task.cmd.id == v.b {
        IdleOffered(s, t, c, v, region);
      } else {
        OfferedElsewhere(s.core.crossings, c.links, v.b, ToB(c, v), region, task.cmd);
      }
    } else {
      assert IdleTask(s, c, v, region, s.busy[region]);
      if room :| Acts(s, t, c, region, room) {
        if task.cmd.id == v.b {
          IdleActed(s, t, c, v, region, room);
        }
      } else if task.cmd.id == v.b {
        IdleSame(s, t, c, v, region);
      }
    }
  }

  lemma IdleSame(s: System, t: System, c: Config, v: Rivals, region: string)
    requires Goes(s, t, c) && InPlace(s, c) && region in s.busy && region in t.busy && t.busy[region] == s.busy[region]
    requires s.busy[region].cmd.id == v.b && IdleTask(s, c, v, region, s.busy[region])
    ensures IdleTask(t, c, v, region, t.busy[region])
  {
    GoesElsewhere(s, t, c, region, FromB(c, v));
    if v.b in t.core.crossings {
      GoesSame(s, t, c, v.b);
    }
  }

  lemma IdleKept(s: System, t: System, c: Config, linksets: set<string>, v: Rivals)
    requires Goes(s, t, c) && Paired(s.core.crossings, c, v) && Idle(s, c, v) && !Taken(s, t, c, v)
    requires Lives(Without(s, c.links, v.b, ToB(c, v)), c, linksets)
    ensures Idle(t, c, v)
  {
    IdleNone(s, c, linksets, v);
    WaitingInPlace(s, c, linksets, v);
    IdleScene(s, t, c, v);
    forall region | region in t.busy ensures IdleTask(t, c, v, region, t.busy[region]) {
      IdleTaskKept(s, t, c, v, region);
    }
    if v.b in t.core.crossings {
      IdleRecord(s, t, c, v);
      GoesSame(s, t, c, v.b);
    }
  }

  lemma IdleScene(s: System, t: System, c: Config, v: Rivals)
    requires Goes(s, t, c) && Idle(s, c, v)
    ensures ToB(c, v) !in t.scene
  {
    forall region | region in s.busy && Target(c.links, OrderOf(s.busy[region].cmd)) == ToB(c, v)
      ensures s.busy[region].cmd.kind.ExportSource?
    {
      assert IdleTask(s, c, v, region, s.busy[region]);
    }
    GoesScene(s, t, c, ToB(c, v));
  }

  lemma BeforeNext(c: Config, v: Rivals, scene: map<Key, string>, r: Record, u: Record)
    requires RecordNext(c, scene, v.a, r, u) && Before(c, v, r.state)
    ensures Before(c, v, u.state) || Finished(SlotOf(u))
  {
  }

  lemma WaitingGoes(s: System, t: System, c: Config, linksets: set<string>, v: Rivals)
    requires Waiting(s, c, linksets, v) && Goes(s, t, c) && !Taken(s, t, c, v)
    ensures Paired(t.core.crossings, c, v) && Idle(t, c, v) && Lives(Without(t, c.links, v.b, ToB(c, v)), c, linksets)
    ensures v.a in t.core.crossings && (Before(c, v, t.core.crossings[v.a].state) || Finished(SlotOf(t.core.crossings[v.a])))
  {
    GoesPaired(s, t, c, v);
    IdleKept(s, t, c, linksets, v);
    IdlePasses(s, t, c, linksets, v);
    PassesNext(s, t, c, linksets, v.b, ToB(c, v), v.a);
    BeforeNext(c, v, s.scene - {ToB(c, v)}, s.core.crossings[v.a], t.core.crossings[v.a]);
  }

  // ---------- the earlier crossing is done, and the later one has taken nothing ----------

  lemma SceneWithout(scene: map<Key, string>, e: Key)
    requires e !in scene
    ensures scene - {e} == scene
  {
  }

  lemma RejoinSlots(s: System, c: Config, v: Rivals)
    requires Paired(s.core.crossings, c, v) && Idle(s, c, v) && v.b in s.core.crossings
    ensures var u, b := Without(s, c.links, v.b, ToB(c, v)), SlotIn(c.links, s.core.crossings[v.b]);
      && Slots(c.links, s.core.crossings) == Slots(c.links, u.core.crossings)[v.b := b]
      && v.b !in u.core.crossings && u.scene == s.scene
      && b.from == FromB(c, v) && b.to == ToB(c, v) && (b.state.Prepared? || b.state.RolledBack?)
  {
    SceneWithout(s.scene, ToB(c, v));
  }

  lemma RejoinApart(s: System, c: Config, v: Rivals)
    requires Paired(s.core.crossings, c, v) && Idle(s, c, v) && v.b in s.core.crossings
    requires v.a in s.core.crossings && Finished(SlotOf(s.core.crossings[v.a]))
    requires Apart(Slots(c.links, Without(s, c.links, v.b, ToB(c, v)).core.crossings))
    ensures Apart(Slots(c.links, s.core.crossings))
  {
    var m, slots := s.core.crossings, Slots(c.links, s.core.crossings);
    RejoinSlots(s, c, v);
    forall id | id in slots && id != v.b && !Finished(slots[id]) ensures KeysApart(slots[id], slots[v.b]) {
      assert id != v.a;
      assert Aside(m, c.links, {v.a, v.b}, FromB(c, v)) && Aside(m, c.links, {v.a, v.b}, ToB(c, v));
      assert !Touches(m, c.links, id, FromB(c, v)) && !Touches(m, c.links, id, ToB(c, v));
    }
    assert slots[v.b].from.region != slots[v.b].to.region;
  }

  lemma RejoinFits(s: System, c: Config, v: Rivals)
    requires Paired(s.core.crossings, c, v) && Idle(s, c, v)
    requires AllFit(View(Without(s, c.links, v.b, ToB(c, v)), c.links))
    ensures AllFit(View(s, c.links))
  {
    var u := Without(s, c.links, v.b, ToB(c, v));
    var w, x := View(u, c.links), View(s, c.links);
    SceneWithout(s.scene, ToB(c, v));
    forall region | region in x.busy
      ensures Place(x.busy[region].order).region == region && Fits(x.busy[region], x.slots, x.scene)
    {
      assert IdleTask(s, c, v, region, s.busy[region]);
      if s.busy[region].cmd.id == v.b {
        IdleFits(s, c, v, region);
      } else {
        assert region in w.busy && Fits(w.busy[region], w.slots, w.scene);
        FitsMore(w, x, v.b, w.busy[region]);
      }
    }
  }

  lemma IdleFits(s: System, c: Config, v: Rivals, region: string)
    requires Paired(s.core.crossings, c, v) && region in s.busy && s.busy[region].cmd.id == v.b
    requires IdleTask(s, c, v, region, s.busy[region])
    ensures var work := WorkOf(c.links, s.busy[region]);
      Place(work.order).region == region && Fits(work, Slots(c.links, s.core.crossings), s.scene)
  {
  }

  lemma FitsMore(w: World, x: World, id: string, work: Work)
    requires Fits(work, w.slots, w.scene) && work.order.id != id && x.scene == w.scene
    requires work.order.id in x.slots <==> work.order.id in w.slots
    requires work.order.id in w.slots ==> x.slots[work.order.id] == w.slots[work.order.id]
    ensures Fits(work, x.slots, x.scene)
  {
  }

  lemma RejoinHomes(w: World, x: World, id: string, slot: Slot, home: map<string, Home>)
    requires Homes(w, home) && x.scene == w.scene && id !in w.slots && x.slots == w.slots[id := slot] && !Carrying(slot)
    ensures Homes(x, home)
  {
  }

  lemma RejoinFine(s: System, c: Config, v: Rivals)
    requires Paired(s.core.crossings, c, v) && Idle(s, c, v)
    requires Fine(Without(s, c.links, v.b, ToB(c, v)), c)
    ensures Fine(s, c)
  {
    var u := Without(s, c.links, v.b, ToB(c, v));
    SceneWithout(s.scene, ToB(c, v));
    forall id | id in s.core.crossings
      ensures RecordSound(c, s.core.crossings[id]) && CopyPassed(c, s.scene, id, s.core.crossings[id])
    {
      assert id != v.b ==> id in u.core.crossings;
    }
    forall region | region in s.busy ensures TaskSound(c, s.core.crossings, s.busy[region]) {
      assert IdleTask(s, c, v, region, s.busy[region]);
      if s.busy[region].cmd.id != v.b {
        assert region in u.busy && TaskSound(c, u.core.crossings, u.busy[region]);
      }
    }
  }

  lemma RejoinGood(s: System, c: Config, home: map<string, Home>, v: Rivals)
    requires Paired(s.core.crossings, c, v) && Idle(s, c, v) && v.b in s.core.crossings
    requires v.a in s.core.crossings && Finished(SlotOf(s.core.crossings[v.a]))
    requires Good(Without(s, c.links, v.b, ToB(c, v)), c, home)
    ensures Good(s, c, home)
  {
    var w, x := View(Without(s, c.links, v.b, ToB(c, v)), c.links), View(s, c.links);
    RejoinSlots(s, c, v);
    RejoinApart(s, c, v);
    RejoinFits(s, c, v);
    RejoinHomes(w, x, v.b, SlotIn(c.links, s.core.crossings[v.b]), home);
    RejoinFine(s, c, v);
    RejoinLocated(w, x, v.b, home);
  }

  lemma RejoinLocated(w: World, x: World, id: string, home: map<string, Home>)
    requires Sound(w, home) && id !in w.slots && id in x.slots && x.slots == w.slots[id := x.slots[id]] && x.scene == w.scene
    requires Located(x.slots[id], x.scene)
    ensures AllLocated(x)
  {
    forall other | other in x.slots ensures Located(x.slots[other], x.scene) {
      assert other != id ==> Located(w.slots[other], w.scene);
    }
  }

  lemma RejoinForgotten(s: System, c: Config, home: map<string, Home>, v: Rivals)
    requires Paired(s.core.crossings, c, v) && Idle(s, c, v) && v.b !in s.core.crossings
    requires Good(Without(s, c.links, v.b, ToB(c, v)), c, home)
    ensures Good(s, c, home)
  {
    var w, x := View(Without(s, c.links, v.b, ToB(c, v)), c.links), View(s, c.links);
    SceneWithout(s.scene, ToB(c, v));
    assert s.core.crossings - {v.b} == s.core.crossings;
    assert x.slots == w.slots && x.scene == w.scene;
    RejoinFits(s, c, v);
    RejoinFine(s, c, v);
    SoundSame(w, x, home);
  }

  lemma SoundSame(w: World, x: World, home: map<string, Home>)
    requires Sound(w, home) && x.slots == w.slots && x.scene == w.scene && AllFit(x)
    ensures Sound(x, home)
  {
  }

  // The earlier crossing is finished: the later one is now like any other.
  lemma Rejoin(s: System, c: Config, linksets: set<string>, v: Rivals)
    requires Paired(s.core.crossings, c, v) && Idle(s, c, v)
    requires v.a in s.core.crossings && Finished(SlotOf(s.core.crossings[v.a]))
    requires Lives(Without(s, c.links, v.b, ToB(c, v)), c, linksets)
    ensures Lives(s, c, linksets)
  {
    var home := LivesHome(Without(s, c.links, v.b, ToB(c, v)), c, linksets);
    if v.b in s.core.crossings {
      RejoinGood(s, c, home, v);
    } else {
      RejoinForgotten(s, c, home, v);
    }
  }

  // ---------- the later crossing takes the linkset up while the earlier one is cleaned up ----------

  ghost predicate Following(s: System, c: Config, linksets: set<string>, v: Rivals) {
    && Paired(s.core.crossings, c, v) && FromB(c, v) == FromA(c, v) && v.ra.destination == v.rb.destination
    && Lives(Without(s, c.links, v.a, ToA(c, v)), c, linksets) && IdleAt(s, c.links, v.a, ToA(c, v))
    && if v.a in s.core.crossings && !Finished(SlotOf(s.core.crossings[v.a])) then WayBack(s, c, linksets, v)
       else ToA(c, v) !in s.scene && forall region :: region in s.busy && s.busy[region].cmd.id == v.a ==> s.busy[region].cmd.kind.ExportSource?
  }

  // The earlier crossing is on its way back, and its linkset stays at its source.
  ghost predicate WayBack(s: System, c: Config, linksets: set<string>, v: Rivals)
    requires v.a in s.core.crossings
  {
    var m := s.core.crossings;
    && Lives(Without(s, c.links, v.b, ToB(c, v)), c, linksets)
    && (m[v.a].state.CleanupPending? || m[v.a].state.RestorePending?)
    && Holds(s.scene, FromA(c, v), m[v.a].snapshot)
    && (m[v.a].state.CleanupPending? && v.b in m ==> !m[v.b].state.Imported? && !m[v.b].state.RestorePending?)
    && forall region :: region in s.busy ==> BackTask(c, v, s.busy[region])
  }

  ghost predicate BackTask(c: Config, v: Rivals, task: Task) {
    if task.cmd.id == v.a then !task.cmd.kind.RemoveSource? && Target(c.links, OrderOf(task.cmd)) != ToB(c, v)
    else if task.cmd.id == v.b then !task.cmd.kind.RemoveSource? && !task.cmd.kind.RestoreSource?
    else Target(c.links, OrderOf(task.cmd)) != ToB(c, v)
  }

  lemma SameEnds(c: Config, r: Record, u: Record)
    requires SameCrossing(r, u)
    ensures SlotIn(c.links, r).from == SlotIn(c.links, u).from && SlotIn(c.links, r).to == SlotIn(c.links, u).to
    ensures SlotIn(c.links, r).from.region == r.source && SlotIn(c.links, r).to.region == r.destination
  {
  }

  // It can do so in one situation only.
  lemma TakenWhen(s: System, t: System, c: Config, linksets: set<string>, v: Rivals, region: string)
    requires Waiting(s, c, linksets, v) && TakenFrom(s, t, c, v, region)
    requires s.busy[region].cmd.id == v.b && s.busy[region].report.ok
    ensures var r, x := s.core.crossings[v.a], s.busy[region].report.snapshot;
      && r.state.CleanupPending? && r.snapshot == x && Holds(s.scene, FromA(c, v), x)
      && FromB(c, v) == FromA(c, v) && v.ra.destination == v.rb.destination
      && region == v.rb.source == v.ra.source
  {
    var m, u := s.core.crossings, Without(s, c.links, v.b, ToB(c, v));
    SameEnds(c, m[v.a], v.ra);
    SameEnds(c, m[v.b], v.rb);
    LivesSound(u, c, linksets, v.a);
    assert IdleTask(s, c, v, region, s.busy[region]);
    EarlierBlocks(m, c, v, region, Command(ExportSource, v.b, m[v.b]));
    assert region == v.rb.source;
  }

  // The later crossing takes the earlier one's place.
  lemma SwapFits(w: World, y: World, a: string, b: string, p: Key)
    requires Apart(w.slots) && AllFit(w) && a in w.slots && b !in w.slots && b in y.slots && !Finished(w.slots[a])
    requires w.slots[a].to == p && y.slots == (w.slots - {a})[b := y.slots[b]] && y.scene == w.scene - {p}
    requires forall region :: region in y.busy ==>
      region in w.busy && y.busy[region] == w.busy[region] && w.busy[region].order.id != a && w.busy[region].order.id != b
    ensures AllFit(y)
  {
    forall region | region in y.busy
      ensures Place(y.busy[region].order).region == region && Fits(y.busy[region], y.slots, y.scene)
    {
      var o := w.busy[region].order;
      assert Fits(w.busy[region], w.slots, w.scene);
      if o.id in w.slots && !Finished(w.slots[o.id]) {
        assert KeysApart(w.slots[o.id], w.slots[a]);
      }
    }
  }

  lemma SwapHomes(w: World, y: World, home: map<string, Home>, a: string, b: string)
    requires Homes(w, home) && a in w.slots && b !in w.slots && b in y.slots && w.slots[a].state.CleanupPending?
    requires y.slots == (w.slots - {a})[b := y.slots[b]] && y.scene == w.scene - {w.slots[a].to}
    requires Located(w.slots[a], w.scene)
    requires var d := y.slots[b]; d.state.Exported? && d.from == w.slots[a].from && d.snapshot == w.slots[a].snapshot
    ensures Homes(y, home[w.slots[a].snapshot := With(b)])
  {
    var x := w.slots[a].snapshot;
    var after := home[x := With(b)];
    assert home[x] == With(a);
    forall k | k in y.scene ensures y.scene[k] in after && CopyAllowed(after[y.scene[k]], k, y.slots) {
      assert CopyAllowed(home[w.scene[k]], k, w.slots);
      if w.scene[k] != x {
        assert Kept(w.scene[k], home[w.scene[k]], w.slots, w.scene);
      }
    }
    forall z | z in after ensures Kept(z, after[z], y.slots, y.scene) {
      if z != x {
        assert Kept(z, home[z], w.slots, w.scene);
      }
    }
  }

  lemma SwapLocated(w: World, y: World, a: string, b: string)
    requires Apart(w.slots) && AllLocated(w) && a in w.slots && b !in w.slots && b in y.slots && !Finished(w.slots[a])
    requires y.slots == (w.slots - {a})[b := y.slots[b]] && y.scene == w.scene - {w.slots[a].to}
    requires Located(y.slots[b], y.scene)
    ensures AllLocated(y)
  {
    forall id | id in y.slots ensures Located(y.slots[id], y.scene) {
      if id != b {
        assert Located(w.slots[id], w.scene);
        assert !Finished(w.slots[id]) ==> KeysApart(w.slots[id], w.slots[a]);
      }
    }
  }

  lemma SwapApart(w: World, y: World, a: string, b: string)
    requires Apart(w.slots) && a in w.slots && b !in w.slots && b in y.slots && !Finished(w.slots[a])
    requires y.slots == (w.slots - {a})[b := y.slots[b]]
    requires var d := y.slots[b];
      && d.from == w.slots[a].from && d.from.region != d.to.region
      && forall id :: id in w.slots && id != a && !Finished(w.slots[id]) ==> w.slots[id].from != d.to && w.slots[id].to != d.to
    ensures Apart(y.slots)
  {
    forall id | id in w.slots && id != a && !Finished(w.slots[id]) ensures KeysApart(w.slots[id], y.slots[b]) {
      assert KeysApart(w.slots[id], w.slots[a]);
    }
  }

  lemma SwapSound(w: World, y: World, home: map<string, Home>, a: string, b: string)
    requires Sound(w, home) && a in w.slots && b !in w.slots && b in y.slots && w.slots[a].state.CleanupPending?
    requires y.slots == (w.slots - {a})[b := y.slots[b]] && y.scene == w.scene - {w.slots[a].to}
    requires forall region :: region in y.busy ==>
      region in w.busy && y.busy[region] == w.busy[region] && w.busy[region].order.id != a && w.busy[region].order.id != b
    requires var d := y.slots[b];
      && d.state.Exported? && d.from == w.slots[a].from && d.from.region != d.to.region
      && d.snapshot == w.slots[a].snapshot && Holds(w.scene, d.from, d.snapshot) && d.to !in w.scene
      && forall id :: id in w.slots && id != a && !Finished(w.slots[id]) ==> w.slots[id].from != d.to && w.slots[id].to != d.to
    ensures Sound(y, home[w.slots[a].snapshot := With(b)])
  {
    SwapApart(w, y, a, b);
    assert Located(w.slots[a], w.scene);
    SwapLocated(w, y, a, b);
    SwapFits(w, y, a, b, w.slots[a].to);
    SwapHomes(w, y, home, a, b);
  }

  // What is left in hand when the export has been answered.
  lemma TakenTasks(s: System, t: System, c: Config, linksets: set<string>, v: Rivals, region: string)
    requires Waiting(s, c, linksets, v) && TakenFrom(s, t, c, v, region)
    requires region == v.rb.source == v.ra.source && s.core.crossings[v.a].state.CleanupPending?
    ensures forall other :: other in t.busy ==> t.busy[other].cmd.id != v.b && BackTask(c, v, t.busy[other])
    ensures forall other :: other in t.busy && t.busy[other].cmd.id != v.a && Target(c.links, OrderOf(t.busy[other].cmd)) == ToA(c, v) ==>
      Overtaken(t.core.crossings, t.busy[other].cmd)
  {
    var u := Without(s, c.links, v.b, ToB(c, v));
    var home := LivesHome(u, c, linksets);
    var w := View(u, c.links);
    forall other | other in t.busy
      ensures t.busy[other].cmd.id != v.b && BackTask(c, v, t.busy[other])
      ensures t.busy[other].cmd.id != v.a && Target(c.links, OrderOf(t.busy[other].cmd)) == ToA(c, v) ==>
        Overtaken(t.core.crossings, t.busy[other].cmd)
    {
      TakenTask(s, t, c, u, home, v, region, other);
    }
  }

  lemma TakenTask(
    s: System, t: System, c: Config, u: System, home: map<string, Home>, v: Rivals, region: string, other: string)
    requires Paired(s.core.crossings, c, v) && Idle(s, c, v) && v.a in s.core.crossings && TakenFrom(s, t, c, v, region)
    requires u == Without(s, c.links, v.b, ToB(c, v)) && Good(u, c, home)
    requires region == v.rb.source == v.ra.source && other in t.busy && v.a in u.core.crossings
    ensures t.busy[other].cmd.id != v.b && BackTask(c, v, t.busy[other])
    ensures t.busy[other].cmd.id != v.a && Target(c.links, OrderOf(t.busy[other].cmd)) == ToA(c, v) ==>
      Overtaken(t.core.crossings, t.busy[other].cmd)
  {
    assert IdleTask(s, c, v, other, s.busy[other]);
    if s.busy[other].cmd.id == v.a {
      OwnPlace(u, c, home, other);
    } else if s.busy[other].cmd.id != v.b {
      ForeignTask(s.core.crossings, c, v, u, home, other, ToA(c, v));
    }
  }

  lemma InHand(u: System, c: Config, home: map<string, Home>, region: string)
    requires Good(u, c, home) && region in u.busy
    ensures Place(WorkOf(c.links, u.busy[region]).order).region == region
    ensures Fits(WorkOf(c.links, u.busy[region]), Slots(c.links, u.core.crossings), u.scene)
    ensures TaskSound(c, u.core.crossings, u.busy[region])
  {
    var w := View(u, c.links);
    assert Place(w.busy[region].order).region == region && Fits(w.busy[region], w.slots, w.scene);
  }

  // A removal is in the hands of the source region.
  lemma OwnPlace(u: System, c: Config, home: map<string, Home>, region: string)
    requires Good(u, c, home) && region in u.busy && u.busy[region].cmd.id in u.core.crossings
    ensures u.busy[region].cmd.kind.RemoveSource? ==> region == u.core.crossings[u.busy[region].cmd.id].source
  {
    InHand(u, c, home, region);
  }

  // A command about a key of the two that is neither's is an old export.
  lemma ForeignTask(m: Crossings, c: Config, v: Rivals, u: System, home: map<string, Home>, region: string, q: Key)
    requires Paired(m, c, v) && u.core.crossings == m - {v.b} && Good(u, c, home) && region in u.busy
    requires u.busy[region].cmd.id != v.a && u.busy[region].cmd.id != v.b && q in {FromA(c, v), ToA(c, v), ToB(c, v)}
    ensures Target(c.links, OrderOf(u.busy[region].cmd)) == q ==> Overtaken(m, u.busy[region].cmd)
  {
    var cmd := u.busy[region].cmd;
    InHand(u, c, home, region);
    assert Aside(m, c.links, {v.a, v.b}, q);
    assert !Touches(m, c.links, cmd.id, q);
    ForeignFits(m, c, u.core.crossings, u.busy[region], u.scene, q);
  }

  lemma ForeignFits(m: Crossings, c: Config, n: Crossings, task: Task, scene: map<Key, string>, e: Key)
    requires Fits(WorkOf(c.links, task), Slots(c.links, n), scene) && TaskSound(c, n, task)
    requires (task.cmd.id in n <==> task.cmd.id in m) && (task.cmd.id in n ==> n[task.cmd.id] == m[task.cmd.id])
    requires !Touches(m, c.links, task.cmd.id, e)
    ensures Target(c.links, OrderOf(task.cmd)) == e ==> Overtaken(m, task.cmd)
  {
  }

  ghost predicate Swapped(m: Crossings, n: Crossings, c: Config, v: Rivals, x: string) {
    && v.a in m && v.b in n && n == m[v.b := n[v.b]] && Paired(m, c, v)
    && m[v.a].state.CleanupPending? && m[v.a].snapshot == x && FromB(c, v) == FromA(c, v)
    && SameCrossing(n[v.b], v.rb) && n[v.b].state.Exported? && n[v.b].snapshot == x
  }

  lemma SwapView(m: Crossings, n: Crossings, c: Config, v: Rivals, x: string)
    requires Swapped(m, n, c, v, x)
    ensures var before, after := Slots(c.links, m - {v.b}), Slots(c.links, n - {v.a});
      && v.a in before && v.b !in before && v.b in after && after == (before - {v.a})[v.b := after[v.b]]
      && before[v.a].from == FromA(c, v) && before[v.a].to == ToA(c, v)
      && after[v.b] == Slot(Exported, FromA(c, v), ToB(c, v), x) && after[v.b].from.region != after[v.b].to.region
      && forall id :: id in before && id != v.a && !Finished(before[id]) ==> before[id].from != ToB(c, v) && before[id].to != ToB(c, v)
  {
    SameEnds(c, m[v.a], v.ra);
    SameEnds(c, n[v.b], v.rb);
    var before, after := Slots(c.links, m - {v.b}), Slots(c.links, n - {v.a});
    assert Aside(m, c.links, {v.a, v.b}, ToB(c, v));
    forall id | id in before && id != v.a && !Finished(before[id])
      ensures before[id].from != ToB(c, v) && before[id].to != ToB(c, v)
    {
      assert !Touches(m, c.links, id, ToB(c, v));
    }
    assert after == (before - {v.a})[v.b := after[v.b]];
  }

  // The later crossing has taken the linkset up: what the others see is a swap.
  ghost predicate Takes(s: System, t: System, c: Config, v: Rivals, x: string) {
    && Swapped(s.core.crossings, t.core.crossings, c, v, x) && t.scene == s.scene
    && Idle(s, c, v) && Holds(s.scene, FromA(c, v), x) && RecordSound(c, t.core.crossings[v.b])
    && (forall region :: region in t.busy ==>
          region in s.busy && t.busy[region] == s.busy[region] && t.busy[region].cmd.id != v.b)
  }

  lemma TakenBusy(s: System, t: System, c: Config, v: Rivals, x: string, region: string)
    requires Takes(s, t, c, v, x) && region in Without(t, c.links, v.a, ToA(c, v)).busy
    ensures var u, z := Without(s, c.links, v.b, ToB(c, v)), Without(t, c.links, v.a, ToA(c, v));
      region in u.busy && z.busy[region] == u.busy[region] && z.busy[region].cmd.id != v.a && z.busy[region].cmd.id != v.b
  {
    assert IdleTask(s, c, v, region, s.busy[region]);
  }

  lemma TakenSound(s: System, t: System, c: Config, home: map<string, Home>, v: Rivals, x: string)
    requires Takes(s, t, c, v, x) && Sound(View(Without(s, c.links, v.b, ToB(c, v)), c.links), home)
    ensures Sound(View(Without(t, c.links, v.a, ToA(c, v)), c.links), home[x := With(v.b)])
  {
    var u, z := Without(s, c.links, v.b, ToB(c, v)), Without(t, c.links, v.a, ToA(c, v));
    var w, y := View(u, c.links), View(z, c.links);
    SceneWithout(s.scene, ToB(c, v));
    SwapView(s.core.crossings, t.core.crossings, c, v, x);
    forall region | region in y.busy
      ensures region in w.busy && y.busy[region] == w.busy[region]
      ensures w.busy[region].order.id != v.a && w.busy[region].order.id != v.b
    {
      TakenBusy(s, t, c, v, x, region);
    }
    SwapSound(w, y, home, v.a, v.b);
  }

  lemma TakenTasksSound(s: System, t: System, c: Config, v: Rivals, x: string)
    requires Takes(s, t, c, v, x) && TasksSound(Without(s, c.links, v.b, ToB(c, v)), c)
    ensures TasksSound(Without(t, c.links, v.a, ToA(c, v)), c)
  {
    var u, z := Without(s, c.links, v.b, ToB(c, v)), Without(t, c.links, v.a, ToA(c, v));
    forall region | region in z.busy ensures TaskSound(c, z.core.crossings, z.busy[region]) {
      TakenBusy(s, t, c, v, x, region);
      assert TaskSound(c, u.core.crossings, u.busy[region]);
    }
  }

  lemma TakenFine(s: System, t: System, c: Config, v: Rivals, x: string)
    requires Takes(s, t, c, v, x) && Fine(Without(s, c.links, v.b, ToB(c, v)), c)
    ensures Fine(Without(t, c.links, v.a, ToA(c, v)), c)
  {
    var u, z := Without(s, c.links, v.b, ToB(c, v)), Without(t, c.links, v.a, ToA(c, v));
    SceneWithout(s.scene, ToB(c, v));
    forall id | id in z.core.crossings
      ensures RecordSound(c, z.core.crossings[id]) && CopyPassed(c, z.scene, id, z.core.crossings[id])
    {
      if id != v.b {
        assert id in u.core.crossings && CopyPassed(c, u.scene, id, u.core.crossings[id]);
      }
    }
    TakenTasksSound(s, t, c, v, x);
  }

  lemma TakenRecord(s: System, t: System, c: Config, v: Rivals, region: string)
    requires Paired(s.core.crossings, c, v) && Idle(s, c, v) && TakenFrom(s, t, c, v, region)
    requires s.busy[region].cmd.id == v.b && s.busy[region].report.ok
    ensures RecordSound(c, t.core.crossings[v.b])
  {
    assert IdleTask(s, c, v, region, s.busy[region]);
  }

  lemma TakenTakes(s: System, t: System, c: Config, linksets: set<string>, v: Rivals, region: string)
    requires Waiting(s, c, linksets, v) && TakenFrom(s, t, c, v, region)
    requires s.busy[region].cmd.id == v.b && s.busy[region].report.ok
    requires forall other :: other in t.busy ==> t.busy[other].cmd.id != v.b
    ensures Takes(s, t, c, v, s.busy[region].report.snapshot)
  {
    TakenWhen(s, t, c, linksets, v, region);
    TakenRecord(s, t, c, v, region);
  }

  lemma TakenGood(s: System, t: System, c: Config, home: map<string, Home>, v: Rivals, x: string)
    requires Takes(s, t, c, v, x) && Good(Without(s, c.links, v.b, ToB(c, v)), c, home)
    ensures Lives(Without(t, c.links, v.a, ToA(c, v)), c, home.Keys)
  {
    TakenSound(s, t, c, home, v, x);
    TakenFine(s, t, c, v, x);
    CarriedHome(Without(s, c.links, v.b, ToB(c, v)), c, home, v.a);
    LivesBy(Without(t, c.links, v.a, ToA(c, v)), c, home.Keys, home[x := With(v.b)]);
  }

  lemma TakenLives(s: System, t: System, c: Config, linksets: set<string>, v: Rivals, x: string)
    requires Takes(s, t, c, v, x) && Lives(Without(s, c.links, v.b, ToB(c, v)), c, linksets)
    ensures Lives(Without(t, c.links, v.a, ToA(c, v)), c, linksets)
  {
    var home := LivesHome(Without(s, c.links, v.b, ToB(c, v)), c, linksets);
    TakenGood(s, t, c, home, v, x);
  }

  lemma LivesBy(s: System, c: Config, linksets: set<string>, home: map<string, Home>)
    requires Good(s, c, home) && home.Keys == linksets
    ensures Lives(s, c, linksets)
  {
  }

  lemma CarriedHome(s: System, c: Config, home: map<string, Home>, id: string)
    requires Good(s, c, home) && id in s.core.crossings && Carrying(SlotOf(s.core.crossings[id]))
    ensures s.core.crossings[id].snapshot in home
  {
    assert Carrying(View(s, c.links).slots[id]);
  }

  lemma TakenFollows(s: System, t: System, c: Config, linksets: set<string>, v: Rivals, region: string)
    requires Waiting(s, c, linksets, v) && Goes(s, t, c) && TakenFrom(s, t, c, v, region)
    requires s.busy[region].cmd.id == v.b && s.busy[region].report.ok
    ensures Following(t, c, linksets, v)
  {
    var x := s.busy[region].report.snapshot;
    TakenWhen(s, t, c, linksets, v, region);
    TakenTasks(s, t, c, linksets, v, region);
    TakenTakes(s, t, c, linksets, v, region);
    TakenLives(s, t, c, linksets, v, x);
    IdlePasses(s, t, c, linksets, v);
    GoesPaired(s, t, c, v);
    TakenNone(t, c, linksets, v);
    FollowingStarts(s, t, c, linksets, v, x);
  }

  lemma FollowingStarts(s: System, t: System, c: Config, linksets: set<string>, v: Rivals, x: string)
    requires Takes(s, t, c, v, x) && Paired(t.core.crossings, c, v) && v.ra.destination == v.rb.destination
    requires Lives(Without(t, c.links, v.a, ToA(c, v)), c, linksets) && Lives(Without(t, c.links, v.b, ToB(c, v)), c, linksets)
    requires NoneAt(t.core.crossings, c.links, v.a, ToA(c, v))
    requires forall other :: other in t.busy ==> BackTask(c, v, t.busy[other])
    requires forall other :: other in t.busy && t.busy[other].cmd.id != v.a && Target(c.links, OrderOf(t.busy[other].cmd)) == ToA(c, v) ==>
      Overtaken(t.core.crossings, t.busy[other].cmd)
    ensures Following(t, c, linksets, v)
  {
  }

  lemma TakenNone(t: System, c: Config, linksets: set<string>, v: Rivals)
    requires Paired(t.core.crossings, c, v) && FromB(c, v) == FromA(c, v)
    requires Lives(Without(t, c.links, v.b, ToB(c, v)), c, linksets)
    ensures NoneAt(t.core.crossings, c.links, v.a, ToA(c, v))
  {
    var m := t.core.crossings;
    IdleNone(t, c, linksets, v);
    assert Aside(m, c.links, {v.a, v.b}, ToA(c, v));
    if v.b in m {
      SameEnds(c, m[v.b], v.rb);
    }
  }

  // ---------- and follows it ----------

  lemma IdleAtKept(s: System, t: System, c: Config, id: string, e: Key)
    requires Goes(s, t, c) && IdleAt(s, c.links, id, e)
    ensures IdleAt(t, c.links, id, e)
  {
    var m, n := s.core.crossings, t.core.crossings;
    forall other | other in n && other != id ensures Root(c.links, SlotOf(n[other]).to) == SlotOf(n[other]).to {
      GoesSame(s, t, c, other);
    }
    forall other | Touches(n, c.links, other, e) ensures other == id {
      GoesTouches(s, t, c, other, e);
    }
    forall region | region in t.busy && t.busy[region].cmd.id != id && Target(c.links, OrderOf(t.busy[region].cmd)) == e
      ensures Overtaken(n, t.busy[region].cmd)
    {
      IdleTaskStays(s, t, c, id, e, region);
    }
  }

  lemma IdleTaskStays(s: System, t: System, c: Config, id: string, e: Key, region: string)
    requires Goes(s, t, c) && IdleAt(s, c.links, id, e)
    requires region in t.busy && t.busy[region].cmd.id != id && Target(c.links, OrderOf(t.busy[region].cmd)) == e
    ensures Overtaken(t.core.crossings, t.busy[region].cmd)
  {
    var cmd := t.busy[region].cmd;
    GoesTask(s, t, c, region);
    if Offered(s.core.crossings, region, t.busy[region]) {
      OfferedElsewhere(s.core.crossings, c.links, id, e, region, cmd);
    }
    if cmd.id in t.core.crossings {
      GoesSame(s, t, c, cmd.id);
    }
  }

  // The two crossings' commands are about their own ends.
  lemma OwnTarget(s: System, c: Config, linksets: set<string>, id: string, r: Record, other: string, e: Key, region: string)
    requires Lives(Without(s, c.links, other, e), c, linksets) && id != other
    requires region in s.busy && s.busy[region].cmd.id == id && Target(c.links, OrderOf(s.busy[region].cmd)) != e
    requires id in s.core.crossings ==> SameCrossing(s.core.crossings[id], r)
    ensures var cmd := s.busy[region].cmd;
      !cmd.kind.ExportSource? ==>
        && id in s.core.crossings && cmd.record.snapshot == s.core.crossings[id].snapshot
        && Target(c.links, OrderOf(cmd)) == (if AtSource(cmd.kind) then SlotIn(c.links, r).from else SlotIn(c.links, r).to)
  {
    var u := Without(s, c.links, other, e);
    var home := LivesHome(u, c, linksets);
    InHand(u, c, home, region);
  }

  // A command that is an export, or about the key, or restores what is there, changes nothing elsewhere.
  lemma ActsThere(s: System, t: System, c: Config, region: string, room: bool, e: Key)
    requires Acts(s, t, c, region, room)
    requires var cmd := s.busy[region].cmd; var k := Target(c.links, OrderOf(cmd));
      cmd.kind.ExportSource? || k == e || (cmd.kind.RestoreSource? && Holds(s.scene, k, cmd.record.snapshot))
    ensures t.scene - {e} == s.scene - {e}
  {
    PutBack(s.scene, Target(c.links, OrderOf(s.busy[region].cmd)));
  }

  lemma BackAloofB(s: System, t: System, c: Config, linksets: set<string>, v: Rivals)
    requires Paired(s.core.crossings, c, v) && Lives(Without(s, c.links, v.a, ToA(c, v)), c, linksets)
    requires IdleAt(s, c.links, v.a, ToA(c, v)) && forall region :: region in s.busy ==> BackTask(c, v, s.busy[region])
    ensures Aloof(s, t, c, v.b, ToB(c, v))
  {
    forall region, room | Acts(s, t, c, region, room) && s.busy[region].cmd.id == v.b
      ensures t.scene - {ToB(c, v)} == s.scene - {ToB(c, v)}
    {
      assert BackTask(c, v, s.busy[region]);
      if !s.busy[region].cmd.kind.ExportSource? {
        OwnTarget(s, c, linksets, v.b, v.rb, v.a, ToA(c, v), region);
      }
      ActsThere(s, t, c, region, room, ToB(c, v));
    }
  }

  lemma BackAloofA(s: System, t: System, c: Config, linksets: set<string>, v: Rivals)
    requires Paired(s.core.crossings, c, v) && Lives(Without(s, c.links, v.b, ToB(c, v)), c, linksets)
    requires v.a in s.core.crossings && Holds(s.scene, FromA(c, v), s.core.crossings[v.a].snapshot)
    requires forall region :: region in s.busy ==> BackTask(c, v, s.busy[region])
    ensures Aloof(s, t, c, v.a, ToA(c, v))
  {
    forall region, room | Acts(s, t, c, region, room) && s.busy[region].cmd.id == v.a
      ensures t.scene - {ToA(c, v)} == s.scene - {ToA(c, v)}
    {
      assert BackTask(c, v, s.busy[region]);
      OwnTarget(s, c, linksets, v.a, v.ra, v.b, ToB(c, v), region);
      ActsThere(s, t, c, region, room, ToA(c, v));
    }
  }

  lemma BackPasses(s: System, t: System, c: Config, linksets: set<string>, v: Rivals)
    requires Goes(s, t, c) && Paired(s.core.crossings, c, v)
    requires Lives(Without(s, c.links, v.b, ToB(c, v)), c, linksets) && Aloof(s, t, c, v.b, ToB(c, v))
    requires forall region :: region in s.busy ==> BackTask(c, v, s.busy[region])
    ensures Passes(s, t, c, v.b, ToB(c, v)) && Lives(Without(t, c.links, v.b, ToB(c, v)), c, linksets)
  {
    IdleNone(s, c, linksets, v);
    forall region | region in s.busy ensures BackTask(c, v, s.busy[region]) {
    }
    GoesWithout(s, t, c, v.b, ToB(c, v));
    PassesLives(s, t, c, linksets, v.b, ToB(c, v));
  }

  lemma OnPasses(s: System, t: System, c: Config, linksets: set<string>, id: string, e: Key)
    requires Goes(s, t, c) && IdleAt(s, c.links, id, e) && Aloof(s, t, c, id, e)
    requires Lives(Without(s, c.links, id, e), c, linksets)
    ensures Lives(Without(t, c.links, id, e), c, linksets)
  {
    GoesWithout(s, t, c, id, e);
    PassesLives(s, t, c, linksets, id, e);
  }

  // The linkset stays at the source while the earlier crossing is on its way back.
  lemma BackHolds(s: System, t: System, c: Config, linksets: set<string>, v: Rivals)
    requires Goes(s, t, c) && Paired(s.core.crossings, c, v) && FromB(c, v) == FromA(c, v)
    requires Lives(Without(s, c.links, v.b, ToB(c, v)), c, linksets)
    requires Aloof(s, t, c, v.a, ToA(c, v)) && Aloof(s, t, c, v.b, ToB(c, v))
    requires forall region :: region in s.busy ==> BackTask(c, v, s.busy[region])
    ensures SameAt(s.scene, t.scene, FromA(c, v))
  {
    if region, room :| Acts(s, t, c, region, room) {
      assert BackTask(c, v, s.busy[region]);
      if s.busy[region].cmd.id == v.a {
        SceneBeside(s.scene, t.scene, ToA(c, v), FromA(c, v));
      } else if s.busy[region].cmd.id == v.b {
        SceneBeside(s.scene, t.scene, ToB(c, v), FromA(c, v));
      } else {
        BackForeign(s, c, linksets, v, region);
        ActsBeside(s, t, c, region, room, FromA(c, v));
      }
    } else {
      GoesQuiet(s, t, c);
    }
  }

  lemma GoesQuiet(s: System, t: System, c: Config)
    requires Goes(s, t, c) && forall region, room :: !Acts(s, t, c, region, room)
    ensures t.scene == s.scene
  {
  }

  lemma ActsBeside(s: System, t: System, c: Config, region: string, room: bool, q: Key)
    requires Acts(s, t, c, region, room)
    requires var cmd := s.busy[region].cmd; Target(c.links, OrderOf(cmd)) == q ==> cmd.kind.ExportSource?
    ensures SameAt(s.scene, t.scene, q)
  {
    PutBack(s.scene, Target(c.links, OrderOf(s.busy[region].cmd)));
  }

  lemma SceneBeside(scene: map<Key, string>, after: map<Key, string>, e: Key, q: Key)
    requires q != e
    ensures after - {e} == scene - {e} ==> SameAt(scene, after, q)
  {
    assert (q in scene <==> q in scene - {e}) && (q in after <==> q in after - {e});
    assert q in scene ==> scene[q] == (scene - {e})[q];
    assert q in after ==> after[q] == (after - {e})[q];
  }

  lemma BackForeign(s: System, c: Config, linksets: set<string>, v: Rivals, region: string)
    requires Paired(s.core.crossings, c, v) && Lives(Without(s, c.links, v.b, ToB(c, v)), c, linksets)
    requires region in s.busy && s.busy[region].cmd.id != v.a && s.busy[region].cmd.id != v.b && BackTask(c, v, s.busy[region])
    ensures Target(c.links, OrderOf(s.busy[region].cmd)) == FromA(c, v) ==> s.busy[region].cmd.kind.ExportSource?
  {
    var u := Without(s, c.links, v.b, ToB(c, v));
    var home := LivesHome(u, c, linksets);
    ForeignTask(s.core.crossings, c, v, u, home, region, FromA(c, v));
  }

  // While the earlier crossing's cleanup is due, the later one's import and cleanup are not offered.
  lemma BackLater(s: System, t: System, c: Config, v: Rivals)
    requires Goes(s, t, c) && Paired(s.core.crossings, c, v) && v.ra.destination == v.rb.destination
    requires v.a in s.core.crossings && s.core.crossings[v.a].state.CleanupPending? && v.b in t.core.crossings
    requires var r := s.core.crossings; v.b in r ==> !r[v.b].state.Imported? && !r[v.b].state.RestorePending?
    ensures !t.core.crossings[v.b].state.Imported? && !t.core.crossings[v.b].state.RestorePending?
  {
    GoesSame(s, t, c, v.b);
    if region, owns, expected, now :| Answers(s, t, c, region, owns, expected, now) {
      BackAnswered(s, t, c, v, region, owns, expected, now);
    } else if other, owner, why, now :| RollsBack(s, t, other, owner, why, now) {
      RollsBackTurns(s, t, other, owner, why, now, v.b);
    } else if now :| Maintains(s, t, now) {
      MaintainsTurns(s, t, now, v.b);
    }
  }

  lemma BackAnswered(
    s: System, t: System, c: Config, v: Rivals, region: string, owns: bool, expected: Option<Command>, now: int)
    requires Answers(s, t, c, region, owns, expected, now)
    requires Paired(s.core.crossings, c, v) && v.ra.destination == v.rb.destination
    requires v.a in s.core.crossings && s.core.crossings[v.a].state.CleanupPending?
    requires v.b in s.core.crossings && v.b in t.core.crossings
    requires var r := s.core.crossings[v.b]; !r.state.Imported? && !r.state.RestorePending?
    ensures !t.core.crossings[v.b].state.Imported? && !t.core.crossings[v.b].state.RestorePending?
  {
    var task := s.busy[region];
    if owns && expected.Some? && expected.value.id == task.cmd.id && expected.value.kind == task.cmd.kind {
      DueState(expected.value.record, region);
      RecordedAnswers(s.core, expected.value, region, task.report, c.numbers, c.maxAttempts, now);
      if task.cmd.id == v.b {
        EarlierBlocks(s.core.crossings, c, v, region, expected.value);
        DueWhere(expected.value.record, region);
        MovesIn(map[], expected.value.record, t.core.crossings[v.b], task.cmd.kind, task.report, c.numbers);
      }
    }
  }

  lemma BackTaskKept(s: System, t: System, c: Config, v: Rivals, region: string)
    requires Goes(s, t, c) && Paired(s.core.crossings, c, v) && FromB(c, v) == FromA(c, v) && region in t.busy
    requires forall other :: other in s.busy ==> BackTask(c, v, s.busy[other])
    requires v.a in s.core.crossings && (s.core.crossings[v.a].state.CleanupPending? || s.core.crossings[v.a].state.RestorePending?)
    requires var m := s.core.crossings;
      m[v.a].state.CleanupPending? && v.b in m ==> !m[v.b].state.Imported? && !m[v.b].state.RestorePending?
    requires NoneAt(s.core.crossings, c.links, v.b, ToB(c, v))
    ensures BackTask(c, v, t.busy[region])
  {
    var m, task := s.core.crossings, t.busy[region];
    GoesTask(s, t, c, region);
    if Offered(m, region, task) {
      DueState(task.cmd.record, region);
      if task.cmd.id == v.a {
        SameEnds(c, m[v.a], v.ra);
        OwnKeys(c, task.cmd);
      } else if task.cmd.id == v.b {
        EarlierBlocks(m, c, v, region, task.cmd);
        DueWhere(task.cmd.record, region);
      } else {
        OfferedElsewhere(m, c.links, v.b, ToB(c, v), region, task.cmd);
      }
    } else {
      assert BackTask(c, v, s.busy[region]);
    }
  }

  lemma OwnKeys(c: Config, cmd: Command)
    requires Root(c.links, SlotOf(cmd.record).to) == SlotOf(cmd.record).to
    ensures var k := Target(c.links, OrderOf(cmd)); k == SlotIn(c.links, cmd.record).from || k == SlotIn(c.links, cmd.record).to
  {
  }

  lemma BackRecord(c: Config, scene: map<Key, string>, id: string, r: Record, u: Record)
    requires RecordNext(c, scene, id, r, u) && (r.state.CleanupPending? || r.state.RestorePending?)
    ensures u.state.CleanupPending? ==> r.state.CleanupPending?
    ensures u.state.RolledBack? || ((u.state.CleanupPending? || u.state.RestorePending?) && u.snapshot == r.snapshot)
    ensures u.state.RolledBack? ==> r.state.RestorePending?
  {
  }

  // The earlier crossing's last step leaves nothing at its destination, and no command of its own in hand.
  lemma BackEnds(s: System, t: System, c: Config, linksets: set<string>, v: Rivals)
    requires Goes(s, t, c) && Paired(s.core.crossings, c, v)
    requires v.a in s.core.crossings && s.core.crossings[v.a].state.RestorePending?
    requires Lives(Without(s, c.links, v.b, ToB(c, v)), c, linksets)
    requires v.a in t.core.crossings && Finished(SlotOf(t.core.crossings[v.a]))
    ensures ToA(c, v) !in t.scene
  {
    BackCleaned(s, c, linksets, v);
    GoesCore(s, t, c);
  }

  lemma BackCleaned(s: System, c: Config, linksets: set<string>, v: Rivals)
    requires Paired(s.core.crossings, c, v) && v.a in s.core.crossings && s.core.crossings[v.a].state.RestorePending?
    requires Lives(Without(s, c.links, v.b, ToB(c, v)), c, linksets)
    ensures ToA(c, v) !in s.scene
  {
    SameEnds(c, s.core.crossings[v.a], v.ra);
    LivesSound(Without(s, c.links, v.b, ToB(c, v)), c, linksets, v.a);
    assert ToA(c, v) !in s.scene - {ToB(c, v)};
  }

  // A step that changes records changes no scene.
  lemma GoesCore(s: System, t: System, c: Config)
    requires Goes(s, t, c)
    ensures t.core == s.core || t.scene == s.scene
  {
  }

  lemma BackExports(t: System, c: Config, linksets: set<string>, v: Rivals)
    requires Lives(Without(t, c.links, v.b, ToB(c, v)), c, linksets) && v.a != v.b
    requires v.a in t.core.crossings && Finished(SlotOf(t.core.crossings[v.a]))
    requires forall region :: region in t.busy ==> BackTask(c, v, t.busy[region])
    ensures forall region :: region in t.busy && t.busy[region].cmd.id == v.a ==> t.busy[region].cmd.kind.ExportSource?
  {
    forall region | region in t.busy && t.busy[region].cmd.id == v.a ensures t.busy[region].cmd.kind.ExportSource? {
      assert BackTask(c, v, t.busy[region]);
      FinishedExports(Without(t, c.links, v.b, ToB(c, v)), c, linksets, region);
    }
  }

  lemma FinishedExports(u: System, c: Config, linksets: set<string>, region: string)
    requires Lives(u, c, linksets) && region in u.busy && u.busy[region].cmd.id in u.core.crossings
    requires Finished(SlotOf(u.core.crossings[u.busy[region].cmd.id]))
    ensures u.busy[region].cmd.kind.ExportSource?
  {
    var home := LivesHome(u, c, linksets);
    InHand(u, c, home, region);
  }

  lemma FollowingBack(s: System, t: System, c: Config, linksets: set<string>, v: Rivals)
    requires Goes(s, t, c) && Following(s, c, linksets, v)
    requires v.a in s.core.crossings && !Finished(SlotOf(s.core.crossings[v.a]))
    ensures Following(t, c, linksets, v)
  {
    var m, n := s.core.crossings, t.core.crossings;
    GoesPaired(s, t, c, v);
    IdleAtKept(s, t, c, v.a, ToA(c, v));
    BackAloofA(s, t, c, linksets, v);
    BackAloofB(s, t, c, linksets, v);
    OnPasses(s, t, c, linksets, v.a, ToA(c, v));
    BackPasses(s, t, c, linksets, v);
    BackHolds(s, t, c, linksets, v);
    PassesNext(s, t, c, linksets, v.b, ToB(c, v), v.a);
    BackRecord(c, s.scene - {ToB(c, v)}, v.a, m[v.a], n[v.a]);
    IdleNone(s, c, linksets, v);
    forall region | region in t.busy ensures BackTask(c, v, t.busy[region]) {
      BackTaskKept(s, t, c, v, region);
    }
    if Finished(SlotOf(n[v.a])) {
      BackEnds(s, t, c, linksets, v);
      BackExports(t, c, linksets, v);
    } else if n[v.a].state.CleanupPending? && v.b in n {
      BackLater(s, t, c, v);
    }
  }

  lemma OnAloof(s: System, t: System, c: Config, v: Rivals)
    requires forall region :: region in s.busy && s.busy[region].cmd.id == v.a ==> s.busy[region].cmd.kind.ExportSource?
    ensures Aloof(s, t, c, v.a, ToA(c, v))
  {
    forall region, room | Acts(s, t, c, region, room) && s.busy[region].cmd.id == v.a
      ensures t.scene - {ToA(c, v)} == s.scene - {ToA(c, v)}
    {
      ActsThere(s, t, c, region, room, ToA(c, v));
    }
  }

  lemma OnTasks(s: System, t: System, c: Config, v: Rivals)
    requires Goes(s, t, c) && (v.a in s.core.crossings ==> Finished(SlotOf(s.core.crossings[v.a])))
    requires forall region :: region in s.busy && s.busy[region].cmd.id == v.a ==> s.busy[region].cmd.kind.ExportSource?
    ensures forall region :: region in t.busy && t.busy[region].cmd.id == v.a ==> t.busy[region].cmd.kind.ExportSource?
  {
    forall region | region in t.busy && t.busy[region].cmd.id == v.a ensures t.busy[region].cmd.kind.ExportSource? {
      GoesTask(s, t, c, region);
    }
  }

  lemma FollowingOn(s: System, t: System, c: Config, linksets: set<string>, v: Rivals)
    requires Goes(s, t, c) && Following(s, c, linksets, v)
    requires v.a in s.core.crossings ==> Finished(SlotOf(s.core.crossings[v.a]))
    ensures Following(t, c, linksets, v)
  {
    GoesPaired(s, t, c, v);
    IdleAtKept(s, t, c, v.a, ToA(c, v));
    OnAloof(s, t, c, v);
    OnPasses(s, t, c, linksets, v.a, ToA(c, v));
    GoesScene(s, t, c, ToA(c, v));
    if v.a in t.core.crossings {
      GoesSame(s, t, c, v.a);
    }
    OnTasks(s, t, c, v);
  }

  // ---------- over a run ----------

  ghost predicate Spared(s: System, c: Config, linksets: set<string>, v: Rivals) {
    Lives(s, c, linksets) || Waiting(s, c, linksets, v) || Following(s, c, linksets, v)
  }

  lemma WaitingNext(s: System, t: System, c: Config, linksets: set<string>, v: Rivals)
    requires Waiting(s, c, linksets, v) && Goes(s, t, c)
    ensures Spared(t, c, linksets, v)
  {
    if Taken(s, t, c, v) {
      var region :| region in s.busy && s.busy[region].Replied? && s.busy[region].report.ok && s.busy[region].cmd.id == v.b
        && TakenFrom(s, t, c, v, region);
      TakenFollows(s, t, c, linksets, v, region);
    } else {
      WaitingGoes(s, t, c, linksets, v);
      if Finished(SlotOf(t.core.crossings[v.a])) {
        Rejoin(t, c, linksets, v);
      }
    }
  }

  lemma SparedNext(s: System, t: System, c: Config, linksets: set<string>, v: Rivals)
    requires Spared(s, c, linksets, v) && Goes(s, t, c)
    ensures Spared(t, c, linksets, v)
  {
    if Lives(s, c, linksets) {
      NextLives(s, t, c, linksets);
    } else if Waiting(s, c, linksets, v) {
      WaitingNext(s, t, c, linksets, v);
    } else if v.a in s.core.crossings && !Finished(SlotOf(s.core.crossings[v.a])) {
      FollowingBack(s, t, c, linksets, v);
    } else {
      FollowingOn(s, t, c, linksets, v);
    }
  }
}
