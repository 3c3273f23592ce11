// Time over whole runs: a crossing keeps its time limit, maintenance before it leaves the crossing alone,
// and maintenance after it turns the crossing back for good.

module CrossingTimes {
  import opened Basics
  import opened ObjectCrossingStore
  import opened CrossingProtocol
  import opened CrossingRegion
  import opened CoreCrossings
  import opened CrossingRecords
  import opened CrossingSystem

  // On its way back, or back.
  predicate Back(r: Record) { r.state.CleanupPending? || r.state.RestorePending? || r.state.RolledBack? }

  // What no step does to a record: give it another time limit, send it forward again once it is on its
  // way back, or take it back once it is completed.
  predicate Keeps(r: Record, u: Record) {
    SameCrossing(u, r) && u.expires == r.expires && (Back(r) ==> Back(u)) && (r.state.Completed? ==> u.state.Completed?)
  }

  // Every record that is still there is one that was, and kept so.
  ghost predicate TableKeeps(m: Crossings, n: Crossings) { forall id :: id in n ==> id in m && Keeps(m[id], n[id]) }

  // ---------- one step ----------

  lemma ForwardKeeps(r: Record, region: string, snapshot: string, entity: nat, entityMap: string, now: int)
    ensures Keeps(r, ExportReply(r, region, snapshot, now).record)
    ensures Keeps(r, ImportReply(r, region, entity, entityMap, now).record)
    ensures Keeps(r, RemoveReply(r, region, now).record)
  {
  }

  lemma BackwardKeeps(r: Record, region: string, now: int)
    ensures Keeps(r, CleanupReply(r, region).record)
    ensures Keeps(r, RestoreReply(r, region, now).record)
  {
  }

  lemma RejectionKeeps(r: Record, kind: Kind, error: string, max: nat, now: int)
    ensures Keeps(r, RejectReply(r, kind, error, max, now).record)
  {
  }

  lemma RollbackKeeps(r: Record, owner: string, why: string, now: int)
    ensures Keeps(r, RollbackReply(r, owner, why, now).record)
  {
  }

  lemma ExpiryKeeps(r: Record, now: int)
    ensures Keeps(r, Expired(r, now))
  {
  }

  lemma AppliedKeeps(m: Crossings, id: string, reply: Reply)
    requires id in m && Keeps(m[id], reply.record)
    ensures TableKeeps(m, Applied(m, id, reply).crossings)
  {
  }

  lemma AdvanceKeeps(core: CoreState, cmd: Command, region: string, r: Report, c: Config, now: int)
    requires r.ok && cmd.id in core.crossings && (cmd.kind.ExportSource? || cmd.kind.ImportDestination? || cmd.kind.RemoveSource?)
    ensures TableKeeps(core.crossings, Recorded(core, cmd, region, r, c.numbers, c.maxAttempts, now).after.crossings)
  {
    var m := core.crossings;
    ForwardKeeps(m[cmd.id], region, r.snapshot, r.entity, r.entityMap, now);
    match cmd.kind
    case ExportSource => AppliedKeeps(m, cmd.id, ExportReply(m[cmd.id], region, r.snapshot, now));
    case ImportDestination => AppliedKeeps(m, cmd.id, ImportReply(m[cmd.id], region, r.entity, r.entityMap, now));
    case RemoveSource => AppliedKeeps(m, cmd.id, RemoveReply(m[cmd.id], region, now));
  }

  lemma ReturnKeeps(core: CoreState, cmd: Command, region: string, r: Report, c: Config, now: int)
    requires r.ok && cmd.id in core.crossings && (cmd.kind.CleanupDestination? || cmd.kind.RestoreSource?)
    ensures TableKeeps(core.crossings, Recorded(core, cmd, region, r, c.numbers, c.maxAttempts, now).after.crossings)
  {
    var m := core.crossings;
    BackwardKeeps(m[cmd.id], region, now);
    match cmd.kind
    case CleanupDestination => AppliedKeeps(m, cmd.id, CleanupReply(m[cmd.id], region));
    case RestoreSource => AppliedKeeps(m, cmd.id, RestoreReply(m[cmd.id], region, now));
  }

  lemma RecordedKeepsTime(core: CoreState, cmd: Command, region: string, r: Report, c: Config, now: int)
    ensures TableKeeps(core.crossings, Recorded(core, cmd, region, r, c.numbers, c.maxAttempts, now).after.crossings)
  {
    if cmd.id in core.crossings {
      if r.ok && (cmd.kind.CleanupDestination? || cmd.kind.RestoreSource?) {
        ReturnKeeps(core, cmd, region, r, c, now);
      } else if r.ok {
        AdvanceKeeps(core, cmd, region, r, c, now);
      } else {
        var m := core.crossings;
        RejectionKeeps(m[cmd.id], cmd.kind, RejectError(r.error), c.maxAttempts, now);
        AppliedKeeps(m, cmd.id, RejectReply(m[cmd.id], cmd.kind, RejectError(r.error), c.maxAttempts, now));
      }
    }
  }

  lemma AnswersKeepTime(s: System, t: System, c: Config, region: string, owns: bool, expected: Option<Command>, now: int)
    requires Answers(s, t, c, region, owns, expected, now)
    ensures TableKeeps(s.core.crossings, t.core.crossings)
  {
    var task := s.busy[region];
    if owns && expected.Some? && expected.value.id == task.cmd.id && expected.value.kind == task.cmd.kind {
      RecordedKeepsTime(s.core, expected.value, region, task.report, c, now);
    }
  }

  lemma RollsBackKeepsTime(s: System, t: System, id: string, owner: string, why: string, now: int)
    requires RollsBack(s, t, id, owner, why, now)
    ensures TableKeeps(s.core.crossings, t.core.crossings)
  {
    if id in s.core.crossings {
      RollbackKeeps(s.core.crossings[id], owner, if why == "" then "client-rollback" else Truncated(why), now);
    }
  }

  lemma MaintainsKeepsTime(s: System, t: System, now: int)
    requires Maintains(s, t, now)
    ensures TableKeeps(s.core.crossings, t.core.crossings)
  {
    forall id | id in t.core.crossings ensures id in s.core.crossings && Keeps(s.core.crossings[id], t.core.crossings[id]) {
      ExpiryKeeps(s.core.crossings[id], now);
    }
  }

  lemma GoesKeepsTime(s: System, t: System, c: Config)
    requires Goes(s, t, c)
    ensures TableKeeps(s.core.crossings, t.core.crossings)
  {
    if region, owns, expected, now :| Answers(s, t, c, region, owns, expected, now) {
      AnswersKeepTime(s, t, c, region, owns, expected, now);
    } else if id, owner, why, now :| RollsBack(s, t, id, owner, why, now) {
      RollsBackKeepsTime(s, t, id, owner, why, now);
    } else if now :| Maintains(s, t, now) {
      MaintainsKeepsTime(s, t, now);
    }
  }

  // ---------- runs ----------

  // Any step but the opening of another crossing with the same random id.
  ghost predicate Proceeds(s: System, t: System, c: Config, id: string) {
    || Goes(s, t, c)
    || exists other, owner, from, destination, now, expires ::
         other != id && Prepares(s, t, c, other, owner, from, destination, now, expires)
  }

  ghost function Proceeding(c: Config, id: string): (System, System) -> bool { (s: System, t: System) => Proceeds(s, t, c, id) }

  // The record with this id, if it is still there, is the one that r was.
  ghost predicate StillThat(s: System, id: string, r: Record) { id in s.core.crossings ==> Keeps(r, s.core.crossings[id]) }

  lemma ProceedsKeeps(s: System, t: System, c: Config, id: string, r: Record)
    requires StillThat(s, id, r) && Proceeds(s, t, c, id)
    ensures StillThat(t, id, r)
  {
    if Goes(s, t, c) {
      GoesKeepsTime(s, t, c);
    }
  }

  lemma RunKeeps(s: System, t: System, c: Config, id: string, r: Record)
    requires StillThat(s, id, r) && Reaches(Proceeding(c, id), s, t)
    ensures StillThat(t, id, r)
  {
    forall a: System, b: System | StillThat(a, id, r) && Proceeding(c, id)(a, b) ensures StillThat(b, id, r) {
      ProceedsKeeps(a, b, c, id, r);
    }
    ReachesKeeps(Proceeding(c, id), (a: System) => StillThat(a, id, r), s, t);
  }

  // However long a crossing has been going on, maintenance before its time is up leaves it as it is,
  // unless it is finished.
  lemma SparedUntilExpiry(s: System, t: System, u: System, c: Config, id: string, now: int)
    requires id in s.core.crossings && Reaches(Proceeding(c, id), s, t) && Maintains(t, u, now)
    requires now < s.core.crossings[id].expires && id in t.core.crossings && !Finished(SlotOf(t.core.crossings[id]))
    ensures id in u.core.crossings && u.core.crossings[id] == t.core.crossings[id]
  {
    RunKeeps(s, t, c, id, s.core.crossings[id]);
    MaintenanceMeans(t.core.crossings, u.core.crossings, now, id);
  }

  // The first maintenance after its time is up turns it back, with what it has taken up.
  lemma TurnedBackAtExpiry(s: System, t: System, u: System, c: Config, id: string, now: int)
    requires id in s.core.crossings && Reaches(Proceeding(c, id), s, t) && Maintains(t, u, now)
    requires s.core.crossings[id].expires <= now && id in t.core.crossings && !Finished(SlotOf(t.core.crossings[id]))
    ensures id in u.core.crossings
    ensures var r, v := t.core.crossings[id], u.core.crossings[id];
      && v.snapshot == r.snapshot
      && (r.state == Prepared ==> v.state == RolledBack && v.rolledBackAt == now)
      && (r.state == Exported || r.state == Imported ==> v.state == CleanupPending)
      && (r.state == CleanupPending || r.state == RestorePending ==> v.state == r.state)
  {
    RunKeeps(s, t, c, id, s.core.crossings[id]);
    MaintenanceMeans(t.core.crossings, u.core.crossings, now, id);
  }

  // After that it never completes, in any run.
  lemma ExpiredNeverCompletes(s: System, t: System, u: System, c: Config, id: string, now: int)
    requires id in s.core.crossings && !s.core.crossings[id].state.Completed? && s.core.crossings[id].expires <= now
    requires Maintains(s, t, now) && Reaches(Proceeding(c, id), t, u) && id in u.core.crossings
    ensures u.core.crossings[id].state in {CleanupPending, RestorePending, RolledBack}
  {
    MaintenanceMeans(s.core.crossings, t.core.crossings, now, id);
    if id in t.core.crossings {
      RunKeeps(t, u, c, id, t.core.crossings[id]);
    } else {
      RunKeeps(t, u, c, id, s.core.crossings[id]);
    }
  }

  // ---------- nothing else turns a crossing back ----------

  predicate Forward(r: Record) { r.state.Prepared? || r.state.Exported? || r.state.Imported? || r.state.Completed? }

  // A step in which no one turns the crossing back: its commands succeed, its owner does not ask for a
  // rollback, and its time is not up.
  ghost predicate Smooth(s: System, t: System, c: Config, id: string, owner: string, expires: int) {
    || (exists region, cmd :: Polls(s, t, region, cmd))
    || (exists region, room :: Acts(s, t, c, region, room))
    || (exists region, owns, expected, now ::
         && Answers(s, t, c, region, owns, expected, now)
         && (s.busy[region].cmd.id == id ==> s.busy[region].report.ok))
    || (exists region :: Loses(s, t, region))
    || (exists other, user, why, now :: RollsBack(s, t, other, user, why, now) && (other != id || user != owner))
    || (exists now :: Maintains(s, t, now) && now < expires)
    || ScriptsChange(s, t)
    || (exists other, user, from, destination, now, limit ::
         other != id && Prepares(s, t, c, other, user, from, destination, now, limit))
  }

  ghost function Smoothly(c: Config, id: string, owner: string, expires: int): (System, System) -> bool {
    (s: System, t: System) => Smooth(s, t, c, id, owner, expires)
  }

  ghost predicate OnItsWay(s: System, id: string, owner: string, expires: int) {
    id in s.core.crossings ==>
      s.core.crossings[id].owner == owner && s.core.crossings[id].expires == expires && Forward(s.core.crossings[id])
  }

  lemma AcceptedForward(core: CoreState, cmd: Command, region: string, r: Report, c: Config, now: int)
    requires cmd.id in core.crossings && Forward(core.crossings[cmd.id]) && r.ok
    ensures var n := Recorded(core, cmd, region, r, c.numbers, c.maxAttempts, now).after.crossings;
      cmd.id in n && Forward(n[cmd.id])
  {
  }

  lemma OthersRecorded(core: CoreState, cmd: Command, region: string, r: Report, c: Config, now: int, id: string)
    requires cmd.id != id && id in core.crossings
    ensures var n := Recorded(core, cmd, region, r, c.numbers, c.maxAttempts, now).after.crossings;
      id in n && n[id] == core.crossings[id]
  {
  }

  lemma AnswersOnItsWay(
    s: System, t: System, c: Config, id: string, owner: string, expires: int,
    region: string, owns: bool, expected: Option<Command>, now: int)
    requires OnItsWay(s, id, owner, expires) && Answers(s, t, c, region, owns, expected, now)
    requires s.busy[region].cmd.id == id ==> s.busy[region].report.ok
    ensures OnItsWay(t, id, owner, expires)
  {
    AnswersKeepTime(s, t, c, region, owns, expected, now);
    var task := s.busy[region];
    if id in t.core.crossings && owns && expected.Some? && expected.value.id == task.cmd.id && expected.value.kind == task.cmd.kind {
      if task.cmd.id == id {
        AcceptedForward(s.core, expected.value, region, task.report, c, now);
      } else {
        OthersRecorded(s.core, expected.value, region, task.report, c, now, id);
      }
    }
  }

  lemma RollsBackOnItsWay(
    s: System, t: System, id: string, owner: string, expires: int, other: string, user: string, why: string, now: int)
    requires OnItsWay(s, id, owner, expires) && RollsBack(s, t, other, user, why, now) && (other != id || user != owner)
    ensures OnItsWay(t, id, owner, expires)
  {
    if other in s.core.crossings {
      RollbackMeans(s.core.crossings, other, user, why, now);
    }
  }

  lemma SmoothOnItsWay(s: System, t: System, c: Config, id: string, owner: string, expires: int)
    requires OnItsWay(s, id, owner, expires) && Smooth(s, t, c, id, owner, expires)
    ensures OnItsWay(t, id, owner, expires)
  {
    if region, owns, expected, now :| Answers(s, t, c, region, owns, expected, now) && (s.busy[region].cmd.id == id ==> s.busy[region].report.ok) {
      AnswersOnItsWay(s, t, c, id, owner, expires, region, owns, expected, now);
    } else if other, user, why, now :| RollsBack(s, t, other, user, why, now) && (other != id || user != owner) {
      RollsBackOnItsWay(s, t, id, owner, expires, other, user, why, now);
    } else if now :| Maintains(s, t, now) && now < expires {
      MaintenanceMeans(s.core.crossings, t.core.crossings, now, id);
    }
  }

  // As long as every command of a crossing succeeds, its owner lets it go on, and maintenance comes before
  // its time is up, it only goes forward, whatever happens to others.
  lemma ForwardUntilExpiry(s: System, t: System, c: Config, id: string)
    requires id in s.core.crossings && Forward(s.core.crossings[id])
    requires Reaches(Smoothly(c, id, s.core.crossings[id].owner, s.core.crossings[id].expires), s, t) && id in t.core.crossings
    ensures t.core.crossings[id].state in {Prepared, Exported, Imported, Completed}
  {
    var owner, expires := s.core.crossings[id].owner, s.core.crossings[id].expires;
    var step := Smoothly(c, id, owner, expires);
    forall a: System, b: System | OnItsWay(a, id, owner, expires) && step(a, b) ensures OnItsWay(b, id, owner, expires) {
      SmoothOnItsWay(a, b, c, id, owner, expires);
    }
    ReachesKeeps(step, (a: System) => OnItsWay(a, id, owner, expires), s, t);
  }
}
