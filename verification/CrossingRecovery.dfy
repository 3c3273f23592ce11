// What the running system can still do: how a crossing can be brought to an end from any state, over
// the real steps of Core and the regions.

module CrossingRecovery {
  import opened Basics
  import opened ObjectCrossingStore
  import opened CrossingProtocol
  import opened CrossingRegion
  import opened CoreCrossings
  import opened ScriptRuntime
  import opened Text
  import opened CrossingSystem
  import opened CrossingExchange
  import opened CrossingQueue

  // ---------- every crossing can be rolled back that can be restored ----------

  // From restore_pending.
  lemma FinishRestoring(s: System, c: Config, id: string) returns (t: System)
    requires Tidy(s, c, {}) && AllRestorable(s, c, {}) && id in s.core.crossings && s.core.crossings[id].state.RestorePending?
    ensures Reaches(Going(c), s, t) && id in t.core.crossings
    ensures SlotOf(t.core.crossings[id]) == SlotOf(s.core.crossings[id]).(state := RolledBack)
    ensures var slot := SlotIn(c.links, s.core.crossings[id]); Holds(t.scene, slot.from, slot.snapshot) && slot.to !in t.scene
  {
    var u := BringToHead(s, c, {}, s.core.crossings[id].source, id);
    assert Restorable(c, id, u.core.crossings[id]);
    t := Restores(u, c, {}, id, 0);
    ReachesTrans(Going(c), s, u, t);
  }

  // From cleanup_pending.
  lemma FinishCleaning(s: System, c: Config, id: string) returns (t: System)
    requires Tidy(s, c, {}) && AllRestorable(s, c, {}) && id in s.core.crossings && s.core.crossings[id].state.CleanupPending?
    ensures Reaches(Going(c), s, t) && id in t.core.crossings
    ensures SlotOf(t.core.crossings[id]) == SlotOf(s.core.crossings[id]).(state := RolledBack)
    ensures var slot := SlotIn(c.links, s.core.crossings[id]); Holds(t.scene, slot.from, slot.snapshot) && slot.to !in t.scene
  {
    var u := BringToHead(s, c, {}, s.core.crossings[id].destination, id);
    var v := CleansUp(u, c, {}, id);
    TurnedRestorable(u, v, c, {}, id, SlotOf(u.core.crossings[id]).(state := RestorePending));
    t := FinishRestoring(v, c, id);
    ReachesTrans(Going(c), s, u, v);
    ReachesTrans(Going(c), s, v, t);
  }

  // From exported, imported or cleanup_pending.
  lemma FinishGivingUp(s: System, c: Config, id: string) returns (t: System)
    requires Tidy(s, c, {}) && AllRestorable(s, c, {}) && id in s.core.crossings
    requires var state := s.core.crossings[id].state; state.Exported? || state.Imported? || state.CleanupPending?
    ensures Reaches(Going(c), s, t) && id in t.core.crossings
    ensures SlotOf(t.core.crossings[id]) == SlotOf(s.core.crossings[id]).(state := RolledBack)
    ensures var slot := SlotIn(c.links, s.core.crossings[id]); Holds(t.scene, slot.from, slot.snapshot) && slot.to !in t.scene
  {
    var u := GivesUp(s, c, {}, id, 0);
    TurnedRestorable(s, u, c, {}, id, SlotOf(s.core.crossings[id]).(state := CleanupPending));
    t := FinishCleaning(u, c, id);
    ReachesTrans(Going(c), s, u, t);
  }

  lemma LivesTidy(s: System, c: Config, linksets: set<string>)
    requires Lives(s, c, linksets)
    ensures Tidy(s.(busy := map[]), c, {})
  {
    var home: map<string, Home> :| home.Keys == linksets && Good(s, c, home);
    GoodTidy(s, c, home, {});
  }

  // From every state of a run, each unfinished crossing can be rolled back, if the source regions take
  // back what is being carried: whatever was lost, overtaken or turned back, and whatever stands before
  // it. What it had taken up is then at its source as it was, and not at its destination.
  lemma CanRollBack(s: System, c: Config, linksets: set<string>, id: string) returns (t: System)
    requires Lives(s, c, linksets) && AllRestorable(s, c, {})
    requires id in s.core.crossings && !Finished(SlotOf(s.core.crossings[id]))
    ensures Reaches(Going(c), s, t) && id in t.core.crossings
    ensures SlotOf(t.core.crossings[id]) == SlotOf(s.core.crossings[id]).(state := RolledBack)
    ensures var slot := SlotIn(c.links, s.core.crossings[id]);
      if Carrying(slot) then Holds(t.scene, slot.from, slot.snapshot) && slot.to !in t.scene else t.scene == s.scene
  {
    LivesTidy(s, c, linksets);
    var u := LoseAll(s, c);
    if s.core.crossings[id].state.RestorePending? {
      t := FinishRestoring(u, c, id);
    } else if s.core.crossings[id].state.Prepared? {
      t := GivesUp(u, c, {}, id, 0);
    } else {
      t := FinishGivingUp(u, c, id);
    }
    ReachesTrans(Going(c), s, u, t);
  }

  // ---------- and no other ----------

  // The region refuses to take back what it gave up, or still has: a linkset that spans more than the
  // region, say.
  ghost predicate Stuck(m: Crossings, c: Config, id: string, r: Record) {
    id in m && m[id].state.RestorePending? && SameCrossing(m[id], r) && m[id].snapshot == r.snapshot
  }

  lemma NextStuck(c: Config, scene: map<Key, string>, m: Crossings, n: Crossings, id: string, r: Record)
    requires Stuck(m, c, id, r) && EntryNext(c, scene, m, n, id) && !c.checks.placeable(RestoreOf(id, r))
    ensures Stuck(n, c, id, r)
  {
    assert RestoreOf(id, m[id]) == RestoreOf(id, r);
  }

  lemma LivesNext(s: System, t: System, c: Config, linksets: set<string>, id: string)
    requires Lives(s, c, linksets) && id in s.core.crossings && Goes(s, t, c)
    ensures EntryNext(c, s.scene, s.core.crossings, t.core.crossings, id)
  {
    var home: map<string, Home> :| home.Keys == linksets && Good(s, c, home);
    GoesNext(s, t, c, home, id);
  }

  lemma OpensStuck(s: System, t: System, c: Config, id: string, r: Record)
    requires Stuck(s.core.crossings, c, id, r) && Opens(s, t, c)
    ensures Stuck(t.core.crossings, c, id, r)
  {
  }

  lemma GoesStuck(s: System, t: System, c: Config, linksets: set<string>, id: string, r: Record)
    requires Lives(s, c, linksets) && Stuck(s.core.crossings, c, id, r) && Next(s, t, c) && !c.checks.placeable(RestoreOf(id, r))
    ensures Stuck(t.core.crossings, c, id, r)
  {
    if Goes(s, t, c) {
      LivesNext(s, t, c, linksets, id);
      NextStuck(c, s.scene, s.core.crossings, t.core.crossings, id, r);
    } else {
      OpensStuck(s, t, c, id, r);
    }
  }

  // Such a crossing stays as it is in every run, and its region is never given a younger command.
  lemma StuckForever(s: System, t: System, c: Config, linksets: set<string>, id: string)
    requires Lives(s, c, linksets) && Reaches(Guarded(c), s, t)
    requires id in s.core.crossings && s.core.crossings[id].state.RestorePending?
    requires !c.checks.placeable(RestoreOf(id, s.core.crossings[id]))
    ensures id in t.core.crossings && t.core.crossings[id].state.RestorePending?
    ensures forall cmd :: Offers(t.core.crossings, s.core.crossings[id].source, Some(cmd)) ==>
      cmd.record.created <= s.core.crossings[id].created
  {
    var r := s.core.crossings[id];
    StaysStuck(s, t, c, linksets, id, r);
    assert Due(t.core.crossings[id], r.source) == Some(RestoreSource);
  }

  lemma StaysStuck(s: System, t: System, c: Config, linksets: set<string>, id: string, r: Record)
    requires Lives(s, c, linksets) && Reaches(Guarded(c), s, t) && Stuck(s.core.crossings, c, id, r)
    requires !c.checks.placeable(RestoreOf(id, r))
    ensures Stuck(t.core.crossings, c, id, r)
  {
    forall a, b | Lives(a, c, linksets) && Stuck(a.core.crossings, c, id, r) && Guarded(c)(a, b)
      ensures Lives(b, c, linksets) && Stuck(b.core.crossings, c, id, r)
    {
      NextLives(a, b, c, linksets);
      GoesStuck(a, b, c, linksets, id, r);
    }
    ReachesKeeps(Guarded(c), a => Lives(a, c, linksets) && Stuck(a.core.crossings, c, id, r), s, t);
  }

  lemma GoingGuarded(s: System, t: System, c: Config)
    requires Reaches(Going(c), s, t)
    ensures Reaches(Guarded(c), s, t)
  {
    forall a | Reaches(Guarded(c), s, a)
      ensures forall b :: Going(c)(a, b) ==> Reaches(Guarded(c), s, b)
    {
      forall b | Going(c)(a, b) ensures Reaches(Guarded(c), s, b) {
        ReachesInOne(Guarded(c), a, b);
        ReachesTrans(Guarded(c), s, a, b);
      }
    }
    ReachesNow(Guarded(c), s);
    ReachesKeeps(Going(c), a => Reaches(Guarded(c), s, a), s, t);
  }

  // A crossing that waits to be restored can be finished exactly when its source region accepts what
  // it is to restore.
  lemma RestoringEnds(s: System, c: Config, linksets: set<string>, id: string)
    requires Lives(s, c, linksets) && AllRestorable(s, c, {id})
    requires id in s.core.crossings && s.core.crossings[id].state.RestorePending?
    ensures (exists t :: Reaches(Going(c), s, t) && id in t.core.crossings && Finished(SlotOf(t.core.crossings[id]))) <==>
      c.checks.placeable(RestoreOf(id, s.core.crossings[id]))
  {
    if c.checks.placeable(RestoreOf(id, s.core.crossings[id])) {
      var t := CanRollBack(s, c, linksets, id);
    } else {
      forall t | Reaches(Going(c), s, t) ensures id in t.core.crossings && t.core.crossings[id].state.RestorePending? {
        GoingGuarded(s, t, c);
        StuckForever(s, t, c, linksets, id);
      }
    }
  }

  // ---------- which crossings can complete ----------

  // The crossing has not been turned back, its names are ones the script table accepts, and what it has
  // or would take up can make the rest of the way.
  ghost predicate Completable(c: Config, scene: map<Key, string>, id: string, r: Record) {
    && SafeNames(r)
    && var k := SlotIn(c.links, r).from;
    && match r.state
       case Imported => true
       case Exported => Arrives(c, id, r)
       case Prepared => k in scene && Leaves(c, r, scene[k]) && Arrives(c, id, r.(snapshot := scene[k]))
       case _ => false
  }

  // The scene at the source of a crossing that has taken nothing up does not change.
  lemma PreparedSame(w: World, v: World, home: map<string, Home>, region: string, r: Report, id: string)
    requires Sound(w, home) && Act(w, v, region, r) && id in w.slots && w.slots[id].state.Prepared?
    ensures SameAt(w.scene, v.scene, w.slots[id].from)
  {
    var o := w.busy[region].order;
    ActTouches(w, v, region, r, w.slots[id].from);
    assert Fits(w.busy[region], w.slots, w.scene);
    forall j | j in w.slots && j != id && !Finished(w.slots[j]) ensures KeysApart(w.slots[id], w.slots[j]) {
    }
  }

  lemma ActsPreparedSame(s: System, t: System, c: Config, home: map<string, Home>, region: string, room: bool, id: string)
    requires Good(s, c, home) && Acts(s, t, c, region, room) && id in s.core.crossings && s.core.crossings[id].state.Prepared?
    ensures SameAt(s.scene, t.scene, SlotIn(c.links, s.core.crossings[id]).from)
  {
    var r := ActsRefines(s, t, c, home, region, room);
    PreparedSame(View(s, c.links), View(t, c.links), home, region, r, id);
  }

  lemma GoesPreparedSame(s: System, t: System, c: Config, home: map<string, Home>, id: string)
    requires Good(s, c, home) && Goes(s, t, c) && id in s.core.crossings && s.core.crossings[id].state.Prepared?
    ensures SameAt(s.scene, t.scene, SlotIn(c.links, s.core.crossings[id]).from)
  {
    if region, room :| Acts(s, t, c, region, room) {
      ActsPreparedSame(s, t, c, home, region, room, id);
    }
  }

  lemma NextBarred(c: Config, scene: map<Key, string>, after: map<Key, string>, id: string, r: Record, u: Record)
    requires RecordNext(c, scene, id, r, u) && !r.state.Completed?
    requires r.state.Prepared? ==> SameAt(scene, after, SlotIn(c.links, r).from)
    ensures u.state.Completed? || Completable(c, after, id, u) ==> Completable(c, scene, id, r)
  {
    assert ImportOf(id, u) == ImportOf(id, r.(snapshot := u.snapshot));
    var k := SlotIn(c.links, r).from;
    assert k in scene ==> ImportOf(id, u.(snapshot := scene[k])) == ImportOf(id, r.(snapshot := scene[k]));
  }

  ghost predicate Barred(s: System, c: Config, id: string) {
    id in s.core.crossings ==>
      !s.core.crossings[id].state.Completed? && !Completable(c, s.scene, id, s.core.crossings[id])
  }

  lemma GoesBarred(s: System, t: System, c: Config, linksets: set<string>, id: string)
    requires Lives(s, c, linksets) && Barred(s, c, id) && Goes(s, t, c)
    ensures Barred(t, c, id)
  {
    if id in s.core.crossings && id in t.core.crossings {
      var home: map<string, Home> :| home.Keys == linksets && Good(s, c, home);
      GoesNext(s, t, c, home, id);
      if s.core.crossings[id].state.Prepared? {
        GoesPreparedSame(s, t, c, home, id);
      }
      NextBarred(c, s.scene, t.scene, id, s.core.crossings[id], t.core.crossings[id]);
    } else if id !in s.core.crossings {
      GoesNoNew(s, t, c, id);
    }
  }

  lemma GoesNoNew(s: System, t: System, c: Config, id: string)
    requires Goes(s, t, c) && id !in s.core.crossings
    ensures id !in t.core.crossings
  {
    if region, owns, expected, now :| Answers(s, t, c, region, owns, expected, now) {
      var task := s.busy[region];
      if owns && expected.Some? && expected.value.id == task.cmd.id && expected.value.kind == task.cmd.kind {
        DueState(expected.value.record, region);
        RecordedAnswers(s.core, expected.value, region, task.report, c.numbers, c.maxAttempts, now);
      }
    }
  }

  lemma StaysBarred(s: System, t: System, c: Config, linksets: set<string>, id: string)
    requires Lives(s, c, linksets) && Barred(s, c, id) && Reaches(Going(c), s, t)
    ensures Barred(t, c, id)
  {
    forall a, b | Lives(a, c, linksets) && Barred(a, c, id) && Going(c)(a, b) ensures Lives(b, c, linksets) && Barred(b, c, id) {
      NextLives(a, b, c, linksets);
      GoesBarred(a, b, c, linksets, id);
    }
    ReachesKeeps(Going(c), a => Lives(a, c, linksets) && Barred(a, c, id), s, t);
  }

  // ---------- completing ----------

  // A system in which crossings other than this one can be cleared out of its way.
  ghost predicate Passable(s: System, c: Config, id: string) {
    Tidy(s, c, {}) && AllRestorable(s, c, {id}) && id in s.core.crossings
  }

  // The system after one more exchange of the crossing.
  ghost predicate Forward(s: System, t: System, c: Config, id: string, state: State, x: string) {
    && Reaches(Going(c), s, t) && Passable(t, c, id) && id in s.core.crossings
    && SameCrossing(t.core.crossings[id], s.core.crossings[id])
    && t.core.crossings[id].state == state && t.core.crossings[id].snapshot == x
  }

  lemma FinishRemoving(s: System, c: Config, id: string) returns (t: System)
    requires Passable(s, c, id) && s.core.crossings[id].state.Imported? && SafeNames(s.core.crossings[id])
    ensures Forward(s, t, c, id, Completed, s.core.crossings[id].snapshot)
    ensures var slot := SlotIn(c.links, s.core.crossings[id]); Holds(t.scene, slot.to, slot.snapshot) && slot.from !in t.scene
  {
    var r := s.core.crossings[id];
    var u := BringToHead(s, c, {id}, r.source, id);
    t := Removes(u, c, {}, id);
    TurnedRestorable(u, t, c, {id}, id, SlotOf(r).(state := Completed));
    ReachesTrans(Going(c), s, u, t);
  }

  lemma MoveIn(s: System, c: Config, id: string) returns (t: System)
    requires Passable(s, c, id) && s.core.crossings[id].state.Exported? && Arrives(c, id, s.core.crossings[id])
    ensures Forward(s, t, c, id, Imported, s.core.crossings[id].snapshot)
  {
    var r := s.core.crossings[id];
    var u := BringToHead(s, c, {id}, r.destination, id);
    t := Imports(u, c, {}, id);
    TurnedRestorable(u, t, c, {id}, id, SlotOf(r).(state := Imported));
    ReachesTrans(Going(c), s, u, t);
  }

  lemma MoveOut(s: System, c: Config, id: string, x: string) returns (t: System)
    requires Passable(s, c, id) && s.core.crossings[id].state.Prepared? && Leaves(c, s.core.crossings[id], x)
    requires Holds(s.scene, SlotIn(c.links, s.core.crossings[id]).from, x)
    ensures Forward(s, t, c, id, Exported, x)
  {
    var r := s.core.crossings[id];
    var u := BringToHead(s, c, {id}, r.source, id);
    t := Exports(u, c, {}, id, x);
    TurnedRestorable(u, t, c, {id}, id, SlotOf(r).(state := Exported, snapshot := x));
    ReachesTrans(Going(c), s, u, t);
  }

  // What the crossing has taken up, or would.
  function Cargo(c: Config, scene: map<Key, string>, r: Record): string {
    var k := SlotIn(c.links, r).from;
    if !r.state.Prepared? then r.snapshot else if k in scene then scene[k] else ""
  }

  lemma Complete(s: System, c: Config, id: string) returns (t: System)
    requires Passable(s, c, id) && Completable(c, s.scene, id, s.core.crossings[id])
    ensures Reaches(Going(c), s, t) && id in t.core.crossings && t.core.crossings[id].state.Completed?
    ensures var slot := SlotIn(c.links, s.core.crossings[id]);
      Holds(t.scene, slot.to, Cargo(c, s.scene, s.core.crossings[id])) && slot.from !in t.scene
  {
    var r := s.core.crossings[id];
    var x := Cargo(c, s.scene, r);
    var u, v := s, s;
    ReachesNow(Going(c), s);
    if r.state.Prepared? {
      u := MoveOut(s, c, id, x);
      assert ImportOf(id, u.core.crossings[id]) == ImportOf(id, r.(snapshot := x));
    }
    if r.state.Imported? {
      v := u;
    } else {
      v := MoveIn(u, c, id);
    }
    ReachesTrans(Going(c), s, u, v);
    t := FinishRemoving(v, c, id);
    ReachesTrans(Going(c), s, v, t);
  }

  // From every state of a run, a crossing can complete exactly when it has not been turned back, what
  // it has or would take up is the owner's, whole and no more than 256 KiB, both region names are safe
  // fields, and the destination accepts the import with a map Core can read; provided the crossings that
  // may stand in its way can be restored. Its linkset is then at the destination and not at the source.
  lemma CompletesExactly(s: System, c: Config, linksets: set<string>, id: string)
    requires Lives(s, c, linksets) && AllRestorable(s, c, {id})
    requires id in s.core.crossings && !Finished(SlotOf(s.core.crossings[id]))
    ensures Completable(c, s.scene, id, s.core.crossings[id]) <==>
      (exists t :: Reaches(Going(c), s, t) && id in t.core.crossings && t.core.crossings[id].state.Completed?)
    ensures Completable(c, s.scene, id, s.core.crossings[id]) ==>
      var slot, x := SlotIn(c.links, s.core.crossings[id]), Cargo(c, s.scene, s.core.crossings[id]);
      exists t :: Reaches(Going(c), s, t) && id in t.core.crossings && t.core.crossings[id].state.Completed?
        && Holds(t.scene, slot.to, x) && slot.from !in t.scene
  {
    if Completable(c, s.scene, id, s.core.crossings[id]) {
      LivesTidy(s, c, linksets);
      var u := LoseAll(s, c);
      var t := Complete(u, c, id);
      ReachesTrans(Going(c), s, u, t);
    } else {
      forall t | Reaches(Going(c), s, t) && id in t.core.crossings ensures !t.core.crossings[id].state.Completed? {
        StaysBarred(s, t, c, linksets, id);
      }
    }
  }

  // A crossing from the region "a<tab>b", which the store opens, completes in no run.
  lemma TabNeverCompletes(s: System, t: System, c: Config, linksets: set<string>, id: string)
    requires Lives(s, c, linksets) && Reaches(Going(c), s, t)
    requires id in s.core.crossings && s.core.crossings[id].source == "a\tb" && !s.core.crossings[id].state.Completed?
    ensures id in t.core.crossings ==> !t.core.crossings[id].state.Completed?
  {
    TabbedName(0);
    StaysBarred(s, t, c, linksets, id);
  }
}
