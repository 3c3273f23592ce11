// Bringing a crossing to the head of a region's queue: Core offers a region its oldest due command first,
// so that older crossings have to be turned back or restored before.

module CrossingQueue {
  import opened Basics
  import opened ObjectCrossingStore
  import opened CrossingProtocol
  import opened CrossingRegion
  import opened CoreCrossings
  import opened ScriptRuntime
  import opened Text
  import opened CrossingSystem
  import opened CrossingExchange

  // ---------- idle systems ----------

  predicate SameAt(a: map<Key, string>, b: map<Key, string>, q: Key) {
    (q in a <==> q in b) && (q in a ==> a[q] == b[q])
  }

  // Nothing is in hand, and every crossing not in `skip` is where its record says and apart from the others.
  ghost predicate Tidy(s: System, c: Config, skip: set<string>) {
    && s.busy == map[]
    && (forall id :: id in s.core.crossings && id !in skip ==>
          RecordSound(c, s.core.crossings[id]) && Located(SlotIn(c.links, s.core.crossings[id]), s.scene))
    && TidyApart(Slots(c.links, s.core.crossings), skip)
  }

  predicate Ongoing(slots: map<string, Slot>, id: string, skip: set<string>) {
    id in slots && id !in skip && !Finished(slots[id])
  }

  ghost predicate TidyApart(slots: map<string, Slot>, skip: set<string>) {
    forall i, j :: i in slots && j in slots && i != j && Ongoing(slots, i, skip) && Ongoing(slots, j, skip) ==>
      KeysApart(slots[i], slots[j])
  }

  lemma GoodTidy(s: System, c: Config, home: map<string, Home>, skip: set<string>)
    requires Good(s, c, home)
    ensures Tidy(s.(busy := map[]), c, skip)
  {
    var w := View(s, c.links);
    forall id | id in s.core.crossings
      ensures RecordSound(c, s.core.crossings[id]) && Located(SlotIn(c.links, s.core.crossings[id]), s.scene)
    {
      assert Located(w.slots[id], w.scene);
    }
  }

  // The scene has changed at the two keys of one crossing at most.
  ghost predicate OnlyThere(s: System, t: System, c: Config, id: string)
    requires id in s.core.crossings
  {
    var slot := SlotIn(c.links, s.core.crossings[id]);
    forall q :: q != slot.from && q != slot.to ==> SameAt(s.scene, t.scene, q)
  }

  lemma LocatedSame(slot: Slot, a: map<Key, string>, b: map<Key, string>)
    requires Located(slot, a) && SameAt(a, b, slot.from) && SameAt(a, b, slot.to)
    ensures Located(slot, b)
  {
  }

  lemma ApartKept(before: map<string, Slot>, after: map<string, Slot>, id: string, skip: set<string>)
    requires TidyApart(before, skip) && id in before && id in after && after == before[id := after[id]]
    requires after[id].from == before[id].from && after[id].to == before[id].to && !Finished(before[id])
    ensures TidyApart(after, skip)
  {
    forall i, j | i in after && j in after && i != j && Ongoing(after, i, skip) && Ongoing(after, j, skip)
      ensures KeysApart(after[i], after[j])
    {
      assert Ongoing(before, i, skip) && Ongoing(before, j, skip);
      assert KeysApart(before[i], before[j]);
    }
  }

  // A step of one crossing leaves the system idle and tidy.
  lemma TidyKept(s: System, t: System, c: Config, skip: set<string>, id: string, slot: Slot)
    requires Tidy(s, c, skip) && t.busy == map[] && Turned(s.core.crossings, t.core.crossings, id, slot)
    requires id !in skip && !Finished(SlotOf(s.core.crossings[id])) && OnlyThere(s, t, c, id)
    requires RecordSound(c, t.core.crossings[id]) && Located(SlotIn(c.links, t.core.crossings[id]), t.scene)
    requires slot.from == SlotOf(s.core.crossings[id]).from && slot.to == SlotOf(s.core.crossings[id]).to
    ensures Tidy(t, c, skip)
  {
    var m, n := s.core.crossings, t.core.crossings;
    SlotsUpdate(c.links, m, id, n[id]);
    var before := Slots(c.links, m);
    forall other | other in n && other !in skip && other != id
      ensures RecordSound(c, n[other]) && Located(SlotIn(c.links, n[other]), t.scene)
    {
      if Ongoing(before, other, skip) {
        assert Ongoing(before, id, skip) && KeysApart(before[other], before[id]);
        LocatedSame(before[other], s.scene, t.scene);
      }
    }
    ApartKept(before, Slots(c.links, n), id, skip);
  }

  // ---------- turning crossings back in an idle system ----------

  lemma GivesUp(s: System, c: Config, skip: set<string>, id: string, now: int) returns (t: System)
    requires Tidy(s, c, skip) && id in s.core.crossings && id !in skip
    requires var state := s.core.crossings[id].state; state.Prepared? || state.Exported? || state.Imported? || state.CleanupPending?
    ensures Reaches(Going(c), s, t) && Tidy(t, c, skip) && t.scene == s.scene
    ensures var slot := SlotOf(s.core.crossings[id]);
      Turned(s.core.crossings, t.core.crossings, id, slot.(state := if slot.state.Prepared? then RolledBack else CleanupPending))
  {
    var slot := SlotOf(s.core.crossings[id]);
    t := ClientRollback(s, c, id, now);
    TidyKept(s, t, c, skip, id, slot.(state := if slot.state.Prepared? then RolledBack else CleanupPending));
  }

  lemma CleansUp(s: System, c: Config, skip: set<string>, id: string) returns (t: System)
    requires Tidy(s, c, skip) && id in s.core.crossings && id !in skip && s.core.crossings[id].state.CleanupPending?
    requires Head(s.core.crossings, s.core.crossings[id].destination, id)
    ensures Reaches(Going(c), s, t) && Tidy(t, c, skip) && t.scene == s.scene - {SlotOf(s.core.crossings[id]).to}
    ensures Turned(s.core.crossings, t.core.crossings, id, SlotOf(s.core.crossings[id]).(state := RestorePending))
  {
    t := CleanupExchange(s, c, id);
    TidyKept(s, t, c, skip, id, SlotOf(s.core.crossings[id]).(state := RestorePending));
  }

  lemma Restores(s: System, c: Config, skip: set<string>, id: string, now: int) returns (t: System)
    requires Tidy(s, c, skip) && id in s.core.crossings && id !in skip && s.core.crossings[id].state.RestorePending?
    requires Head(s.core.crossings, s.core.crossings[id].source, id) && c.checks.placeable(RestoreOf(id, s.core.crossings[id]))
    ensures Reaches(Going(c), s, t) && Tidy(t, c, skip)
    ensures var r := s.core.crossings[id]; t.scene == s.scene[SlotIn(c.links, r).from := r.snapshot]
    ensures Turned(s.core.crossings, t.core.crossings, id, SlotOf(s.core.crossings[id]).(state := RolledBack))
  {
    t := RestoreExchange(s, c, id, now);
    TidyKept(s, t, c, skip, id, SlotOf(s.core.crossings[id]).(state := RolledBack));
  }

  // ---------- moving crossings on in an idle system ----------

  lemma Exports(s: System, c: Config, skip: set<string>, id: string, x: string) returns (t: System)
    requires Tidy(s, c, skip) && id in s.core.crossings && id !in skip && s.core.crossings[id].state.Prepared?
    requires Head(s.core.crossings, s.core.crossings[id].source, id) && Leaves(c, s.core.crossings[id], x)
    requires Holds(s.scene, SlotIn(c.links, s.core.crossings[id]).from, x)
    ensures Reaches(Going(c), s, t) && Tidy(t, c, skip) && t.scene == s.scene
    ensures Turned(s.core.crossings, t.core.crossings, id, SlotOf(s.core.crossings[id]).(state := Exported, snapshot := x))
  {
    t := ExportExchange(s, c, id, x, 0);
    TidyKept(s, t, c, skip, id, SlotOf(s.core.crossings[id]).(state := Exported, snapshot := x));
  }

  lemma Imports(s: System, c: Config, skip: set<string>, id: string) returns (t: System)
    requires Tidy(s, c, skip) && id in s.core.crossings && id !in skip && s.core.crossings[id].state.Exported?
    requires Head(s.core.crossings, s.core.crossings[id].destination, id) && Arrives(c, id, s.core.crossings[id])
    ensures Reaches(Going(c), s, t) && Tidy(t, c, skip)
    ensures var slot := SlotOf(s.core.crossings[id]);
      && Turned(s.core.crossings, t.core.crossings, id, slot.(state := Imported))
      && t.scene == s.scene[slot.to := slot.snapshot]
  {
    t := ImportExchange(s, c, id, 0);
    TidyKept(s, t, c, skip, id, SlotOf(s.core.crossings[id]).(state := Imported));
  }

  lemma Removes(s: System, c: Config, skip: set<string>, id: string) returns (t: System)
    requires Tidy(s, c, skip) && id in s.core.crossings && id !in skip && s.core.crossings[id].state.Imported?
    requires Head(s.core.crossings, s.core.crossings[id].source, id) && SafeNames(s.core.crossings[id])
    ensures Reaches(Going(c), s, t) && Tidy(t, c, skip)
    ensures var r := s.core.crossings[id];
      && Turned(s.core.crossings, t.core.crossings, id, SlotOf(r).(state := Completed))
      && t.scene == s.scene - {SlotIn(c.links, r).from}
  {
    t := RemoveExchange(s, c, id, 0);
    TidyKept(s, t, c, skip, id, SlotOf(s.core.crossings[id]).(state := Completed));
  }

  // ---------- clearing a region's queue ----------

  // What becomes of a record that is turned back or restored.
  predicate Eased(r: Record, u: Record) {
    && SameCrossing(u, r) && u.snapshot == r.snapshot
    && (Finished(SlotOf(r)) ==> Finished(SlotOf(u))) && (Carrying(SlotOf(u)) ==> Carrying(SlotOf(r)))
  }

  // Only crossings in `keep` touch the key.
  ghost predicate Aside(m: Crossings, links: Links, keep: set<string>, q: Key) {
    forall id :: Touches(m, links, id, q) ==> id in keep
  }

  // Crossings not in `keep` may have been turned back and restored; nothing else has happened.
  ghost predicate Cleared(s: System, t: System, c: Config, keep: set<string>) {
    && t.core.crossings.Keys == s.core.crossings.Keys
    && (forall id :: id in s.core.crossings ==> Eased(s.core.crossings[id], t.core.crossings[id]))
    && (forall id :: id in s.core.crossings && id in keep ==> t.core.crossings[id] == s.core.crossings[id])
    && (forall q :: Aside(s.core.crossings, c.links, keep, q) ==>
          SameAt(s.scene, t.scene, q) && Aside(t.core.crossings, c.links, keep, q))
  }

  lemma ClearedTrans(s: System, t: System, u: System, c: Config, keep: set<string>)
    requires Cleared(s, t, c, keep) && Cleared(t, u, c, keep)
    ensures Cleared(s, u, c, keep)
  {
    forall id | id in s.core.crossings ensures Eased(s.core.crossings[id], u.core.crossings[id]) {
      assert Eased(s.core.crossings[id], t.core.crossings[id]) && Eased(t.core.crossings[id], u.core.crossings[id]);
    }
    forall q | Aside(s.core.crossings, c.links, keep, q)
      ensures SameAt(s.scene, u.scene, q) && Aside(u.core.crossings, c.links, keep, q)
    {
      assert SameAt(s.scene, t.scene, q) && Aside(t.core.crossings, c.links, keep, q);
    }
  }

  lemma ClearedOne(s: System, t: System, c: Config, keep: set<string>, id: string)
    requires id in s.core.crossings && id in t.core.crossings && id !in keep && !Finished(SlotOf(s.core.crossings[id]))
    requires t.core.crossings == s.core.crossings[id := t.core.crossings[id]]
    requires Eased(s.core.crossings[id], t.core.crossings[id]) && OnlyThere(s, t, c, id)
    ensures Cleared(s, t, c, keep)
  {
    forall q | Aside(s.core.crossings, c.links, keep, q)
      ensures SameAt(s.scene, t.scene, q) && Aside(t.core.crossings, c.links, keep, q)
    {
      assert !Touches(s.core.crossings, c.links, id, q);
      assert SameAt(s.scene, t.scene, q);
      forall other | Touches(t.core.crossings, c.links, other, q) ensures other in keep {
        assert Touches(s.core.crossings, c.links, other, q);
      }
    }
  }

  // The source region would take back what this crossing carries.
  predicate Restorable(c: Config, id: string, r: Record) {
    Carrying(SlotOf(r)) ==> c.checks.placeable(RestoreOf(id, r))
  }

  ghost predicate AllRestorable(s: System, c: Config, keep: set<string>) {
    forall id :: id in s.core.crossings && id !in keep ==> Restorable(c, id, s.core.crossings[id])
  }

  lemma EasedRestorable(m: Crossings, n: Crossings, c: Config, id: string)
    requires id in m && id in n && Eased(m[id], n[id]) && Restorable(c, id, m[id])
    ensures Restorable(c, id, n[id])
  {
  }

  lemma ClearedRestorable(s: System, t: System, c: Config, keep: set<string>, free: set<string>)
    requires Cleared(s, t, c, keep) && AllRestorable(s, c, free)
    ensures AllRestorable(t, c, free)
  {
    forall id | id in t.core.crossings && id !in free ensures Restorable(c, id, t.core.crossings[id]) {
      EasedRestorable(s.core.crossings, t.core.crossings, c, id);
    }
  }

  // A crossing turned back, or brought further back, and the scene as it was but for that crossing.
  lemma ClearedBack(s: System, t: System, c: Config, keep: set<string>, id: string, state: State)
    requires id in s.core.crossings && id !in keep && !Finished(SlotOf(s.core.crossings[id]))
    requires Turned(s.core.crossings, t.core.crossings, id, SlotOf(s.core.crossings[id]).(state := state))
    requires state.RolledBack? || (Carrying(SlotOf(s.core.crossings[id])) && (state.CleanupPending? || state.RestorePending?))
    requires var slot := SlotIn(c.links, s.core.crossings[id]);
      t.scene == s.scene || t.scene == s.scene - {slot.to} || t.scene == s.scene[slot.from := slot.snapshot]
    ensures Cleared(s, t, c, keep)
  {
    ClearedOne(s, t, c, keep, id);
  }

  ghost predicate OneCleared(
    s: System, t: System, c: Config, skip: set<string>, keep: set<string>, region: string, id: string)
  {
    && Reaches(Going(c), s, t) && Tidy(t, c, skip) && Cleared(s, t, c, keep)
    && id in t.core.crossings && t.core.crossings == s.core.crossings[id := t.core.crossings[id]]
    && Due(t.core.crossings[id], region).None?
  }

  lemma ClearUnmoved(s: System, c: Config, skip: set<string>, keep: set<string>, region: string, id: string) returns (t: System)
    requires Tidy(s, c, skip) && skip <= keep && id !in keep && Head(s.core.crossings, region, id)
    requires s.core.crossings[id].state.Prepared? || s.core.crossings[id].state.Imported?
    ensures OneCleared(s, t, c, skip, keep, region, id)
  {
    t := GivesUp(s, c, skip, id, 0);
    ClearedBack(s, t, c, keep, id, if s.core.crossings[id].state.Prepared? then RolledBack else CleanupPending);
  }

  lemma ClearExported(s: System, c: Config, skip: set<string>, keep: set<string>, region: string, id: string) returns (t: System)
    requires Tidy(s, c, skip) && skip <= keep && id !in keep && Head(s.core.crossings, region, id)
    requires s.core.crossings[id].state.Exported?
    ensures OneCleared(s, t, c, skip, keep, region, id)
  {
    t := GivesUpAndCleansUp(s, c, skip, id);
    ClearedBack(s, t, c, keep, id, RestorePending);
  }

  lemma ClearBack(s: System, c: Config, skip: set<string>, keep: set<string>, region: string, id: string) returns (t: System)
    requires Tidy(s, c, skip) && skip <= keep && id !in keep && Head(s.core.crossings, region, id)
    requires s.core.crossings[id].state.CleanupPending?
    ensures OneCleared(s, t, c, skip, keep, region, id)
  {
    t := CleansUp(s, c, skip, id);
    ClearedBack(s, t, c, keep, id, RestorePending);
  }

  lemma ClearRestored(s: System, c: Config, skip: set<string>, keep: set<string>, region: string, id: string) returns (t: System)
    requires Tidy(s, c, skip) && skip <= keep && id !in keep && Head(s.core.crossings, region, id)
    requires s.core.crossings[id].state.RestorePending? && Restorable(c, id, s.core.crossings[id])
    ensures OneCleared(s, t, c, skip, keep, region, id)
  {
    t := Restores(s, c, skip, id, 0);
    ClearedBack(s, t, c, keep, id, RolledBack);
  }

  // The first crossing in a region's queue can be taken out of it.
  lemma ClearOne(s: System, c: Config, skip: set<string>, keep: set<string>, region: string, id: string) returns (t: System)
    requires Tidy(s, c, skip) && skip <= keep && id !in keep && Head(s.core.crossings, region, id)
    requires Restorable(c, id, s.core.crossings[id])
    ensures OneCleared(s, t, c, skip, keep, region, id)
  {
    var state := s.core.crossings[id].state;
    if state.Prepared? || state.Imported? {
      t := ClearUnmoved(s, c, skip, keep, region, id);
    } else if state.Exported? {
      t := ClearExported(s, c, skip, keep, region, id);
    } else if state.CleanupPending? {
      t := ClearBack(s, c, skip, keep, region, id);
    } else {
      t := ClearRestored(s, c, skip, keep, region, id);
    }
  }

  lemma GivesUpAndCleansUp(s: System, c: Config, skip: set<string>, id: string) returns (t: System)
    requires Tidy(s, c, skip) && id in s.core.crossings && id !in skip && s.core.crossings[id].state.Exported?
    requires Head(s.core.crossings, s.core.crossings[id].destination, id)
    ensures Reaches(Going(c), s, t) && Tidy(t, c, skip) && t.scene == s.scene - {SlotOf(s.core.crossings[id]).to}
    ensures Turned(s.core.crossings, t.core.crossings, id, SlotOf(s.core.crossings[id]).(state := RestorePending))
  {
    var u := GivesUp(s, c, skip, id, 0);
    HeadKept(s.core.crossings, u.core.crossings, s.core.crossings[id].destination, id);
    t := CleansUp(u, c, skip, id);
    ReachesTrans(Going(c), s, u, t);
  }

  lemma HeadKept(m: Crossings, n: Crossings, region: string, id: string)
    requires Head(m, region, id) && id in n && n == m[id := n[id]]
    requires n[id].created == m[id].created && Due(n[id], region).Some?
    ensures Head(n, region, id)
  {
  }

  // What stands before a command of a given age in a region's queue.
  function Ahead(m: Crossings, keep: set<string>, region: string, age: int): set<string> {
    set id | id in m && id !in keep && Due(m[id], region).Some? && m[id].created <= age
  }

  lemma {:induction false} Eldest(m: Crossings, ids: set<string>) returns (id: string)
    requires ids != {} && ids <= m.Keys
    ensures id in ids && forall other :: other in ids ==> m[id].created <= m[other].created
    decreases |ids|
  {
    var some :| some in ids;
    id := some;
    if ids != {some} {
      assert ids - {some} != {};
      var best := Eldest(m, ids - {some});
      id := if m[best].created < m[some].created then best else some;
    }
  }

  // The crossings to keep are not older than that in the region's queue.
  ghost predicate Behind(m: Crossings, keep: set<string>, region: string, age: int) {
    forall id :: id in keep && id in m && Due(m[id], region).Some? ==> age <= m[id].created
  }

  lemma AheadShrinks(s: System, t: System, c: Config, keep: set<string>, region: string, age: int, id: string)
    requires id in Ahead(s.core.crossings, keep, region, age) && Behind(s.core.crossings, keep, region, age)
    requires Cleared(s, t, c, keep) && id in t.core.crossings && t.core.crossings == s.core.crossings[id := t.core.crossings[id]]
    requires Due(t.core.crossings[id], region).None?
    ensures Ahead(t.core.crossings, keep, region, age) == Ahead(s.core.crossings, keep, region, age) - {id}
    ensures Behind(t.core.crossings, keep, region, age)
  {
  }

  // Everything of that age or older can be cleared from a region's queue, except the crossings to keep.
  lemma {:induction false} ClearAhead(s: System, c: Config, skip: set<string>, keep: set<string>, region: string, age: int)
    returns (t: System)
    requires Tidy(s, c, skip) && skip <= keep && AllRestorable(s, c, keep) && Behind(s.core.crossings, keep, region, age)
    ensures Reaches(Going(c), s, t) && Tidy(t, c, skip) && Cleared(s, t, c, keep)
    ensures Ahead(t.core.crossings, keep, region, age) == {}
    decreases |Ahead(s.core.crossings, keep, region, age)|
  {
    if Ahead(s.core.crossings, keep, region, age) == {} {
      t := s;
      ReachesNow(Going(c), s);
      ClearedNow(s, c, keep);
    } else {
      var u := ClearEldest(s, c, skip, keep, region, age);
      t := ClearAhead(u, c, skip, keep, region, age);
      ClearedTrans(s, u, t, c, keep);
      ReachesTrans(Going(c), s, u, t);
    }
  }

  lemma ClearedNow(s: System, c: Config, keep: set<string>)
    ensures Cleared(s, s, c, keep)
  {
  }

  lemma ClearEldest(s: System, c: Config, skip: set<string>, keep: set<string>, region: string, age: int) returns (t: System)
    requires Tidy(s, c, skip) && skip <= keep && AllRestorable(s, c, keep) && Behind(s.core.crossings, keep, region, age)
    requires Ahead(s.core.crossings, keep, region, age) != {}
    ensures Reaches(Going(c), s, t) && Tidy(t, c, skip) && Cleared(s, t, c, keep) && AllRestorable(t, c, keep)
    ensures Behind(t.core.crossings, keep, region, age)
    ensures |Ahead(t.core.crossings, keep, region, age)| < |Ahead(s.core.crossings, keep, region, age)|
  {
    var id := Eldest(s.core.crossings, Ahead(s.core.crossings, keep, region, age));
    EldestIsHead(s.core.crossings, keep, region, age, id);
    t := ClearOne(s, c, skip, keep, region, id);
    ClearedRestorable(s, t, c, keep, keep);
    AheadShrinks(s, t, c, keep, region, age, id);
  }

  lemma EldestIsHead(m: Crossings, keep: set<string>, region: string, age: int, id: string)
    requires id in Ahead(m, keep, region, age)
    requires forall other :: other in Ahead(m, keep, region, age) ==> m[id].created <= m[other].created
    requires Behind(m, keep, region, age)
    ensures Head(m, region, id)
  {
    forall other | other in m && Due(m[other], region).Some? ensures m[id].created <= m[other].created {
      if other !in keep && m[other].created <= age {
        assert other in Ahead(m, keep, region, age);
      }
    }
  }

  // A kept crossing then comes first, if it is no younger than the other kept ones.
  lemma BringForward(
    s: System, c: Config, skip: set<string>, keep: set<string>, free: set<string>, region: string, id: string)
    returns (t: System)
    requires Tidy(s, c, skip) && skip <= keep && free <= keep && AllRestorable(s, c, free)
    requires id in keep && id in s.core.crossings && Due(s.core.crossings[id], region).Some?
    requires Behind(s.core.crossings, keep, region, s.core.crossings[id].created)
    ensures Reaches(Going(c), s, t) && Tidy(t, c, skip) && Cleared(s, t, c, keep) && AllRestorable(t, c, free)
    ensures Head(t.core.crossings, region, id)
  {
    var age := s.core.crossings[id].created;
    t := ClearAhead(s, c, skip, keep, region, age);
    ClearedRestorable(s, t, c, keep, free);
    var n := t.core.crossings;
    forall other | other in n && Due(n[other], region).Some? ensures n[id].created <= n[other].created {
      assert other !in Ahead(n, keep, region, age);
    }
  }

  lemma OnlyKeyKept(s: System, c: Config, id: string)
    requires Tidy(s, c, {}) && id in s.core.crossings && !Finished(SlotOf(s.core.crossings[id]))
    ensures var slot := SlotIn(c.links, s.core.crossings[id]);
      Aside(s.core.crossings, c.links, {id}, slot.from) && Aside(s.core.crossings, c.links, {id}, slot.to)
  {
    var m, slots := s.core.crossings, Slots(c.links, s.core.crossings);
    assert Ongoing(slots, id, {});
    forall other | Ongoing(slots, other, {}) && other != id ensures KeysApart(slots[id], slots[other]) {
    }
    forall other | Touches(m, c.links, other, slots[id].from) || Touches(m, c.links, other, slots[id].to)
      ensures other == id
    {
      assert Ongoing(slots, other, {});
    }
  }

  // Bringing one crossing forward, with everything at its own keys as it was.
  lemma BringToHead(s: System, c: Config, free: set<string>, region: string, id: string) returns (t: System)
    requires Tidy(s, c, {}) && free <= {id} && AllRestorable(s, c, free)
    requires id in s.core.crossings && Due(s.core.crossings[id], region).Some?
    ensures Reaches(Going(c), s, t) && Tidy(t, c, {}) && AllRestorable(t, c, free) && Head(t.core.crossings, region, id)
    ensures t.core.crossings[id] == s.core.crossings[id]
    ensures var slot := SlotIn(c.links, s.core.crossings[id]);
      SameAt(s.scene, t.scene, slot.from) && SameAt(s.scene, t.scene, slot.to)
  {
    DueWhere(s.core.crossings[id], region);
    OnlyKeyKept(s, c, id);
    t := BringForward(s, c, {}, {id}, free, region, id);
  }

  // The command a record holds for a region is that of its state, at the end its state says.
  lemma DueWhere(r: Record, region: string)
    requires Due(r, region).Some?
    ensures !Finished(SlotOf(r))
    ensures r.state.Exported? || r.state.CleanupPending? ==> r.destination == region
    ensures r.state.Prepared? || r.state.Imported? || r.state.RestorePending? ==> r.source == region
  {
  }

  lemma TurnedRestorable(s: System, t: System, c: Config, free: set<string>, id: string, slot: Slot)
    requires AllRestorable(s, c, free) && Turned(s.core.crossings, t.core.crossings, id, slot)
    requires id !in free ==> Carrying(SlotOf(s.core.crossings[id])) && slot.snapshot == s.core.crossings[id].snapshot
    ensures AllRestorable(t, c, free)
  {
    forall other | other in t.core.crossings && other !in free ensures Restorable(c, other, t.core.crossings[other]) {
      assert Restorable(c, other, s.core.crossings[other]);
    }
  }
}
