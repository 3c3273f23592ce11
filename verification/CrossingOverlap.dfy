// Two crossings on one linkset: what happens when a crossing is opened on a linkset that an unfinished
// crossing touches, by whichever of its members.

module CrossingOverlap {
  import opened Basics
  import opened ObjectCrossingStore
  import opened CrossingProtocol
  import opened CrossingRegion
  import opened CoreCrossings
  import opened CrossingSystem
  import opened CrossingExchange
  import opened CrossingQueue
  import opened CrossingRecovery

  // Two copies of a linkset, and no unfinished crossing that could still take one away.
  ghost predicate Duplicate(s: System, x: string, p: Key, q: Key) {
    p != q && Holds(s.scene, p, x) && Holds(s.scene, q, x) && forall id :: !CarriedIn(s, id, x)
  }

  // ---------- two crossings beside the others ----------

  // What the regions and Core say to the crossings' moves with the linkset x.
  predicate Moving(c: Config, id: string, r: Record, x: string) {
    SafeNames(r) && Leaves(c, r, x) && Arrives(c, id, r.(snapshot := x))
  }

  predicate Returning(c: Config, id: string, r: Record, x: string) {
    c.checks.placeable(RestoreOf(id, r.(snapshot := x))) && Leaves(c, r, x)
  }

  function Keys(c: Config, m: Crossings, a: string, b: string): set<Key>
    requires a in m && b in m
  {
    {SlotIn(c.links, m[a]).from, SlotIn(c.links, m[a]).to, SlotIn(c.links, m[b]).from, SlotIn(c.links, m[b]).to}
  }

  ghost predicate NoneElse(m: Crossings, a: string, b: string, x: string) {
    forall id :: id in m && id != a && id != b ==> !(Carrying(SlotOf(m[id])) && m[id].snapshot == x)
  }

  // The later crossing b is on the linkset of the earlier crossing a, at either of its ends.
  ghost predicate Contest(s: System, c: Config, a: string, b: string, x: string) {
    var m := s.core.crossings;
    && Tidy(s, c, {b}) && AllRestorable(s, c, {a, b})
    && a != b && a in m && b in m && RecordSound(c, m[b]) && NoneElse(m, a, b, x)
    && (forall q :: q in Keys(c, m, a, b) ==> Aside(m, c.links, {a, b}, q))
    && SlotIn(c.links, m[b]).to != SlotIn(c.links, m[a]).from && SlotIn(c.links, m[b]).to != SlotIn(c.links, m[a]).to
    && (Carrying(SlotOf(m[b])) ==> m[b].snapshot == x)
    && c.checks.owner(x) == Some(m[a].owner)
  }

  // The scene at the keys of the two crossings has changed at `except` at most.
  ghost predicate Steady(s: System, t: System, c: Config, a: string, b: string, except: set<Key>)
    requires a in s.core.crossings && b in s.core.crossings
  {
    forall q :: q in Keys(c, s.core.crossings, a, b) && q !in except ==> SameAt(s.scene, t.scene, q)
  }

  // One of the two has moved on; the other is as it was.
  ghost predicate Stepped(
    s: System, t: System, c: Config, a: string, b: string, x: string, id: string, slot: Slot, except: set<Key>)
  {
    && Reaches(Going(c), s, t) && Contest(t, c, a, b, x)
    && a in s.core.crossings && b in s.core.crossings && id in s.core.crossings
    && SameCrossing(t.core.crossings[a], s.core.crossings[a]) && SameCrossing(t.core.crossings[b], s.core.crossings[b])
    && (id != a ==> t.core.crossings[a] == s.core.crossings[a]) && (id != b ==> t.core.crossings[b] == s.core.crossings[b])
    && id in t.core.crossings && SlotOf(t.core.crossings[id]) == slot && Steady(s, t, c, a, b, except)
  }

  lemma StayTogether(s: System, t: System, c: Config, a: string, b: string, x: string)
    requires Contest(s, c, a, b, x) && Cleared(s, t, c, {a, b}) && Tidy(t, c, {b}) && AllRestorable(t, c, {a, b})
    ensures Contest(t, c, a, b, x) && Steady(s, t, c, a, b, {})
    ensures t.core.crossings[a] == s.core.crossings[a] && t.core.crossings[b] == s.core.crossings[b]
  {
    var m, n := s.core.crossings, t.core.crossings;
    forall id | id in n && id != a && id != b ensures !(Carrying(SlotOf(n[id])) && n[id].snapshot == x) {
      assert Eased(m[id], n[id]);
    }
  }

  lemma BringUp(s: System, c: Config, a: string, b: string, x: string, region: string, id: string) returns (t: System)
    requires Contest(s, c, a, b, x) && (id == a || id == b) && Due(s.core.crossings[id], region).Some?
    requires Behind(s.core.crossings, {a, b}, region, s.core.crossings[id].created)
    ensures Reaches(Going(c), s, t) && Contest(t, c, a, b, x) && Steady(s, t, c, a, b, {})
    ensures t.core.crossings[a] == s.core.crossings[a] && t.core.crossings[b] == s.core.crossings[b]
    ensures Head(t.core.crossings, region, id)
  {
    t := BringForward(s, c, {b}, {a, b}, {a, b}, region, id);
    StayTogether(s, t, c, a, b, x);
  }

  // A step of either crossing leaves the contest one.
  lemma StillContest(s: System, t: System, c: Config, a: string, b: string, x: string, id: string, slot: Slot)
    requires Contest(s, c, a, b, x) && (id == a || id == b) && Turned(s.core.crossings, t.core.crossings, id, slot)
    requires Tidy(t, c, {b}) && !Finished(SlotOf(s.core.crossings[id]))
    requires id == b ==> RecordSound(c, t.core.crossings[b]) && (Carrying(slot) ==> slot.snapshot == x)
    ensures Contest(t, c, a, b, x)
  {
    var m, n := s.core.crossings, t.core.crossings;
    TurnedRestorable(s, t, c, {a, b}, id, slot);
    forall q | q in Keys(c, n, a, b) ensures Aside(n, c.links, {a, b}, q) {
      assert q in Keys(c, m, a, b) && Aside(m, c.links, {a, b}, q);
      forall other | Touches(n, c.links, other, q) ensures other in {a, b} {
        assert other in {a, b} || Touches(m, c.links, other, q);
      }
    }
  }

  // ---------- steps of the later crossing ----------

  lemma TidyBeside(s: System, t: System, c: Config, b: string, slot: Slot, e: Key)
    requires Tidy(s, c, {b}) && t.busy == map[] && Turned(s.core.crossings, t.core.crossings, b, slot)
    requires !Finished(SlotOf(s.core.crossings[b]))
    requires slot.from == SlotOf(s.core.crossings[b]).from && slot.to == SlotOf(s.core.crossings[b]).to
    requires forall q :: q != e ==> SameAt(s.scene, t.scene, q)
    requires forall id :: Touches(s.core.crossings, c.links, id, e) && id != b ==> Located(SlotIn(c.links, s.core.crossings[id]), t.scene)
    ensures Tidy(t, c, {b})
  {
    var m, n := s.core.crossings, t.core.crossings;
    SlotsUpdate(c.links, m, b, n[b]);
    forall id | id in n && id !in {b} ensures RecordSound(c, n[id]) && Located(SlotIn(c.links, n[id]), t.scene) {
      var r := SlotIn(c.links, m[id]);
      if !Finished(r) && !Touches(m, c.links, id, e) {
        LocatedSame(r, s.scene, t.scene);
      }
    }
    ApartKept(Slots(c.links, m), Slots(c.links, n), b, {b});
  }

  // The later crossing's exchanges, with the others idle and tidy.
  lemma ExportsBeside(s: System, c: Config, b: string, x: string) returns (t: System)
    requires Tidy(s, c, {b}) && b in s.core.crossings && s.core.crossings[b].state.Prepared?
    requires Head(s.core.crossings, s.core.crossings[b].source, b) && Leaves(c, s.core.crossings[b], x)
    requires Holds(s.scene, SlotIn(c.links, s.core.crossings[b]).from, x)
    ensures Reaches(Going(c), s, t) && Tidy(t, c, {b}) && t.scene == s.scene
    ensures Turned(s.core.crossings, t.core.crossings, b, SlotOf(s.core.crossings[b]).(state := Exported, snapshot := x))
  {
    t := ExportExchange(s, c, b, x, 0);
    var slot := SlotOf(s.core.crossings[b]).(state := Exported, snapshot := x);
    TidyBeside(s, t, c, b, slot, slot.to);
  }

  lemma ImportsBeside(s: System, c: Config, b: string) returns (t: System)
    requires Tidy(s, c, {b}) && b in s.core.crossings && s.core.crossings[b].state.Exported? && RecordSound(c, s.core.crossings[b])
    requires Head(s.core.crossings, s.core.crossings[b].destination, b) && Arrives(c, b, s.core.crossings[b])
    requires SlotOf(s.core.crossings[b]).to !in s.scene
    requires forall id :: Touches(s.core.crossings, c.links, id, SlotOf(s.core.crossings[b]).to) ==> id == b
    ensures Reaches(Going(c), s, t) && Tidy(t, c, {b})
    ensures var slot := SlotOf(s.core.crossings[b]);
      && Turned(s.core.crossings, t.core.crossings, b, slot.(state := Imported))
      && RecordSound(c, t.core.crossings[b]) && t.scene == s.scene[slot.to := slot.snapshot]
  {
    t := ImportExchange(s, c, b, 0);
    var slot := SlotOf(s.core.crossings[b]).(state := Imported);
    TidyBeside(s, t, c, b, slot, slot.to);
  }

  lemma RemovesBeside(s: System, c: Config, b: string) returns (t: System)
    requires Tidy(s, c, {b}) && b in s.core.crossings && s.core.crossings[b].state.Imported? && RecordSound(c, s.core.crossings[b])
    requires Head(s.core.crossings, s.core.crossings[b].source, b) && SafeNames(s.core.crossings[b])
    requires Only(s.scene, SlotIn(c.links, s.core.crossings[b]).from, s.core.crossings[b].snapshot)
    requires var k := SlotIn(c.links, s.core.crossings[b]).from;
      forall id :: Touches(s.core.crossings, c.links, id, k) && id != b && k in s.scene ==> GivingBack(s.core.crossings[id])
    ensures Reaches(Going(c), s, t) && Tidy(t, c, {b})
    ensures var r := s.core.crossings[b];
      && Turned(s.core.crossings, t.core.crossings, b, SlotOf(r).(state := Completed))
      && t.scene == s.scene - {SlotIn(c.links, r).from}
  {
    var k := SlotIn(c.links, s.core.crossings[b]).from;
    t := RemoveExchange(s, c, b, 0);
    forall id | Touches(s.core.crossings, c.links, id, k) && id != b ensures Located(SlotIn(c.links, s.core.crossings[id]), t.scene) {
      LocatedWithout(SlotIn(c.links, s.core.crossings[id]), s.scene, k);
    }
    TidyBeside(s, t, c, b, SlotOf(s.core.crossings[b]).(state := Completed), k);
  }

  predicate GivingBack(r: Record) { r.state.CleanupPending? || r.state.RestorePending? || r.state.Completed? || r.state.RolledBack? }

  lemma LocatedWithout(slot: Slot, scene: map<Key, string>, k: Key)
    requires Located(slot, scene)
    requires k in scene ==> !slot.state.Prepared? && !slot.state.Exported? && !slot.state.Imported?
    ensures Located(slot, scene - {k})
  {
    if k !in scene {
      assert scene - {k} == scene;
    }
  }

  lemma ChangedThere(scene: map<Key, string>, after: map<Key, string>, k: Key, x: string)
    requires after == scene[k := x] || after == scene - {k}
    ensures forall q :: q != k ==> SameAt(scene, after, q)
  {
  }

  // One exchange within the contest, after the crossing was brought up.
  lemma StepDone(
    s: System, u: System, t: System, c: Config, a: string, b: string, x: string, id: string, slot: Slot, except: set<Key>)
    requires Reaches(Going(c), s, u) && Contest(u, c, a, b, x) && Reaches(Going(c), u, t) && Tidy(t, c, {b})
    requires a in s.core.crossings && b in s.core.crossings && Steady(s, u, c, a, b, {})
    requires u.core.crossings[a] == s.core.crossings[a] && u.core.crossings[b] == s.core.crossings[b]
    requires (id == a || id == b) && Turned(u.core.crossings, t.core.crossings, id, slot) && !Finished(SlotOf(s.core.crossings[id]))
    requires id == b ==> RecordSound(c, t.core.crossings[b]) && (Carrying(slot) ==> slot.snapshot == x)
    requires forall q :: q !in except ==> SameAt(u.scene, t.scene, q)
    ensures Stepped(s, t, c, a, b, x, id, slot, except)
  {
    StillContest(u, t, c, a, b, x, id, slot);
    ReachesTrans(Going(c), s, u, t);
    forall q | q in Keys(c, s.core.crossings, a, b) && q !in except ensures SameAt(s.scene, t.scene, q) {
      assert SameAt(s.scene, u.scene, q) && SameAt(u.scene, t.scene, q);
    }
  }

  lemma LaterExports(s: System, c: Config, a: string, b: string, x: string) returns (t: System)
    requires Contest(s, c, a, b, x) && s.core.crossings[b].state.Prepared? && Leaves(c, s.core.crossings[b], x)
    requires Holds(s.scene, SlotIn(c.links, s.core.crossings[b]).from, x)
    requires Behind(s.core.crossings, {a, b}, s.core.crossings[b].source, s.core.crossings[b].created)
    ensures Stepped(s, t, c, a, b, x, b, SlotOf(s.core.crossings[b]).(state := Exported, snapshot := x), {})
  {
    var r := s.core.crossings[b];
    var u := BringUp(s, c, a, b, x, r.source, b);
    assert SameAt(s.scene, u.scene, SlotIn(c.links, r).from);
    t := ExportsBeside(u, c, b, x);
    StepDone(s, u, t, c, a, b, x, b, SlotOf(r).(state := Exported, snapshot := x), {});
  }

  lemma OnlyArriving(s: System, c: Config, a: string, b: string, x: string)
    requires Contest(s, c, a, b, x)
    ensures Tidy(s, c, {b}) && b in s.core.crossings && RecordSound(c, s.core.crossings[b])
    ensures forall id :: Touches(s.core.crossings, c.links, id, SlotOf(s.core.crossings[b]).to) ==> id == b
  {
    assert Aside(s.core.crossings, c.links, {a, b}, SlotIn(c.links, s.core.crossings[b]).to);
  }

  lemma LaterImports(s: System, c: Config, a: string, b: string, x: string) returns (t: System)
    requires Contest(s, c, a, b, x) && s.core.crossings[b].state.Exported? && Arrives(c, b, s.core.crossings[b])
    requires SlotOf(s.core.crossings[b]).to !in s.scene
    requires Behind(s.core.crossings, {a, b}, s.core.crossings[b].destination, s.core.crossings[b].created)
    ensures var slot := SlotOf(s.core.crossings[b]);
      Stepped(s, t, c, a, b, x, b, slot.(state := Imported), {slot.to}) && Holds(t.scene, slot.to, x)
  {
    var u := BringUp(s, c, a, b, x, s.core.crossings[b].destination, b);
    t := LaterImportsNow(s, u, c, a, b, x);
  }

  lemma LaterImportsNow(s: System, u: System, c: Config, a: string, b: string, x: string) returns (t: System)
    requires a in s.core.crossings && b in s.core.crossings
    requires Reaches(Going(c), s, u) && Contest(u, c, a, b, x) && Steady(s, u, c, a, b, {})
    requires u.core.crossings[a] == s.core.crossings[a] && u.core.crossings[b] == s.core.crossings[b]
    requires Head(u.core.crossings, s.core.crossings[b].destination, b)
    requires s.core.crossings[b].state.Exported? && Arrives(c, b, s.core.crossings[b]) && SlotOf(s.core.crossings[b]).to !in s.scene
    ensures var slot := SlotOf(s.core.crossings[b]);
      Stepped(s, t, c, a, b, x, b, slot.(state := Imported), {slot.to}) && Holds(t.scene, slot.to, x)
  {
    var r, to := s.core.crossings[b], SlotOf(s.core.crossings[b]).to;
    assert SameAt(s.scene, u.scene, to);
    OnlyArriving(u, c, a, b, x);
    t := ImportsBeside(u, c, b);
    ChangedThere(u.scene, t.scene, to, r.snapshot);
    StepDone(s, u, t, c, a, b, x, b, SlotOf(r).(state := Imported), {to});
  }

  lemma LaterRemoves(s: System, c: Config, a: string, b: string, x: string) returns (t: System)
    requires Contest(s, c, a, b, x) && s.core.crossings[b].state.Imported? && SafeNames(s.core.crossings[b])
    requires var k := SlotIn(c.links, s.core.crossings[b]).from; Only(s.scene, k, x) && (k in s.scene ==> GivingBack(s.core.crossings[a]))
    requires Behind(s.core.crossings, {a, b}, s.core.crossings[b].source, s.core.crossings[b].created)
    ensures var k := SlotIn(c.links, s.core.crossings[b]).from;
      Stepped(s, t, c, a, b, x, b, SlotOf(s.core.crossings[b]).(state := Completed), {k}) && k !in t.scene
  {
    var r, k := s.core.crossings[b], SlotIn(c.links, s.core.crossings[b]).from;
    var u := BringUp(s, c, a, b, x, r.source, b);
    assert SameAt(s.scene, u.scene, k) && Aside(u.core.crossings, c.links, {a, b}, k);
    t := RemovesBeside(u, c, b);
    StepDone(s, u, t, c, a, b, x, b, SlotOf(r).(state := Completed), {k});
  }

  // ---------- steps of the earlier crossing ----------

  lemma EarlierExports(s: System, c: Config, a: string, b: string, x: string) returns (t: System)
    requires Contest(s, c, a, b, x) && s.core.crossings[a].state.Prepared? && Leaves(c, s.core.crossings[a], x)
    requires Holds(s.scene, SlotIn(c.links, s.core.crossings[a]).from, x)
    requires Behind(s.core.crossings, {a, b}, s.core.crossings[a].source, s.core.crossings[a].created)
    ensures Stepped(s, t, c, a, b, x, a, SlotOf(s.core.crossings[a]).(state := Exported, snapshot := x), {})
  {
    var r := s.core.crossings[a];
    var slot := SlotOf(r).(state := Exported, snapshot := x);
    var u := BringUp(s, c, a, b, x, r.source, a);
    assert SameAt(s.scene, u.scene, SlotIn(c.links, r).from);
    t := Exports(u, c, {b}, a, x);
    StepDone(s, u, t, c, a, b, x, a, slot, {});
  }

  lemma EarlierImports(s: System, c: Config, a: string, b: string, x: string) returns (t: System)
    requires Contest(s, c, a, b, x) && s.core.crossings[a].state.Exported? && Arrives(c, a, s.core.crossings[a])
    requires Behind(s.core.crossings, {a, b}, s.core.crossings[a].destination, s.core.crossings[a].created)
    ensures var slot := SlotOf(s.core.crossings[a]);
      Stepped(s, t, c, a, b, x, a, slot.(state := Imported), {slot.to}) && Holds(t.scene, slot.to, slot.snapshot)
  {
    var r := s.core.crossings[a];
    var slot := SlotOf(r).(state := Imported);
    var u := BringUp(s, c, a, b, x, r.destination, a);
    t := Imports(u, c, {b}, a);
    ChangedThere(u.scene, t.scene, slot.to, slot.snapshot);
    StepDone(s, u, t, c, a, b, x, a, slot, {slot.to});
  }

  lemma EarlierRemoves(s: System, c: Config, a: string, b: string, x: string) returns (t: System)
    requires Contest(s, c, a, b, x) && s.core.crossings[a].state.Imported? && SafeNames(s.core.crossings[a])
    requires Behind(s.core.crossings, {a, b}, s.core.crossings[a].source, s.core.crossings[a].created)
    ensures var slot := SlotIn(c.links, s.core.crossings[a]);
      Stepped(s, t, c, a, b, x, a, SlotOf(s.core.crossings[a]).(state := Completed), {slot.from}) && slot.from !in t.scene
  {
    var r := s.core.crossings[a];
    var slot := SlotOf(r).(state := Completed);
    var u := BringUp(s, c, a, b, x, r.source, a);
    t := Removes(u, c, {b}, a);
    StepDone(s, u, t, c, a, b, x, a, slot, {SlotIn(c.links, r).from});
  }

  lemma EarlierGivesUp(s: System, c: Config, a: string, b: string, x: string) returns (t: System)
    requires Contest(s, c, a, b, x)
    requires var state := s.core.crossings[a].state; state.Exported? || state.Imported? || state.CleanupPending?
    ensures Stepped(s, t, c, a, b, x, a, SlotOf(s.core.crossings[a]).(state := CleanupPending), {})
  {
    t := GivesUp(s, c, {b}, a, 0);
    StillContest(s, t, c, a, b, x, a, SlotOf(s.core.crossings[a]).(state := CleanupPending));
  }

  lemma EarlierCleans(s: System, c: Config, a: string, b: string, x: string) returns (t: System)
    requires Contest(s, c, a, b, x) && s.core.crossings[a].state.CleanupPending?
    requires Behind(s.core.crossings, {a, b}, s.core.crossings[a].destination, s.core.crossings[a].created)
    ensures var slot := SlotOf(s.core.crossings[a]);
      Stepped(s, t, c, a, b, x, a, slot.(state := RestorePending), {slot.to}) && slot.to !in t.scene
  {
    var r := s.core.crossings[a];
    var u := BringUp(s, c, a, b, x, r.destination, a);
    t := CleansUp(u, c, {b}, a);
    ChangedThere(u.scene, t.scene, SlotOf(r).to, "");
    StepDone(s, u, t, c, a, b, x, a, SlotOf(r).(state := RestorePending), {SlotOf(r).to});
  }

  lemma EarlierRestores(s: System, c: Config, a: string, b: string, x: string) returns (t: System)
    requires Contest(s, c, a, b, x) && s.core.crossings[a].state.RestorePending?
    requires c.checks.placeable(RestoreOf(a, s.core.crossings[a]))
    requires Behind(s.core.crossings, {a, b}, s.core.crossings[a].source, s.core.crossings[a].created)
    ensures var slot := SlotIn(c.links, s.core.crossings[a]);
      Stepped(s, t, c, a, b, x, a, SlotOf(s.core.crossings[a]).(state := RolledBack), {slot.from}) &&
      Holds(t.scene, slot.from, slot.snapshot)
  {
    var r := s.core.crossings[a];
    var u := BringUp(s, c, a, b, x, r.source, a);
    t := Restores(u, c, {b}, a, 0);
    StepDone(s, u, t, c, a, b, x, a, SlotOf(r).(state := RolledBack), {SlotIn(c.links, r).from});
  }

  // ---------- the later crossing completes, the earlier one gives its copy back ----------

  lemma BehindOther(m: Crossings, a: string, b: string, region: string, id: string)
    requires a in m && b in m && (id == a || id == b)
    requires var other := if id == a then b else a; Due(m[other], region).Some? ==> m[id].created <= m[other].created
    ensures Behind(m, {a, b}, region, m[id].created)
  {
  }

  lemma SameImport(c: Config, id: string, r: Record, u: Record, x: string)
    requires SameCrossing(r, u) && u.snapshot == x
    ensures Arrives(c, id, r.(snapshot := x)) <==> Arrives(c, id, u)
    ensures c.checks.placeable(RestoreOf(id, r.(snapshot := x))) <==> c.checks.placeable(RestoreOf(id, u))
  {
    assert ImportOf(id, r.(snapshot := x)) == ImportOf(id, u) && RestoreOf(id, r.(snapshot := x)) == RestoreOf(id, u);
  }

  lemma BothSettled(t: System, c: Config, a: string, b: string, x: string, p: Key, q: Key)
    requires Contest(t, c, a, b, x) && Finished(SlotOf(t.core.crossings[a])) && Finished(SlotOf(t.core.crossings[b]))
    requires p != q && Holds(t.scene, p, x) && Holds(t.scene, q, x)
    ensures Duplicate(t, x, p, q)
  {
  }

  // The later crossing's import and removal.
  lemma LaterArrives(s: System, c: Config, a: string, b: string, x: string) returns (t: System)
    requires Contest(s, c, a, b, x) && s.core.crossings[b].state.Exported?
    requires Arrives(c, b, s.core.crossings[b]) && SafeNames(s.core.crossings[b]) && SlotOf(s.core.crossings[b]).to !in s.scene
    requires var k := SlotIn(c.links, s.core.crossings[b]).from; Only(s.scene, k, x) && (k in s.scene ==> GivingBack(s.core.crossings[a]))
    requires var m := s.core.crossings;
      && (Due(m[a], m[b].destination).Some? ==> m[b].created <= m[a].created)
      && (Due(m[a], m[b].source).Some? ==> m[b].created <= m[a].created)
    ensures var slot := SlotIn(c.links, s.core.crossings[b]);
      && Stepped(s, t, c, a, b, x, b, SlotOf(s.core.crossings[b]).(state := Completed), {slot.from, slot.to})
      && Holds(t.scene, slot.to, x)
  {
    var m, slot := s.core.crossings, SlotIn(c.links, s.core.crossings[b]);
    BehindOther(m, a, b, m[b].destination, b);
    var u := LaterImports(s, c, a, b, x);
    assert slot.from in Keys(c, m, a, b) && SameAt(s.scene, u.scene, slot.from);
    BehindOther(u.core.crossings, a, b, m[b].source, b);
    t := LaterRemoves(u, c, a, b, x);
    assert slot.to in Keys(c, u.core.crossings, a, b) && SameAt(u.scene, t.scene, slot.to);
    SteppedTwice(s, u, t, c, a, b, x, b, {slot.to}, {slot.from});
  }

  lemma SteppedTwice(
    s: System, u: System, t: System, c: Config, a: string, b: string, x: string, id: string, d: set<Key>, e: set<Key>)
    requires Contest(s, c, a, b, x) && (id == a || id == b)
    requires id in u.core.crossings && id in t.core.crossings
    requires Stepped(s, u, c, a, b, x, id, SlotOf(u.core.crossings[id]), d)
    requires Stepped(u, t, c, a, b, x, id, SlotOf(t.core.crossings[id]), e)
    ensures Stepped(s, t, c, a, b, x, id, SlotOf(t.core.crossings[id]), d + e)
  {
    ReachesTrans(Going(c), s, u, t);
    var m, n := s.core.crossings, u.core.crossings;
    forall q | q in Keys(c, m, a, b) && q !in d + e ensures SameAt(s.scene, t.scene, q) {
      assert q in Keys(c, n, a, b) && SameAt(s.scene, u.scene, q) && SameAt(u.scene, t.scene, q);
    }
  }

  // The earlier crossing, turned back, ends at its source once the later one is finished.
  lemma EarlierEnds(s: System, c: Config, a: string, b: string, x: string) returns (t: System)
    requires Contest(s, c, a, b, x) && Finished(SlotOf(s.core.crossings[b]))
    requires s.core.crossings[a].state.CleanupPending? || s.core.crossings[a].state.RestorePending?
    requires c.checks.placeable(RestoreOf(a, s.core.crossings[a]))
    ensures var slot := SlotIn(c.links, s.core.crossings[a]);
      && Stepped(s, t, c, a, b, x, a, SlotOf(s.core.crossings[a]).(state := RolledBack), {slot.from, slot.to})
      && Holds(t.scene, slot.from, slot.snapshot)
  {
    var m, slot := s.core.crossings, SlotIn(c.links, s.core.crossings[a]);
    BehindOther(m, a, b, m[a].source, a);
    if m[a].state.RestorePending? {
      t := EarlierRestores(s, c, a, b, x);
    } else {
      BehindOther(m, a, b, m[a].destination, a);
      var u := EarlierCleans(s, c, a, b, x);
      SameImport(c, a, m[a], u.core.crossings[a], m[a].snapshot);
      BehindOther(u.core.crossings, a, b, m[a].source, a);
      t := EarlierRestores(u, c, a, b, x);
      SteppedTwice(s, u, t, c, a, b, x, a, {slot.to}, {slot.from});
    }
  }

  // The later crossing has its copy, the earlier one is giving its own back: both end with one.
  lemma LaterThenEarlier(s: System, c: Config, a: string, b: string, x: string) returns (t: System)
    requires Contest(s, c, a, b, x) && s.core.crossings[b].state.Exported?
    requires s.core.crossings[a].state.CleanupPending? || s.core.crossings[a].state.RestorePending?
    requires s.core.crossings[a].snapshot == x && c.checks.placeable(RestoreOf(a, s.core.crossings[a]))
    requires Arrives(c, b, s.core.crossings[b]) && SafeNames(s.core.crossings[b]) && SlotOf(s.core.crossings[b]).to !in s.scene
    requires Only(s.scene, SlotIn(c.links, s.core.crossings[b]).from, x)
    requires var m := s.core.crossings;
      && (Due(m[a], m[b].destination).Some? ==> m[b].created <= m[a].created)
      && (Due(m[a], m[b].source).Some? ==> m[b].created <= m[a].created)
    ensures Reaches(Going(c), s, t)
    ensures Duplicate(t, x, SlotIn(c.links, s.core.crossings[a]).from, SlotIn(c.links, s.core.crossings[b]).to)
  {
    var m := s.core.crossings;
    var u := LaterArrives(s, c, a, b, x);
    t := EarlierEnds(u, c, a, b, x);
    ReachesTrans(Going(c), s, u, t);
    var p, q := SlotIn(c.links, m[a]).from, SlotIn(c.links, m[b]).to;
    assert q in Keys(c, u.core.crossings, a, b) && SameAt(u.scene, t.scene, q);
    BothSettled(t, c, a, b, x, p, q);
  }

  // What a crossing that has taken up a linkset holds is what is at its ends.
  lemma CarriesHere(s: System, c: Config, a: string, b: string, x: string, k: Key)
    requires Contest(s, c, a, b, x) && Carrying(SlotOf(s.core.crossings[a])) && Holds(s.scene, k, x)
    requires var slot := SlotIn(c.links, s.core.crossings[a]); k == slot.from || k == slot.to
    ensures s.core.crossings[a].snapshot == x
  {
    assert Located(SlotIn(c.links, s.core.crossings[a]), s.scene);
  }

  // The earlier crossing takes up the linkset, if it has not, and is turned back.
  lemma EarlierTurnsBack(s: System, c: Config, a: string, b: string, x: string, k: Key) returns (t: System)
    requires Contest(s, c, a, b, x) && !Finished(SlotOf(s.core.crossings[a])) && Holds(s.scene, k, x)
    requires var slot := SlotIn(c.links, s.core.crossings[a]); k == slot.from || k == slot.to
    requires s.core.crossings[a].state.Prepared? ==>
      Leaves(c, s.core.crossings[a], x) && Due(s.core.crossings[b], s.core.crossings[a].source).None?
    ensures t.core.crossings.Keys >= {a, b} && Contest(t, c, a, b, x) && Reaches(Going(c), s, t)
    ensures t.core.crossings[b] == s.core.crossings[b] && SameCrossing(t.core.crossings[a], s.core.crossings[a])
    ensures t.core.crossings[a].state.CleanupPending? || t.core.crossings[a].state.RestorePending?
    ensures t.core.crossings[a].snapshot == x && Steady(s, t, c, a, b, {})
  {
    var m := s.core.crossings;
    if m[a].state.Prepared? {
      assert Located(SlotIn(c.links, m[a]), s.scene);
      BehindOther(m, a, b, m[a].source, a);
      var u := EarlierExports(s, c, a, b, x);
      t := EarlierGivesUp(u, c, a, b, x);
      SteppedTwice(s, u, t, c, a, b, x, a, {}, {});
    } else {
      CarriesHere(s, c, a, b, x, k);
      if m[a].state.RestorePending? {
        t := s;
        ReachesNow(Going(c), s);
      } else {
        t := EarlierGivesUp(s, c, a, b, x);
      }
    }
  }

  // The later crossing is offered first: whatever the state of the earlier one, both can end with a copy.
  lemma LaterFirst(s: System, c: Config, a: string, b: string, x: string) returns (t: System)
    requires Contest(s, c, a, b, x) && s.core.crossings[b].state.Prepared? && !Finished(SlotOf(s.core.crossings[a]))
    requires Moving(c, b, s.core.crossings[b], x) && Returning(c, a, s.core.crossings[a], x)
    requires s.core.crossings[b].created <= s.core.crossings[a].created
    requires var k, slot := SlotIn(c.links, s.core.crossings[b]).from, SlotIn(c.links, s.core.crossings[a]);
      Holds(s.scene, k, x) && (k == slot.from || k == slot.to)
    requires SlotOf(s.core.crossings[b]).to !in s.scene
    ensures Reaches(Going(c), s, t)
    ensures Duplicate(t, x, SlotIn(c.links, s.core.crossings[a]).from, SlotIn(c.links, s.core.crossings[b]).to)
  {
    var m, k := s.core.crossings, SlotIn(c.links, s.core.crossings[b]).from;
    assert Located(SlotIn(c.links, m[a]), s.scene);
    BehindOther(m, a, b, m[b].source, b);
    var u := LaterExports(s, c, a, b, x);
    assert k in Keys(c, m, a, b) && SameAt(s.scene, u.scene, k);
    var v := EarlierTurnsBack(u, c, a, b, x, k);
    assert k in Keys(c, u.core.crossings, a, b) && SameAt(u.scene, v.scene, k);
    var q := SlotOf(m[b]).to;
    assert q in Keys(c, m, a, b) && SameAt(s.scene, u.scene, q) && SameAt(u.scene, v.scene, q);
    SameImport(c, b, m[b], v.core.crossings[b], x);
    SameImport(c, a, m[a], v.core.crossings[a], x);
    t := LaterThenEarlier(v, c, a, b, x);
    ReachesTrans(Going(c), s, u, v);
    ReachesTrans(Going(c), s, v, t);
  }

  // ---------- the earlier crossing is offered first ----------

  // From the same source, the earlier one not yet imported: both can complete.
  lemma BothComplete(s: System, c: Config, a: string, b: string, x: string) returns (t: System)
    requires Contest(s, c, a, b, x) && s.core.crossings[b].state.Prepared? && s.core.crossings[a].state.Exported?
    requires s.core.crossings[a].snapshot == x
    requires Moving(c, b, s.core.crossings[b], x) && Moving(c, a, s.core.crossings[a], x)
    requires s.core.crossings[a].created <= s.core.crossings[b].created
    requires SlotIn(c.links, s.core.crossings[b]).from == SlotIn(c.links, s.core.crossings[a]).from
    requires SlotOf(s.core.crossings[b]).to !in s.scene
    ensures Reaches(Going(c), s, t)
    ensures Duplicate(t, x, SlotIn(c.links, s.core.crossings[a]).to, SlotIn(c.links, s.core.crossings[b]).to)
  {
    var m := s.core.crossings;
    var k, p, q := SlotIn(c.links, m[b]).from, SlotOf(m[a]).to, SlotOf(m[b]).to;
    assert Located(SlotIn(c.links, m[a]), s.scene);
    BehindOther(m, a, b, m[b].source, b);
    var u := LaterExports(s, c, a, b, x);
    assert {k, p, q} <= Keys(c, m, a, b) && SameAt(s.scene, u.scene, q);
    SameImport(c, a, m[a], u.core.crossings[a], x);
    BehindOther(u.core.crossings, a, b, m[a].destination, a);
    var v := EarlierImports(u, c, a, b, x);
    assert {k, p, q} <= Keys(c, u.core.crossings, a, b) && SameAt(u.scene, v.scene, q);
    ReachesTrans(Going(c), s, u, v);
    SameImport(c, b, m[b], v.core.crossings[b], x);
    t := BothImportedComplete(v, c, a, b, x);
    ReachesTrans(Going(c), s, v, t);
  }

  lemma BothImportedComplete(s: System, c: Config, a: string, b: string, x: string) returns (t: System)
    requires Contest(s, c, a, b, x) && s.core.crossings[b].state.Exported? && s.core.crossings[a].state.Imported?
    requires s.core.crossings[a].snapshot == x && Arrives(c, b, s.core.crossings[b])
    requires SafeNames(s.core.crossings[a]) && SafeNames(s.core.crossings[b])
    requires s.core.crossings[a].created <= s.core.crossings[b].created
    requires SlotIn(c.links, s.core.crossings[b]).from == SlotIn(c.links, s.core.crossings[a]).from
    requires SlotOf(s.core.crossings[b]).to !in s.scene
    ensures Reaches(Going(c), s, t)
    ensures Duplicate(t, x, SlotIn(c.links, s.core.crossings[a]).to, SlotIn(c.links, s.core.crossings[b]).to)
  {
    var m := s.core.crossings;
    var k, p, q := SlotIn(c.links, m[b]).from, SlotOf(m[a]).to, SlotOf(m[b]).to;
    assert Located(SlotIn(c.links, m[a]), s.scene);
    BehindOther(m, a, b, m[b].destination, b);
    var u := LaterImports(s, c, a, b, x);
    assert {k, p, q} <= Keys(c, m, a, b) && SameAt(s.scene, u.scene, p);
    BehindOther(u.core.crossings, a, b, m[a].source, a);
    var v := EarlierRemoves(u, c, a, b, x);
    assert {k, p, q} <= Keys(c, u.core.crossings, a, b) && SameAt(u.scene, v.scene, p) && SameAt(u.scene, v.scene, q);
    ReachesTrans(Going(c), s, u, v);
    BehindOther(v.core.crossings, a, b, m[b].source, b);
    t := LaterRemoves(v, c, a, b, x);
    assert {k, p, q} <= Keys(c, v.core.crossings, a, b) && SameAt(v.scene, t.scene, p) && SameAt(v.scene, t.scene, q);
    ReachesTrans(Going(c), s, v, t);
    BothSettled(t, c, a, b, x, p, q);
  }

  // From the earlier one's destination, once the copy is there.
  lemma OnwardDuplicates(s: System, c: Config, a: string, b: string, x: string) returns (t: System)
    requires Contest(s, c, a, b, x) && s.core.crossings[b].state.Prepared? && s.core.crossings[a].state.Imported?
    requires s.core.crossings[a].snapshot == x
    requires Moving(c, b, s.core.crossings[b], x) && Returning(c, a, s.core.crossings[a], x)
    requires s.core.crossings[a].created <= s.core.crossings[b].created
    requires SlotIn(c.links, s.core.crossings[b]).from == SlotIn(c.links, s.core.crossings[a]).to
    requires SlotOf(s.core.crossings[b]).to !in s.scene
    ensures Reaches(Going(c), s, t)
    ensures Duplicate(t, x, SlotIn(c.links, s.core.crossings[a]).from, SlotIn(c.links, s.core.crossings[b]).to)
  {
    var m := s.core.crossings;
    var k, q := SlotIn(c.links, m[b]).from, SlotOf(m[b]).to;
    assert Located(SlotIn(c.links, m[a]), s.scene);
    BehindOther(m, a, b, m[b].source, b);
    var u := LaterExports(s, c, a, b, x);
    assert {k, q} <= Keys(c, m, a, b) && SameAt(s.scene, u.scene, q) && SameAt(s.scene, u.scene, k);
    var v := EarlierGivesUp(u, c, a, b, x);
    assert {k, q} <= Keys(c, u.core.crossings, a, b) && SameAt(u.scene, v.scene, q) && SameAt(u.scene, v.scene, k);
    ReachesTrans(Going(c), s, u, v);
    SameImport(c, b, m[b], v.core.crossings[b], x);
    SameImport(c, a, m[a], v.core.crossings[a], x);
    t := OnwardEnds(v, c, a, b, x);
    ReachesTrans(Going(c), s, v, t);
  }

  lemma OnwardEnds(s: System, c: Config, a: string, b: string, x: string) returns (t: System)
    requires Contest(s, c, a, b, x) && s.core.crossings[b].state.Exported? && s.core.crossings[a].state.CleanupPending?
    requires s.core.crossings[a].snapshot == x && c.checks.placeable(RestoreOf(a, s.core.crossings[a]))
    requires Arrives(c, b, s.core.crossings[b]) && SafeNames(s.core.crossings[b])
    requires s.core.crossings[a].created <= s.core.crossings[b].created
    requires SlotIn(c.links, s.core.crossings[b]).from == SlotIn(c.links, s.core.crossings[a]).to
    requires SlotOf(s.core.crossings[b]).to !in s.scene
    ensures Reaches(Going(c), s, t)
    ensures Duplicate(t, x, SlotIn(c.links, s.core.crossings[a]).from, SlotIn(c.links, s.core.crossings[b]).to)
  {
    var m := s.core.crossings;
    var q := SlotOf(m[b]).to;
    BehindOther(m, a, b, m[b].destination, b);
    var u := LaterImports(s, c, a, b, x);
    BehindOther(u.core.crossings, a, b, m[a].destination, a);
    var v := EarlierCleans(u, c, a, b, x);
    assert q in Keys(c, u.core.crossings, a, b) && SameAt(u.scene, v.scene, q);
    ReachesTrans(Going(c), s, u, v);
    SameImport(c, a, m[a], v.core.crossings[a], x);
    t := OnwardRemoved(v, c, a, b, x);
    ReachesTrans(Going(c), s, v, t);
  }

  lemma OnwardRemoved(s: System, c: Config, a: string, b: string, x: string) returns (t: System)
    requires Contest(s, c, a, b, x) && s.core.crossings[b].state.Imported? && s.core.crossings[a].state.RestorePending?
    requires s.core.crossings[a].snapshot == x && c.checks.placeable(RestoreOf(a, s.core.crossings[a]))
    requires SafeNames(s.core.crossings[b])
    requires SlotIn(c.links, s.core.crossings[b]).from == SlotIn(c.links, s.core.crossings[a]).to
    requires Holds(s.scene, SlotOf(s.core.crossings[b]).to, x)
    ensures Reaches(Going(c), s, t)
    ensures Duplicate(t, x, SlotIn(c.links, s.core.crossings[a]).from, SlotIn(c.links, s.core.crossings[b]).to)
  {
    var m := s.core.crossings;
    var p, q := SlotIn(c.links, m[a]).from, SlotIn(c.links, m[b]).to;
    assert Located(SlotIn(c.links, m[a]), s.scene);
    BehindOther(m, a, b, m[b].source, b);
    var u := LaterRemoves(s, c, a, b, x);
    assert q in Keys(c, m, a, b) && SameAt(s.scene, u.scene, q);
    t := EarlierEnds(u, c, a, b, x);
    assert q in Keys(c, u.core.crossings, a, b) && SameAt(u.scene, t.scene, q);
    ReachesTrans(Going(c), s, u, t);
    BothSettled(t, c, a, b, x, p, q);
  }

  // From the same source to another region, the earlier one on its way or turned back.
  lemma AsideDuplicates(s: System, c: Config, a: string, b: string, x: string) returns (t: System)
    requires Contest(s, c, a, b, x) && s.core.crossings[b].state.Prepared?
    requires var state := s.core.crossings[a].state; state.Exported? || state.Imported? || state.CleanupPending?
    requires Moving(c, b, s.core.crossings[b], x) && Returning(c, a, s.core.crossings[a], x)
    requires Holds(s.scene, SlotIn(c.links, s.core.crossings[b]).from, x)
    requires SlotIn(c.links, s.core.crossings[b]).from == SlotIn(c.links, s.core.crossings[a]).from
    requires s.core.crossings[b].destination != s.core.crossings[a].destination
    requires SlotOf(s.core.crossings[b]).to !in s.scene
    ensures Reaches(Going(c), s, t)
    ensures Duplicate(t, x, SlotIn(c.links, s.core.crossings[a]).from, SlotIn(c.links, s.core.crossings[b]).to)
  {
    var m := s.core.crossings;
    var k, q := SlotIn(c.links, m[b]).from, SlotOf(m[b]).to;
    CarriesHere(s, c, a, b, x, k);
    var u := EarlierGivesUp(s, c, a, b, x);
    assert {k, q} <= Keys(c, m, a, b) && SameAt(s.scene, u.scene, q) && SameAt(s.scene, u.scene, k);
    BehindOther(u.core.crossings, a, b, m[b].source, b);
    var v := LaterExports(u, c, a, b, x);
    assert {k, q} <= Keys(c, u.core.crossings, a, b) && SameAt(u.scene, v.scene, q) && SameAt(u.scene, v.scene, k);
    ReachesTrans(Going(c), s, u, v);
    SameImport(c, b, m[b], v.core.crossings[b], x);
    SameImport(c, a, m[a], v.core.crossings[a], x);
    t := LaterThenEarlier(v, c, a, b, x);
    ReachesTrans(Going(c), s, v, t);
  }

  // A crossing that has not been imported: it could still complete too, or be turned back while another
  // one leaves from its source; or be imported and then turned back, once its destination is left.
  predicate Underway(c: Config, a: string, r: Record, x: string, k: Key, destination: string) {
    if k == SlotIn(c.links, r).to then Arrives(c, a, r.(snapshot := x)) && Returning(c, a, r, x)
    else Moving(c, a, r, x) || (Returning(c, a, r, x) && destination != r.destination)
  }

  // How far the earlier crossing has come, and what the regions and Core would accept, for a crossing
  // from k to another region to be able to end with a second copy although the earlier one goes first.
  predicate Overlaps(c: Config, scene: map<Key, string>, a: string, r: Record, k: Key, destination: string) {
    var slot, x := SlotIn(c.links, r), Cargo(c, scene, r);
    match r.state
    case Prepared => slot.from in scene && Leaves(c, r, x) && Underway(c, a, r, x, k, destination)
    case Exported => Underway(c, a, r, x, k, destination)
    case Imported => Returning(c, a, r, x) && (k == slot.from ==> k in scene && destination != r.destination)
    case CleanupPending => Returning(c, a, r, x) && k == slot.from && k in scene && destination != r.destination
    case _ => false
  }

  lemma EarlierFirst(s: System, c: Config, a: string, b: string, x: string, k: Key) returns (t: System)
    requires Contest(s, c, a, b, x) && s.core.crossings[b].state.Prepared? && x == Cargo(c, s.scene, s.core.crossings[a])
    requires Moving(c, b, s.core.crossings[b], x)
    requires Overlaps(c, s.scene, a, s.core.crossings[a], k, s.core.crossings[b].destination)
    requires s.core.crossings[a].created <= s.core.crossings[b].created
    requires k == SlotIn(c.links, s.core.crossings[b]).from
    requires var slot := SlotIn(c.links, s.core.crossings[a]); k == slot.from || k == slot.to
    requires SlotOf(s.core.crossings[b]).to !in s.scene
    ensures Reaches(Going(c), s, t) && exists p, q :: Duplicate(t, x, p, q)
  {
    var r := s.core.crossings[a];
    assert Located(SlotIn(c.links, r), s.scene);
    if r.state.Prepared? {
      BehindOther(s.core.crossings, a, b, r.source, a);
      var u := EarlierExports(s, c, a, b, x);
      assert SlotOf(s.core.crossings[b]).to in Keys(c, s.core.crossings, a, b);
      assert SameAt(s.scene, u.scene, SlotOf(s.core.crossings[b]).to);
      ExportedOverlaps(c, a, r, u.core.crossings[a], x);
      t := EarlierExported(u, c, a, b, x, k);
      ReachesTrans(Going(c), s, u, t);
    } else if r.state.Exported? {
      t := EarlierExported(s, c, a, b, x, k);
    } else if k == SlotIn(c.links, r).to {
      t := OnwardDuplicates(s, c, a, b, x);
    } else {
      t := AsideDuplicates(s, c, a, b, x);
    }
  }

  lemma ExportedOverlaps(c: Config, a: string, r: Record, u: Record, x: string)
    requires SameCrossing(u, r) && u.snapshot == x
    ensures Arrives(c, a, r.(snapshot := x)) <==> Arrives(c, a, u)
    ensures Moving(c, a, r, x) <==> Moving(c, a, u, x)
    ensures Returning(c, a, r, x) <==> Returning(c, a, u, x)
  {
    SameImport(c, a, r, u, x);
    SameImport(c, a, u, u, x);
  }

  lemma EarlierExported(s: System, c: Config, a: string, b: string, x: string, k: Key) returns (t: System)
    requires Contest(s, c, a, b, x) && s.core.crossings[b].state.Prepared? && s.core.crossings[a].state.Exported?
    requires s.core.crossings[a].snapshot == x && Moving(c, b, s.core.crossings[b], x)
    requires Underway(c, a, s.core.crossings[a], x, k, s.core.crossings[b].destination)
    requires s.core.crossings[a].created <= s.core.crossings[b].created
    requires k == SlotIn(c.links, s.core.crossings[b]).from
    requires var slot := SlotIn(c.links, s.core.crossings[a]); k == slot.from || k == slot.to
    requires SlotOf(s.core.crossings[b]).to !in s.scene
    ensures Reaches(Going(c), s, t) && exists p, q :: Duplicate(t, x, p, q)
  {
    var m := s.core.crossings;
    assert Located(SlotIn(c.links, m[a]), s.scene);
    if k != SlotIn(c.links, m[a]).to && Moving(c, a, m[a], x) {
      t := BothComplete(s, c, a, b, x);
    } else if k != SlotIn(c.links, m[a]).to {
      t := AsideDuplicates(s, c, a, b, x);
    } else {
      BehindOther(m, a, b, m[a].destination, a);
      SameImport(c, a, m[a], m[a], x);
      var u := EarlierImports(s, c, a, b, x);
      var q := SlotOf(m[b]).to;
      assert q in Keys(c, m, a, b) && SameAt(s.scene, u.scene, q);
      ExportedOverlaps(c, a, m[a], u.core.crossings[a], x);
      t := OnwardDuplicates(u, c, a, b, x);
      ReachesTrans(Going(c), s, u, t);
    }
  }

  // ---------- opening a crossing on a linkset that is already crossing ----------

  lemma NoneElseCarries(s: System, c: Config, home: map<string, Home>, a: string)
    requires Good(s, c, home) && a in s.core.crossings && !Finished(SlotOf(s.core.crossings[a]))
    requires s.core.crossings[a].state.Prepared? ==> SlotIn(c.links, s.core.crossings[a]).from in s.scene
    ensures var x := Cargo(c, s.scene, s.core.crossings[a]);
      forall id :: id in s.core.crossings && id != a ==>
        !(Carrying(SlotOf(s.core.crossings[id])) && s.core.crossings[id].snapshot == x)
  {
    var w, x := View(s, c.links), Cargo(c, s.scene, s.core.crossings[a]);
    if s.core.crossings[a].state.Prepared? {
      HomeOfPrepared(w, a, home);
    } else {
      assert Carrying(w.slots[a]) && home[x] == With(a);
    }
    forall id | id in s.core.crossings && id != a
      ensures !(Carrying(SlotOf(s.core.crossings[id])) && s.core.crossings[id].snapshot == x)
    {
      assert Carrying(w.slots[id]) ==> home[w.slots[id].snapshot] == With(id);
    }
  }

  lemma OpenedTidy(
    s: System, t: System, c: Config, home: map<string, Home>,
    b: string, owner: string, from: Key, destination: string, now: int, expires: int)
    requires Good(s, c, home) && Prepares(s, t, c, b, owner, from, destination, now, expires)
    requires AllRestorable(s, c, {})
    ensures Tidy(t.(busy := map[]), c, {b}) && AllRestorable(t, c, {}) && RecordSound(c, t.core.crossings[b])
  {
    GoodTidy(s, c, home, {});
    var before, after := Slots(c.links, s.core.crossings), Slots(c.links, t.core.crossings);
    SlotsUpdate(c.links, s.core.crossings, b, t.core.crossings[b]);
    forall i, j | i in after && j in after && i != j && Ongoing(after, i, {b}) && Ongoing(after, j, {b})
      ensures KeysApart(after[i], after[j])
    {
      assert Ongoing(before, i, {}) && Ongoing(before, j, {});
    }
  }

  lemma OnlyThese(
    s: System, t: System, c: Config, home: map<string, Home>,
    a: string, b: string, owner: string, from: Key, destination: string, now: int, expires: int, q: Key)
    requires Good(s, c, home) && Prepares(s, t, c, b, owner, from, destination, now, expires)
    requires Touches(s.core.crossings, c.links, a, Root(c.links, from)) && q in Keys(c, t.core.crossings, a, b)
    ensures Aside(t.core.crossings, c.links, {a, b}, q)
  {
    var w := View(s, c.links);
    forall id | Touches(t.core.crossings, c.links, id, q) ensures id in {a, b} {
      assert id != a && id != b ==> KeysApart(w.slots[id], w.slots[a]);
      assert !Touches(s.core.crossings, c.links, id, Key(destination, DestinationId(b)));
    }
  }

  lemma OpenedContest(
    s: System, t: System, c: Config, linksets: set<string>,
    a: string, b: string, owner: string, from: Key, destination: string, now: int, expires: int)
    requires Lives(s, c, linksets) && Prepares(s, t, c, b, owner, from, destination, now, expires) && AllRestorable(s, c, {})
    requires Touches(s.core.crossings, c.links, a, Root(c.links, from))
    requires s.core.crossings[a].state.Prepared? ==> SlotIn(c.links, s.core.crossings[a]).from in s.scene
    requires c.checks.owner(Cargo(c, s.scene, s.core.crossings[a])) == Some(s.core.crossings[a].owner)
    ensures Contest(t.(busy := map[]), c, a, b, Cargo(c, s.scene, s.core.crossings[a]))
  {
    var home: map<string, Home> :| home.Keys == linksets && Good(s, c, home);
    OpenedTidy(s, t, c, home, b, owner, from, destination, now, expires);
    NoneElseCarries(s, c, home, a);
    OnlyTheseAll(s, t, c, home, a, b, owner, from, destination, now, expires);
    OpenedApart(s, t, c, a, b, owner, from, destination, now, expires);
    MakeContest(s, t, c, a, b, Cargo(c, s.scene, s.core.crossings[a]));
  }

  lemma OnlyTheseAll(
    s: System, t: System, c: Config, home: map<string, Home>,
    a: string, b: string, owner: string, from: Key, destination: string, now: int, expires: int)
    requires Good(s, c, home) && Prepares(s, t, c, b, owner, from, destination, now, expires)
    requires Touches(s.core.crossings, c.links, a, Root(c.links, from))
    ensures forall q :: q in Keys(c, t.core.crossings, a, b) ==> Aside(t.core.crossings, c.links, {a, b}, q)
  {
    forall q | q in Keys(c, t.core.crossings, a, b) ensures Aside(t.core.crossings, c.links, {a, b}, q) {
      OnlyThese(s, t, c, home, a, b, owner, from, destination, now, expires, q);
    }
  }

  lemma OpenedApart(
    s: System, t: System, c: Config, a: string, b: string, owner: string, from: Key, destination: string, now: int, expires: int)
    requires Prepares(s, t, c, b, owner, from, destination, now, expires)
    requires Touches(s.core.crossings, c.links, a, Root(c.links, from))
    ensures a != b && a in t.core.crossings && b in t.core.crossings && t.core.crossings[b].state.Prepared?
    ensures t.core.crossings == s.core.crossings[b := t.core.crossings[b]]
    ensures var m, to := t.core.crossings, Key(destination, DestinationId(b));
      SlotIn(c.links, m[b]).to == to && to != SlotIn(c.links, m[a]).from && to != SlotIn(c.links, m[a]).to
  {
    assert !Touches(s.core.crossings, c.links, a, Key(destination, DestinationId(b)));
  }

  lemma MakeContest(s: System, t: System, c: Config, a: string, b: string, x: string)
    requires Tidy(t.(busy := map[]), c, {b}) && AllRestorable(t, c, {})
    requires a != b && a in s.core.crossings && b !in s.core.crossings && b in t.core.crossings
    requires t.core.crossings == s.core.crossings[b := t.core.crossings[b]] && RecordSound(c, t.core.crossings[b])
    requires t.core.crossings[b].state.Prepared?
    requires forall id :: id in s.core.crossings && id != a ==>
      !(Carrying(SlotOf(s.core.crossings[id])) && s.core.crossings[id].snapshot == x)
    requires forall q :: q in Keys(c, t.core.crossings, a, b) ==> Aside(t.core.crossings, c.links, {a, b}, q)
    requires var m := t.core.crossings;
      SlotIn(c.links, m[b]).to != SlotIn(c.links, m[a]).from && SlotIn(c.links, m[b]).to != SlotIn(c.links, m[a]).to
    requires c.checks.owner(x) == Some(s.core.crossings[a].owner)
    ensures Contest(t.(busy := map[]), c, a, b, x)
  {
  }

  // The order of time: an earlier crossing is offered first. The later one may name any member of the
  // linkset, and may leave from the source or go on from the destination of the earlier one. Then two
  // copies of the linkset can be left, with no crossing to take either away.
  lemma OverlapDuplicates(
    s: System, t: System, c: Config, linksets: set<string>,
    a: string, b: string, owner: string, from: Key, destination: string, now: int, expires: int)
    returns (end: System)
    requires Lives(s, c, linksets) && Prepares(s, t, c, b, owner, from, destination, now, expires) && AllRestorable(s, c, {})
    requires Touches(s.core.crossings, c.links, a, Root(c.links, from)) && s.core.crossings[a].created <= now
    requires Overlaps(c, s.scene, a, s.core.crossings[a], Root(c.links, from), destination)
    requires Moving(c, b, t.core.crossings[b], Cargo(c, s.scene, s.core.crossings[a]))
    ensures Reaches(Going(c), t, end) && exists p, q :: Duplicate(end, Cargo(c, s.scene, s.core.crossings[a]), p, q)
  {
    var x := Cargo(c, s.scene, s.core.crossings[a]);
    OpenedContest(s, t, c, linksets, a, b, owner, from, destination, now, expires);
    OpenedApart(s, t, c, a, b, owner, from, destination, now, expires);
    var u := LoseAll(t, c);
    end := EarlierFirst(u, c, a, b, x, Root(c.links, from));
    ReachesTrans(Going(c), t, u, end);
  }

  lemma LivesAt(s: System, c: Config, linksets: set<string>, id: string)
    requires Lives(s, c, linksets) && id in s.core.crossings
    ensures Located(SlotIn(c.links, s.core.crossings[id]), s.scene) && RecordSound(c, s.core.crossings[id])
  {
    var home: map<string, Home> :| home.Keys == linksets && Good(s, c, home);
    assert Located(View(s, c.links).slots[id], s.scene);
  }

  // So the addresses do not tell: two crossings named by different members of a linkset have no
  // address in common, and can duplicate it all the same.
  lemma MembersDuplicate(
    s: System, t: System, c: Config, linksets: set<string>,
    a: string, b: string, owner: string, from: Key, destination: string, now: int, expires: int)
    returns (end: System)
    requires Lives(s, c, linksets) && Prepares(s, t, c, b, owner, from, destination, now, expires) && AllRestorable(s, c, {})
    requires a in s.core.crossings && s.core.crossings[a].state.Prepared? && s.core.crossings[a].created <= now
    requires from != SlotOf(s.core.crossings[a]).from && Root(c.links, from) == SlotIn(c.links, s.core.crossings[a]).from
    requires from != SlotOf(s.core.crossings[a]).to
    requires Root(c.links, from) in s.scene
    requires var x := s.scene[Root(c.links, from)];
      Moving(c, a, s.core.crossings[a], x) && Moving(c, b, t.core.crossings[b], x)
    ensures KeysApart(SlotOf(t.core.crossings[a]), SlotOf(t.core.crossings[b]))
    ensures Reaches(Going(c), t, end) && exists p, q :: Duplicate(end, s.scene[Root(c.links, from)], p, q)
  {
    LivesAt(s, c, linksets, a);
    OpenedApart(s, t, c, a, b, owner, from, destination, now, expires);
    end := OverlapDuplicates(s, t, c, linksets, a, b, owner, from, destination, now, expires);
  }
}
