// When a second crossing on one linkset can duplicate it: with the guard never, and without it in exactly
// these cases, whatever the clock says.

module CrossingGuard {
  import opened Basics
  import opened ObjectCrossingStore
  import opened CrossingProtocol
  import opened CrossingRegion
  import opened CoreCrossings
  import opened CrossingSystem
  import opened CrossingExchange
  import opened CrossingQueue
  import opened CrossingRecovery
  import opened CrossingWithout
  import opened CrossingPrecedence
  import opened CrossingOverlap

  // ---------- the guard is exact ----------

  lemma GuardHolds(t: System, end: System, c: Config, linksets: set<string>, x: string, p: Key, q: Key)
    requires Lives(t, c, linksets) && Reaches(Going(c), t, end)
    ensures !Duplicate(end, x, p, q)
  {
    GoingGuarded(t, end, c);
    ReachesLives(t, end, c, linksets);
    var home: map<string, Home> :| home.Keys == linksets && Good(end, c, home);
    if p != q && Holds(end.scene, p, x) && Holds(end.scene, q, x) {
      var id := CopiesAreEnds(View(end, c.links), home, p, q);
      assert CarriedIn(end, id, x);
    }
  }

  lemma CargoHere(s: System, c: Config, linksets: set<string>, a: string, k: Key)
    requires Lives(s, c, linksets) && Touches(s.core.crossings, c.links, a, k) && k in s.scene
    ensures s.core.crossings[a].state.Prepared? ==> k == SlotIn(c.links, s.core.crossings[a]).from
    ensures Cargo(c, s.scene, s.core.crossings[a]) == s.scene[k]
  {
    LivesAt(s, c, linksets, a);
  }

  lemma GuardNeeded(
    s: System, t: System, c: Config, linksets: set<string>,
    a: string, b: string, owner: string, from: Key, destination: string, now: int, expires: int)
    returns (end: System, p: Key, q: Key)
    requires Lives(s, c, linksets) && Prepares(s, t, c, b, owner, from, destination, now, expires) && AllRestorable(s, c, {})
    requires Root(c.links, from) in s.scene && Touches(s.core.crossings, c.links, a, Root(c.links, from))
    requires now <= s.core.crossings[a].created
    requires var x := s.scene[Root(c.links, from)];
      Moving(c, b, t.core.crossings[b], x) && Returning(c, a, s.core.crossings[a], x)
    ensures Reaches(Going(c), t, end) && Duplicate(end, s.scene[Root(c.links, from)], p, q)
  {
    var k := Root(c.links, from);
    CargoHere(s, c, linksets, a, k);
    OpenedApart(s, t, c, a, b, owner, from, destination, now, expires);
    OpenedContest(s, t, c, linksets, a, b, owner, from, destination, now, expires);
    var u := LoseAll(t, c);
    end := LaterFirst(u, c, a, b, s.scene[k]);
    p, q := SlotIn(c.links, u.core.crossings[a]).from, SlotIn(c.links, u.core.crossings[b]).to;
    ReachesTrans(Going(c), t, u, end);
  }

  // The guard is exact. A crossing is opened on a linkset that is in a scene, and both it and any crossing
  // that touches the linkset would be accepted on their way; the clock has not moved on since that
  // crossing was opened, so that Core may offer either first. Then the system can be left with two copies
  // exactly when an unfinished crossing touches the linkset, in whatever state and at whichever end.
  lemma GuardExact(
    s: System, t: System, c: Config, linksets: set<string>,
    b: string, owner: string, from: Key, destination: string, now: int, expires: int)
    requires Lives(s, c, linksets) && Prepares(s, t, c, b, owner, from, destination, now, expires) && AllRestorable(s, c, {})
    requires Root(c.links, from) in s.scene && Moving(c, b, t.core.crossings[b], s.scene[Root(c.links, from)])
    requires forall a :: Touches(s.core.crossings, c.links, a, Root(c.links, from)) ==>
      now <= s.core.crossings[a].created && Returning(c, a, s.core.crossings[a], s.scene[Root(c.links, from)])
    ensures (exists end, x, p, q :: Reaches(Going(c), t, end) && Duplicate(end, x, p, q)) <==>
      !Untouched(s.core.crossings, c.links, Root(c.links, from))
  {
    if Untouched(s.core.crossings, c.links, Root(c.links, from)) {
      OpenedLives(s, t, c, linksets, b, owner, from, destination, now, expires);
      forall end, x, p, q | Reaches(Going(c), t, end) ensures !Duplicate(end, x, p, q) {
        GuardHolds(t, end, c, linksets, x, p, q);
      }
    } else {
      var a :| Touches(s.core.crossings, c.links, a, Root(c.links, from));
      var end, p, q := GuardNeeded(s, t, c, linksets, a, b, owner, from, destination, now, expires);
    }
  }

  lemma OpenedLives(
    s: System, t: System, c: Config, linksets: set<string>,
    b: string, owner: string, from: Key, destination: string, now: int, expires: int)
    requires Lives(s, c, linksets) && Prepares(s, t, c, b, owner, from, destination, now, expires)
    requires Untouched(s.core.crossings, c.links, Root(c.links, from))
    ensures Lives(t, c, linksets)
  {
    var home: map<string, Home> :| home.Keys == linksets && Good(s, c, home);
    OpenedGood(s, t, c, home, b, owner, from, destination, now, expires);
  }

  // ---------- an earlier crossing that keeps the later one away ----------

  lemma CopiesCarried(s: System, c: Config, linksets: set<string>, id: string, e: Key, x: string, p: Key, q: Key)
    requires Lives(Without(s, c.links, id, e), c, linksets) && p != e && q != e
    ensures !Duplicate(s, x, p, q)
  {
    var u := Without(s, c.links, id, e);
    var home := LivesHome(u, c, linksets);
    if p != q && Holds(s.scene, p, x) && Holds(s.scene, q, x) {
      assert Holds(u.scene, p, x) && Holds(u.scene, q, x);
      var other := CopiesAreEnds(View(u, c.links), home, p, q);
      assert CarriedIn(s, other, x);
    }
  }

  lemma WaitingNone(s: System, c: Config, linksets: set<string>, v: Rivals, x: string, p: Key, q: Key)
    requires Waiting(s, c, linksets, v)
    ensures !Duplicate(s, x, p, q)
  {
    if p in s.scene && q in s.scene {
      CopiesCarried(s, c, linksets, v.b, ToB(c, v), x, p, q);
    }
  }

  lemma CopyCarried(s: System, c: Config, linksets: set<string>, v: Rivals, x: string)
    requires Paired(s.core.crossings, c, v) && v.a in s.core.crossings && s.core.crossings[v.a].state.CleanupPending?
    requires Lives(Without(s, c.links, v.b, ToB(c, v)), c, linksets) && Holds(s.scene, ToA(c, v), x)
    ensures CarriedIn(s, v.a, x)
  {
    SameEnds(c, s.core.crossings[v.a], v.ra);
    LivesSound(Without(s, c.links, v.b, ToB(c, v)), c, linksets, v.a);
    assert Holds(s.scene - {ToB(c, v)}, ToA(c, v), x);
  }

  lemma FollowingNone(s: System, c: Config, linksets: set<string>, v: Rivals, x: string, p: Key, q: Key)
    requires Following(s, c, linksets, v)
    ensures !Duplicate(s, x, p, q)
  {
    var e := ToA(c, v);
    if p != e && q != e {
      CopiesCarried(s, c, linksets, v.a, e, x, p, q);
    } else if Holds(s.scene, e, x) {
      assert v.a in s.core.crossings && !Finished(SlotOf(s.core.crossings[v.a]));
      if s.core.crossings[v.a].state.RestorePending? {
        BackCleaned(s, c, linksets, v);
      }
      CopyCarried(s, c, linksets, v, x);
    }
  }

  lemma SparedNone(s: System, c: Config, linksets: set<string>, v: Rivals, x: string, p: Key, q: Key)
    requires Spared(s, c, linksets, v)
    ensures !Duplicate(s, x, p, q)
  {
    if Lives(s, c, linksets) {
      ReachesNow(Going(c), s);
      GuardHolds(s, s, c, linksets, x, p, q);
    } else if Waiting(s, c, linksets, v) {
      WaitingNone(s, c, linksets, v, x, p, q);
    } else {
      FollowingNone(s, c, linksets, v, x, p, q);
    }
  }

  lemma OpenedWithout(
    s: System, t: System, c: Config, b: string, owner: string, from: Key, destination: string, now: int, expires: int)
    requires Prepares(s, t, c, b, owner, from, destination, now, expires)
    ensures Without(t, c.links, b, Key(destination, DestinationId(b))) == s
  {
    var to := Key(destination, DestinationId(b));
    assert t.core.crossings - {b} == s.core.crossings;
    SceneWithout(s.scene, to);
    forall region | region in s.busy ensures Stays(c.links, s.busy[region], b, to) {
    }
    assert BusyWithout(c.links, s.busy, b, to) == s.busy;
  }

  // The later crossing starts by waiting.
  lemma OpenedWaiting(
    s: System, t: System, c: Config, linksets: set<string>,
    a: string, b: string, owner: string, from: Key, destination: string, now: int, expires: int)
    requires Lives(s, c, linksets) && Prepares(s, t, c, b, owner, from, destination, now, expires)
    requires Touches(s.core.crossings, c.links, a, Root(c.links, from)) && s.core.crossings[a].created < now
    requires b in t.core.crossings && Before(c, Rivals(a, s.core.crossings[a], b, t.core.crossings[b]), s.core.crossings[a].state)
    ensures Waiting(t, c, linksets, Rivals(a, s.core.crossings[a], b, t.core.crossings[b]))
  {
    OpenedWithout(s, t, c, b, owner, from, destination, now, expires);
    OpenedPaired(s, t, c, linksets, a, b, owner, from, destination, now, expires);
    OpenedIdle(s, t, c, b, owner, from, destination, now, expires, Rivals(a, s.core.crossings[a], b, t.core.crossings[b]));
  }

  lemma OpenedPaired(
    s: System, t: System, c: Config, linksets: set<string>,
    a: string, b: string, owner: string, from: Key, destination: string, now: int, expires: int)
    requires Lives(s, c, linksets) && Prepares(s, t, c, b, owner, from, destination, now, expires)
    requires Touches(s.core.crossings, c.links, a, Root(c.links, from)) && s.core.crossings[a].created < now
    requires b in t.core.crossings
    ensures Paired(t.core.crossings, c, Rivals(a, s.core.crossings[a], b, t.core.crossings[b]))
  {
    OpenedApart(s, t, c, a, b, owner, from, destination, now, expires);
    LivesSound(s, c, linksets, a);
    var home := LivesHome(s, c, linksets);
    OnlyTheseAll(s, t, c, home, a, b, owner, from, destination, now, expires);
  }

  lemma OpenedIdle(
    s: System, t: System, c: Config, b: string, owner: string, from: Key, destination: string, now: int, expires: int, v: Rivals)
    requires Prepares(s, t, c, b, owner, from, destination, now, expires) && b in t.core.crossings
    requires v.b == b && v.rb == t.core.crossings[b]
    ensures Idle(t, c, v)
  {
  }

  // Such a crossing does no harm.
  lemma LaterHarmless(
    s: System, t: System, c: Config, linksets: set<string>,
    a: string, b: string, owner: string, from: Key, destination: string, now: int, expires: int,
    end: System, x: string, p: Key, q: Key)
    requires Lives(s, c, linksets) && Prepares(s, t, c, b, owner, from, destination, now, expires)
    requires Touches(s.core.crossings, c.links, a, Root(c.links, from)) && s.core.crossings[a].created < now
    requires b in t.core.crossings && Before(c, Rivals(a, s.core.crossings[a], b, t.core.crossings[b]), s.core.crossings[a].state)
    requires Reaches(Going(c), t, end)
    ensures !Duplicate(end, x, p, q)
  {
    var v := Rivals(a, s.core.crossings[a], b, t.core.crossings[b]);
    OpenedWaiting(s, t, c, linksets, a, b, owner, from, destination, now, expires);
    SparedRun(t, end, c, linksets, v);
    SparedNone(end, c, linksets, v, x, p, q);
  }

  lemma SparedRun(s: System, t: System, c: Config, linksets: set<string>, v: Rivals)
    requires Spared(s, c, linksets, v) && Reaches(Going(c), s, t)
    ensures Spared(t, c, linksets, v)
  {
    forall a: System, b: System | Spared(a, c, linksets, v) && Going(c)(a, b) ensures Spared(b, c, linksets, v) {
      SparedNext(a, b, c, linksets, v);
    }
    ReachesKeeps(Going(c), (a: System) => Spared(a, c, linksets, v), s, t);
  }

  // ---------- exactly when, at any clock ----------

  // The other cases are those in which the later crossing gets a copy although it is offered last.
  lemma NotBefore(s: System, c: Config, linksets: set<string>, a: string, b: string, rb: Record, k: Key, x: string)
    requires Lives(s, c, linksets) && Touches(s.core.crossings, c.links, a, k) && Holds(s.scene, k, x)
    requires k == SlotIn(c.links, rb).from
    requires Moving(c, a, s.core.crossings[a], x) && Returning(c, a, s.core.crossings[a], x)
    requires !Before(c, Rivals(a, s.core.crossings[a], b, rb), s.core.crossings[a].state)
    ensures Overlaps(c, s.scene, a, s.core.crossings[a], k, rb.destination)
  {
    CargoHere(s, c, linksets, a, k);
  }

  lemma LaterDuplicates(
    s: System, t: System, c: Config, linksets: set<string>,
    a: string, b: string, owner: string, from: Key, destination: string, now: int, expires: int)
    requires Lives(s, c, linksets) && Prepares(s, t, c, b, owner, from, destination, now, expires) && AllRestorable(s, c, {})
    requires Root(c.links, from) in s.scene && Touches(s.core.crossings, c.links, a, Root(c.links, from))
    requires b in t.core.crossings
    requires var x := s.scene[Root(c.links, from)];
      && Moving(c, b, t.core.crossings[b], x)
      && Moving(c, a, s.core.crossings[a], x) && Returning(c, a, s.core.crossings[a], x)
    requires now <= s.core.crossings[a].created ||
      !Before(c, Rivals(a, s.core.crossings[a], b, t.core.crossings[b]), s.core.crossings[a].state)
    ensures exists end, x, p, q :: Reaches(Going(c), t, end) && Duplicate(end, x, p, q)
  {
    var k := Root(c.links, from);
    if now <= s.core.crossings[a].created {
      var end, p, q := GuardNeeded(s, t, c, linksets, a, b, owner, from, destination, now, expires);
    } else {
      CargoHere(s, c, linksets, a, k);
      NotBefore(s, c, linksets, a, b, t.core.crossings[b], k, s.scene[k]);
      var end := OverlapDuplicates(s, t, c, linksets, a, b, owner, from, destination, now, expires);
    }
  }

  // An unfinished crossing on the linkset that does not keep the new crossing b away from it: it is not the
  // older one, or it is in a state in which it does not.
  ghost predicate Endangers(m: Crossings, c: Config, a: string, b: string, rb: Record, k: Key, now: int) {
    Touches(m, c.links, a, k) && (now <= m[a].created || !Before(c, Rivals(a, m[a], b, rb), m[a].state))
  }

  // A crossing is opened on a linkset that is in a scene, and both it and an unfinished crossing that
  // touches the linkset would be accepted on their way. Then the system can be left with two copies of a
  // linkset exactly when there is such a crossing and it does not keep the new one away. An older crossing
  // does so in these cases only: it waits to be restored; it waits for its cleanup, and the new one leaves
  // from where it went, or goes to the same region; it is imported, and the new one leaves from the same
  // place for the same region.
  lemma DuplicatesExactly(
    s: System, t: System, c: Config, linksets: set<string>,
    b: string, owner: string, from: Key, destination: string, now: int, expires: int)
    requires Lives(s, c, linksets) && Prepares(s, t, c, b, owner, from, destination, now, expires) && AllRestorable(s, c, {})
    requires Root(c.links, from) in s.scene && b in t.core.crossings
    requires Moving(c, b, t.core.crossings[b], s.scene[Root(c.links, from)])
    requires forall a :: Touches(s.core.crossings, c.links, a, Root(c.links, from)) ==>
      var x := s.scene[Root(c.links, from)];
      Moving(c, a, s.core.crossings[a], x) && Returning(c, a, s.core.crossings[a], x)
    ensures (exists end, x, p, q :: Reaches(Going(c), t, end) && Duplicate(end, x, p, q)) <==>
      exists a :: Endangers(s.core.crossings, c, a, b, t.core.crossings[b], Root(c.links, from), now)
  {
    var k, m := Root(c.links, from), s.core.crossings;
    if Untouched(m, c.links, k) {
      OpenedLives(s, t, c, linksets, b, owner, from, destination, now, expires);
      forall end, x, p, q | Reaches(Going(c), t, end) ensures !Duplicate(end, x, p, q) {
        GuardHolds(t, end, c, linksets, x, p, q);
      }
    } else if a :| Endangers(m, c, a, b, t.core.crossings[b], k, now) {
      LaterDuplicates(s, t, c, linksets, a, b, owner, from, destination, now, expires);
    } else {
      var a :| Touches(m, c.links, a, k);
      assert !Endangers(m, c, a, b, t.core.crossings[b], k, now);
      forall end, x, p, q | Reaches(Going(c), t, end) ensures !Duplicate(end, x, p, q) {
        LaterHarmless(s, t, c, linksets, a, b, owner, from, destination, now, expires, end, x, p, q);
      }
    }
  }
}
