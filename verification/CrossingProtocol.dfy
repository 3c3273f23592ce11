// The object-crossing protocol between Core and the regions, as a state machine: where linksets are,
// what crossing records say, and what command each region has in hand. A region works on one command
// at a time; commands and results may be lost; records may be rolled back or expire at any moment.

module CrossingProtocol {
  import opened ObjectCrossingStore

  datatype Key = Key(region: string, entity: nat)

  // What the protocol depends on in a crossing record.
  datatype Slot = Slot(state: State, from: Key, to: Key, snapshot: string)

  // A command as sent to a region.
  datatype Order = Order(kind: Kind, id: string, from: Key, to: Key, snapshot: string)

  // What the region reports back.
  datatype Report = Report(ok: bool, error: string, snapshot: string, entity: nat, entityMap: string)

  datatype Work = Issued(order: Order) | Done(order: Order, report: Report)

  // A linkset is known by its contents; `scene` says which contents each key holds.
  datatype World = World(slots: map<string, Slot>, scene: map<Key, string>, busy: map<string, Work>)

  predicate AtSource(kind: Kind) { kind.ExportSource? || kind.RemoveSource? || kind.RestoreSource? }

  function Place(o: Order): Key { if AtSource(o.kind) then o.from else o.to }

  predicate Finished(s: Slot) { s.state.Completed? || s.state.RolledBack? }

  predicate Carrying(s: Slot) {
    s.state.Exported? || s.state.Imported? || s.state.CleanupPending? || s.state.RestorePending?
  }

  // ---------- what a region does with a command ----------

  // The scene's contract: a successful import or restore leaves the linkset present, importing a
  // linkset that is already there succeeds, a rejected command changes nothing.
  ghost predicate Applies(o: Order, scene: map<Key, string>, after: map<Key, string>, r: Report) {
    var k := Place(o);
    match o.kind
    case ExportSource => after == scene && (r.ok ==> k in scene && r.snapshot == scene[k])
    case ImportDestination =>
      if k in scene then after == scene && (r.ok <==> scene[k] == o.snapshot)
      else if r.ok then after == scene[k := o.snapshot] else after == scene
    case RestoreSource =>
      if r.ok then Only(scene, k, o.snapshot) && after == scene[k := o.snapshot] else after == scene
    case _ => if r.ok then after == scene - {k} else after == scene && k in scene
  }

  // ---------- steps ----------

  ghost predicate KeysApart(a: Slot, b: Slot) {
    a.from != b.from && a.from != b.to && a.to != b.from && a.to != b.to
  }

  // A crossing is opened on a linkset no unfinished crossing touches, with a fresh destination.
  ghost predicate Open(w: World, v: World, id: string, slot: Slot) {
    && id !in w.slots && (forall region :: region in w.busy ==> w.busy[region].order.id != id)
    && slot.state == Prepared && slot.snapshot == "" && slot.from.region != slot.to.region
    && slot.to !in w.scene
    && (forall other :: other in w.slots && !Finished(w.slots[other]) ==> KeysApart(slot, w.slots[other]))
    && v == w.(slots := w.slots[id := slot])
  }

  ghost predicate Issue(w: World, v: World, region: string, order: Order) {
    && region !in w.busy && Place(order).region == region
    && order.id in w.slots && w.slots[order.id] == Slot(StateFor(order.kind), order.from, order.to, order.snapshot)
    && v == w.(busy := w.busy[region := Issued(order)])
  }

  ghost predicate Act(w: World, v: World, region: string, r: Report) {
    && region in w.busy && w.busy[region].Issued?
    && Applies(w.busy[region].order, w.scene, v.scene, r)
    && v == World(w.slots, v.scene, w.busy[region := Done(w.busy[region].order, r)])
  }

  function Advanced(s: Slot, kind: Kind, snapshot: string): Slot {
    match kind
    case ExportSource => s.(state := Exported, snapshot := snapshot)
    case ImportDestination => s.(state := Imported)
    case RemoveSource => s.(state := Completed)
    case CleanupDestination => s.(state := RestorePending)
    case RestoreSource => s.(state := RolledBack)
  }

  // Core records a successful result.
  ghost predicate Commit(w: World, v: World, region: string) {
    && region in w.busy && w.busy[region].Done? && w.busy[region].report.ok
    && var o := w.busy[region].order;
    && o.id in w.slots && w.slots[o.id].state == StateFor(o.kind)
    && (o.kind.ExportSource? ==> w.busy[region].report.snapshot != "")
    && v == World(w.slots[o.id := Advanced(w.slots[o.id], o.kind, w.busy[region].report.snapshot)],
                  w.scene, w.busy - {region})
  }

  // Core gives up on an import that was rejected too often.
  ghost predicate Abandon(w: World, v: World, region: string) {
    && region in w.busy && w.busy[region].Done? && !w.busy[region].report.ok
    && var o := w.busy[region].order;
    && o.kind.ImportDestination? && o.id in w.slots && w.slots[o.id].state == Exported
    && v == World(w.slots[o.id := w.slots[o.id].(state := RolledBack)], w.scene, w.busy - {region})
  }

  predicate TurnsBack(s: Slot, t: Slot) {
    || t == s
    || (s.state.Prepared? && t == s.(state := RolledBack))
    || ((s.state.Exported? || s.state.Imported? || s.state.CleanupPending?) && t == s.(state := CleanupPending))
  }

  // Rollback, expiry, other rejections, purging of finished records, and the loss of commands and results.
  ghost predicate Sweep(w: World, v: World) {
    && v.scene == w.scene
    && (forall region :: region in v.busy ==> region in w.busy && v.busy[region] == w.busy[region])
    && (forall id :: id in v.slots ==> id in w.slots && TurnsBack(w.slots[id], v.slots[id]))
    && forall id :: id in w.slots && id !in v.slots ==> Finished(w.slots[id])
  }

  ghost predicate Step(w: World, v: World) {
    || (exists id, slot :: Open(w, v, id, slot))
    || (exists region, order :: Issue(w, v, region, order))
    || (exists region, r :: Act(w, v, region, r))
    || (exists region :: Commit(w, v, region))
    || (exists region :: Abandon(w, v, region))
    || Sweep(w, v)
  }

  // ---------- the invariant ----------

  ghost predicate Apart(slots: map<string, Slot>) {
    && (forall i, j :: i in slots && j in slots && i != j && !Finished(slots[i]) && !Finished(slots[j]) ==>
         KeysApart(slots[i], slots[j]))
    && forall i :: i in slots ==> slots[i].from.region != slots[i].to.region
  }

  predicate Holds(scene: map<Key, string>, k: Key, snapshot: string) { k in scene && scene[k] == snapshot }

  // At a key of a crossing there is nothing but its own linkset.
  predicate Only(scene: map<Key, string>, k: Key, snapshot: string) { k in scene ==> scene[k] == snapshot }

  predicate Located(s: Slot, scene: map<Key, string>) {
    match s.state
    case Prepared => s.to !in scene
    case Exported => s.snapshot != "" && Holds(scene, s.from, s.snapshot) && Only(scene, s.to, s.snapshot)
    case Imported => s.snapshot != "" && Only(scene, s.from, s.snapshot) && Holds(scene, s.to, s.snapshot)
    case CleanupPending => s.snapshot != "" && Only(scene, s.from, s.snapshot) && Only(scene, s.to, s.snapshot)
    case RestorePending => s.snapshot != "" && Only(scene, s.from, s.snapshot) && s.to !in scene
    case _ => true
  }

  ghost predicate AllLocated(w: World) {
    forall id :: id in w.slots ==> Located(w.slots[id], w.scene)
  }

  predicate Current(o: Order, slots: map<string, Slot>) {
    o.id in slots && slots[o.id] == Slot(slots[o.id].state, o.from, o.to, o.snapshot)
  }

  // A command in hand still fits the record it was made for, and a result still fits the scene. Only
  // an export may have been overtaken, which changes nothing.
  predicate Fits(work: Work, slots: map<string, Slot>, scene: map<Key, string>) {
    var o := work.order;
    match o.kind
    case ExportSource =>
      && (o.id in slots ==> slots[o.id].from == o.from && slots[o.id].to == o.to)
      && (o.id in slots && slots[o.id].state.Prepared? && work.Done? && work.report.ok ==>
            Holds(scene, o.from, work.report.snapshot))
    case ImportDestination =>
      && Current(o, slots) && (slots[o.id].state.Exported? || slots[o.id].state.CleanupPending?)
      && (work.Done? ==> (work.report.ok <==> o.to in scene))
    case RemoveSource =>
      && Current(o, slots)
      && (slots[o.id].state.Imported? || slots[o.id].state.CleanupPending? || slots[o.id].state.RestorePending?)
      && (work.Done? && work.report.ok ==> o.from !in scene)
    case CleanupDestination =>
      && Current(o, slots) && slots[o.id].state.CleanupPending?
      && (work.Done? && work.report.ok ==> o.to !in scene)
    case RestoreSource =>
      && Current(o, slots) && slots[o.id].state.RestorePending?
      && (work.Done? && work.report.ok ==> o.from in scene)
  }

  ghost predicate AllFit(w: World) {
    forall region :: region in w.busy ==>
      Place(w.busy[region].order).region == region && Fits(w.busy[region], w.slots, w.scene)
  }

  // Where each linkset belongs: at one key, or with the unfinished crossing that carries it.
  datatype Home = At(key: Key) | With(id: string)

  // A copy at k is of a linkset that belongs at k, or with a crossing between k and another key.
  predicate CopyAllowed(h: Home, k: Key, slots: map<string, Slot>) {
    match h
    case At(key) => key == k
    case With(id) => id in slots && (k == slots[id].from || k == slots[id].to)
  }

  predicate Kept(x: string, h: Home, slots: map<string, Slot>, scene: map<Key, string>) {
    match h
    case At(key) => Holds(scene, key, x)
    case With(id) => id in slots && Carrying(slots[id]) && slots[id].snapshot == x
  }

  ghost predicate CopiesAllowed(w: World, home: map<string, Home>) {
    forall k :: k in w.scene ==> w.scene[k] in home && CopyAllowed(home[w.scene[k]], k, w.slots)
  }

  ghost predicate AllKept(w: World, home: map<string, Home>) {
    forall x :: x in home ==> Kept(x, home[x], w.slots, w.scene)
  }

  ghost predicate Carriers(slots: map<string, Slot>, home: map<string, Home>) {
    forall id :: id in slots && Carrying(slots[id]) ==> slots[id].snapshot in home && home[slots[id].snapshot] == With(id)
  }

  ghost predicate Homes(w: World, home: map<string, Home>) {
    CopiesAllowed(w, home) && AllKept(w, home) && Carriers(w.slots, home)
  }

  ghost predicate Sound(w: World, home: map<string, Home>) {
    Apart(w.slots) && AllLocated(w) && AllFit(w) && Homes(w, home)
  }

  // ---------- every step keeps it ----------

  lemma OpenFits(w: World, v: World, id: string, slot: Slot)
    requires AllFit(w) && Open(w, v, id, slot)
    ensures AllFit(v)
  {
    forall region | region in v.busy
      ensures Place(v.busy[region].order).region == region && Fits(v.busy[region], v.slots, v.scene)
    {
      assert Fits(w.busy[region], w.slots, w.scene);
    }
  }

  lemma OpenHomes(w: World, v: World, id: string, slot: Slot, home: map<string, Home>)
    requires Homes(w, home) && Open(w, v, id, slot)
    ensures Homes(v, home)
  {
  }

  lemma OpenKeeps(w: World, v: World, id: string, slot: Slot, home: map<string, Home>)
    requires Sound(w, home) && Open(w, v, id, slot)
    ensures Sound(v, home)
  {
    OpenFits(w, v, id, slot);
    OpenHomes(w, v, id, slot, home);
    assert Apart(v.slots);
  }

  lemma IssueKeeps(w: World, v: World, region: string, order: Order, home: map<string, Home>)
    requires Sound(w, home) && Issue(w, v, region, order)
    ensures Sound(v, home)
  {
    forall other | other in v.busy
      ensures Place(v.busy[other].order).region == other && Fits(v.busy[other], v.slots, v.scene)
    {
      if other != region {
        assert Fits(w.busy[other], w.slots, w.scene);
      }
    }
  }

  // ---------- a region acts ----------

  // Acting touches the scene at one key of the acting crossing only, and there leaves its linkset or nothing.
  lemma ActTouches(w: World, v: World, region: string, r: Report, k: Key)
    requires Act(w, v, region, r)
    ensures var o := w.busy[region].order;
      && (k != Place(o) ==> (k in v.scene <==> k in w.scene) && (k in w.scene ==> v.scene[k] == w.scene[k]))
      && (o.kind.ExportSource? ==> v.scene == w.scene)
      && (k in v.scene && k !in w.scene ==> v.scene[k] == o.snapshot && (o.kind.ImportDestination? || o.kind.RestoreSource?))
      && (k in v.scene && k in w.scene ==> v.scene[k] == w.scene[k])
      && (k in w.scene && k !in v.scene ==> o.kind.RemoveSource? || o.kind.CleanupDestination?)
  {
  }

  lemma ActLocated(w: World, v: World, region: string, r: Report, id: string)
    requires Apart(w.slots) && AllLocated(w) && AllFit(w) && Act(w, v, region, r) && id in w.slots
    ensures Located(v.slots[id], v.scene)
  {
    var o := w.busy[region].order;
    var s := w.slots[id];
    assert Located(s, w.scene) && Fits(w.busy[region], w.slots, w.scene);
    if !o.kind.ExportSource? && o.id != id && !Finished(s) {
      assert KeysApart(s, w.slots[o.id]);
    }
    ActTouches(w, v, region, r, s.from);
    ActTouches(w, v, region, r, s.to);
  }

  lemma ActFits(w: World, v: World, region: string, r: Report, other: string)
    requires Apart(w.slots) && AllLocated(w) && AllFit(w) && Act(w, v, region, r) && other in w.busy && other != region
    ensures Fits(v.busy[other], v.slots, v.scene)
  {
    var o, p := w.busy[region].order, w.busy[other].order;
    assert Fits(w.busy[region], w.slots, w.scene) && Fits(w.busy[other], w.slots, w.scene);
    assert Place(o).region == region && Place(p).region == other;
    ActTouches(w, v, region, r, Place(p));
  }

  lemma ActFitsItself(w: World, v: World, region: string, r: Report)
    requires AllLocated(w) && AllFit(w) && Act(w, v, region, r)
    ensures Fits(v.busy[region], v.slots, v.scene)
  {
    var o := w.busy[region].order;
    assert Fits(w.busy[region], w.slots, w.scene);
    if o.id in w.slots {
      assert Located(w.slots[o.id], w.scene);
    }
  }

  lemma ActHomes(w: World, v: World, region: string, r: Report, home: map<string, Home>)
    requires AllLocated(w) && AllFit(w) && Homes(w, home) && Act(w, v, region, r)
    ensures Homes(v, home)
  {
    var o := w.busy[region].order;
    assert Fits(w.busy[region], w.slots, w.scene);
    if !o.kind.ExportSource? {
      assert Located(w.slots[o.id], w.scene);
      assert home[o.snapshot] == With(o.id);
    }
    forall k | k in v.scene ensures v.scene[k] in home && CopyAllowed(home[v.scene[k]], k, v.slots) {
      ActTouches(w, v, region, r, k);
    }
    forall x | x in home ensures Kept(x, home[x], v.slots, v.scene) {
      assert Kept(x, home[x], w.slots, w.scene);
      if home[x].At? {
        ActTouches(w, v, region, r, home[x].key);
      }
    }
  }

  lemma ActKeeps(w: World, v: World, region: string, r: Report, home: map<string, Home>)
    requires Sound(w, home) && Act(w, v, region, r)
    ensures Sound(v, home)
  {
    forall id | id in v.slots ensures Located(v.slots[id], v.scene) {
      ActLocated(w, v, region, r, id);
    }
    forall other | other in v.busy
      ensures Place(v.busy[other].order).region == other && Fits(v.busy[other], v.slots, v.scene)
    {
      if other != region {
        ActFits(w, v, region, r, other);
      } else {
        ActFitsItself(w, v, region, r);
      }
    }
    ActHomes(w, v, region, r, home);
  }

  // ---------- Core records a result ----------

  // Where the linkset belongs after the commit.
  function HomeAfter(home: map<string, Home>, o: Order, s: Slot, r: Report): map<string, Home> {
    match o.kind
    case ExportSource => home[r.snapshot := With(o.id)]
    case RemoveSource => home[s.snapshot := At(s.to)]
    case RestoreSource => home[s.snapshot := At(s.from)]
    case _ => home
  }

  lemma CommitSlot(w: World, v: World, region: string)
    requires AllLocated(w) && AllFit(w) && Commit(w, v, region)
    ensures var o := w.busy[region].order; Located(v.slots[o.id], v.scene)
  {
    var o := w.busy[region].order;
    assert Fits(w.busy[region], w.slots, w.scene) && Located(w.slots[o.id], w.scene);
  }

  lemma CommitFits(w: World, v: World, region: string, other: string)
    requires AllFit(w) && Commit(w, v, region) && other in v.busy
    ensures Fits(v.busy[other], v.slots, v.scene)
  {
    assert Fits(w.busy[region], w.slots, w.scene) && Fits(w.busy[other], w.slots, w.scene);
    assert Place(w.busy[region].order).region == region && Place(w.busy[other].order).region == other;
  }

  // A linkset at the source of a crossing that has not yet exported it belongs there.
  lemma HomeOfPrepared(w: World, id: string, home: map<string, Home>)
    requires Apart(w.slots) && Homes(w, home) && id in w.slots && w.slots[id].state == Prepared
    requires w.slots[id].from in w.scene
    ensures var x := w.scene[w.slots[id].from]; x in home && home[x] == At(w.slots[id].from)
  {
    var k := w.slots[id].from;
    assert CopyAllowed(home[w.scene[k]], k, w.slots) && Kept(w.scene[k], home[w.scene[k]], w.slots, w.scene);
    assert forall j :: j in w.slots && j != id && !Finished(w.slots[j]) ==> KeysApart(w.slots[id], w.slots[j]);
  }

  lemma CommitCopies(w: World, v: World, region: string, home: map<string, Home>, k: Key)
    requires Sound(w, home) && Commit(w, v, region) && k in v.scene
    ensures var o := w.busy[region].order; var after := HomeAfter(home, o, w.slots[o.id], w.busy[region].report);
      v.scene[k] in after && CopyAllowed(after[v.scene[k]], k, v.slots)
  {
    var o := w.busy[region].order;
    assert Fits(w.busy[region], w.slots, w.scene) && Located(w.slots[o.id], w.scene);
    assert CopyAllowed(home[w.scene[k]], k, w.slots);
    if o.kind.ExportSource? {
      HomeOfPrepared(w, o.id, home);
    }
  }

  lemma CommitKept(w: World, v: World, region: string, home: map<string, Home>, x: string)
    requires Sound(w, home) && Commit(w, v, region)
    ensures var o := w.busy[region].order; var after := HomeAfter(home, o, w.slots[o.id], w.busy[region].report);
      x in after ==> Kept(x, after[x], v.slots, v.scene)
  {
    var o := w.busy[region].order;
    assert Fits(w.busy[region], w.slots, w.scene) && Located(w.slots[o.id], w.scene);
    if x in home {
      assert Kept(x, home[x], w.slots, w.scene);
    }
  }

  lemma CommitCarriers(w: World, v: World, region: string, home: map<string, Home>)
    requires Sound(w, home) && Commit(w, v, region)
    ensures var o := w.busy[region].order;
      Carriers(v.slots, HomeAfter(home, o, w.slots[o.id], w.busy[region].report))
  {
    var o := w.busy[region].order;
    assert Fits(w.busy[region], w.slots, w.scene) && Located(w.slots[o.id], w.scene);
    if o.kind.ExportSource? {
      HomeOfPrepared(w, o.id, home);
    }
  }

  lemma CommitKeeps(w: World, v: World, region: string, home: map<string, Home>)
    requires Sound(w, home) && Commit(w, v, region)
    ensures var o := w.busy[region].order; var after := HomeAfter(home, o, w.slots[o.id], w.busy[region].report);
      Sound(v, after) && after.Keys == home.Keys
  {
    var o := w.busy[region].order;
    var after := HomeAfter(home, o, w.slots[o.id], w.busy[region].report);
    CommitLocated(w, v, region);
    CommitAllFit(w, v, region);
    CommitHomes(w, v, region, home);
    CommitKeepsKeys(w, v, region, home);
    CommitApart(w, v, region);
  }

  lemma CommitHomes(w: World, v: World, region: string, home: map<string, Home>)
    requires Sound(w, home) && Commit(w, v, region)
    ensures var o := w.busy[region].order; Homes(v, HomeAfter(home, o, w.slots[o.id], w.busy[region].report))
  {
    var o := w.busy[region].order;
    var after := HomeAfter(home, o, w.slots[o.id], w.busy[region].report);
    forall k | k in v.scene ensures v.scene[k] in after && CopyAllowed(after[v.scene[k]], k, v.slots) {
      CommitCopies(w, v, region, home, k);
    }
    forall x | x in after ensures Kept(x, after[x], v.slots, v.scene) {
      CommitKept(w, v, region, home, x);
    }
    CommitCarriers(w, v, region, home);
  }

  lemma CommitLocated(w: World, v: World, region: string)
    requires AllLocated(w) && AllFit(w) && Commit(w, v, region)
    ensures AllLocated(v)
  {
    CommitSlot(w, v, region);
  }

  lemma CommitAllFit(w: World, v: World, region: string)
    requires AllFit(w) && Commit(w, v, region)
    ensures AllFit(v)
  {
    forall other | other in v.busy
      ensures Place(v.busy[other].order).region == other && Fits(v.busy[other], v.slots, v.scene)
    {
      CommitFits(w, v, region, other);
    }
  }

  lemma CommitApart(w: World, v: World, region: string)
    requires Apart(w.slots) && Commit(w, v, region)
    ensures Apart(v.slots)
  {
  }

  lemma CommitKeepsKeys(w: World, v: World, region: string, home: map<string, Home>)
    requires Sound(w, home) && Commit(w, v, region)
    ensures var o := w.busy[region].order;
      HomeAfter(home, o, w.slots[o.id], w.busy[region].report).Keys == home.Keys
  {
    var o := w.busy[region].order;
    assert Fits(w.busy[region], w.slots, w.scene);
    if o.kind.ExportSource? {
      HomeOfPrepared(w, o.id, home);
    }
  }

  // ---------- Core gives up, turns back or forgets ----------

  lemma AbandonKeeps(w: World, v: World, region: string, home: map<string, Home>)
    requires Sound(w, home) && Abandon(w, v, region)
    ensures var s := w.slots[w.busy[region].order.id];
      s.snapshot in home && Sound(v, home[s.snapshot := At(s.from)])
  {
    var o := w.busy[region].order;
    var s := w.slots[o.id];
    var after := home[s.snapshot := At(s.from)];
    assert Fits(w.busy[region], w.slots, w.scene) && Located(s, w.scene);
    forall other | other in v.busy
      ensures Place(v.busy[other].order).region == other && Fits(v.busy[other], v.slots, v.scene)
    {
      assert Fits(w.busy[other], w.slots, w.scene);
    }
    forall k | k in v.scene ensures v.scene[k] in after && CopyAllowed(after[v.scene[k]], k, v.slots) {
      assert CopyAllowed(home[w.scene[k]], k, w.slots);
    }
    forall x | x in after ensures Kept(x, after[x], v.slots, v.scene) {
      assert Kept(x, home[x], w.slots, w.scene);
    }
    assert Apart(v.slots);
  }

  lemma SweepFits(w: World, v: World, region: string)
    requires AllFit(w) && Sweep(w, v) && region in v.busy
    ensures Fits(v.busy[region], v.slots, v.scene)
  {
    var id := w.busy[region].order.id;
    assert Fits(w.busy[region], w.slots, w.scene);
    if id in v.slots {
      assert TurnsBack(w.slots[id], v.slots[id]);
    }
  }

  lemma SweepKeeps(w: World, v: World, home: map<string, Home>)
    requires Sound(w, home) && Sweep(w, v)
    ensures Sound(v, home)
  {
    forall region | region in v.busy
      ensures Place(v.busy[region].order).region == region && Fits(v.busy[region], v.slots, v.scene)
    {
      SweepFits(w, v, region);
    }
    SweepLocated(w, v);
    SweepHomes(w, v, home);
    SweepApart(w, v);
  }

  lemma SweepLocated(w: World, v: World)
    requires AllLocated(w) && Sweep(w, v)
    ensures AllLocated(v)
  {
    forall id | id in v.slots ensures Located(v.slots[id], v.scene) {
      assert TurnsBack(w.slots[id], v.slots[id]) && Located(w.slots[id], w.scene);
    }
  }

  lemma SweepApart(w: World, v: World)
    requires Apart(w.slots) && Sweep(w, v)
    ensures Apart(v.slots)
  {
    forall i, j | i in v.slots && j in v.slots && i != j && !Finished(v.slots[i]) && !Finished(v.slots[j])
      ensures KeysApart(v.slots[i], v.slots[j])
    {
      assert TurnsBack(w.slots[i], v.slots[i]) && TurnsBack(w.slots[j], v.slots[j]);
      assert KeysApart(w.slots[i], w.slots[j]);
    }
    forall i | i in v.slots ensures v.slots[i].from.region != v.slots[i].to.region {
      assert TurnsBack(w.slots[i], v.slots[i]);
    }
  }

  lemma SweepHomes(w: World, v: World, home: map<string, Home>)
    requires Homes(w, home) && Sweep(w, v)
    ensures Homes(v, home)
  {
    forall x | x in home ensures Kept(x, home[x], v.slots, v.scene) {
      assert Kept(x, home[x], w.slots, w.scene);
      if home[x].With? && home[x].id in v.slots {
        assert TurnsBack(w.slots[home[x].id], v.slots[home[x].id]);
      }
    }
    forall k | k in v.scene ensures v.scene[k] in home && CopyAllowed(home[v.scene[k]], k, v.slots) {
      assert CopyAllowed(home[w.scene[k]], k, w.slots) && Kept(w.scene[k], home[w.scene[k]], v.slots, v.scene);
      if home[w.scene[k]].With? {
        assert TurnsBack(w.slots[home[w.scene[k]].id], v.slots[home[w.scene[k]].id]);
      }
    }
    forall id | id in v.slots && Carrying(v.slots[id])
      ensures v.slots[id].snapshot in home && home[v.slots[id].snapshot] == With(id)
    {
      assert TurnsBack(w.slots[id], v.slots[id]);
    }
  }

  // Every step keeps the invariant, and no linkset enters or leaves the world.
  lemma StepKeeps(w: World, v: World, home: map<string, Home>) returns (after: map<string, Home>)
    requires Sound(w, home) && Step(w, v)
    ensures Sound(v, after) && after.Keys == home.Keys
  {
    after := home;
    if id, slot :| Open(w, v, id, slot) {
      OpenKeeps(w, v, id, slot, home);
    } else if region, order :| Issue(w, v, region, order) {
      IssueKeeps(w, v, region, order, home);
    } else if region, r :| Act(w, v, region, r) {
      ActKeeps(w, v, region, r, home);
    } else if region :| Commit(w, v, region) {
      var o := w.busy[region].order;
      after := HomeAfter(home, o, w.slots[o.id], w.busy[region].report);
      CommitKeeps(w, v, region, home);
    } else if region :| Abandon(w, v, region) {
      var s := w.slots[w.busy[region].order.id];
      after := home[s.snapshot := At(s.from)];
      AbandonKeeps(w, v, region, home);
    } else {
      SweepKeeps(w, v, home);
    }
  }

  // ---------- safety over every run ----------

  // Nothing is crossing yet, no region has a command, and the linksets are distinct.
  ghost predicate Initial(w: World) {
    && w.slots == map[] && w.busy == map[]
    && forall k, l :: k in w.scene && l in w.scene && k != l ==> w.scene[k] != w.scene[l]
  }

  ghost predicate Run(ws: seq<World>) {
    && ws != [] && Initial(ws[0])
    && forall i :: 0 <= i < |ws| - 1 ==> Step(ws[i], ws[i + 1])
  }

  lemma InitialSound(w: World) returns (home: map<string, Home>)
    requires Initial(w)
    ensures Sound(w, home) && home.Keys == w.scene.Values
  {
    home := map x | x in w.scene.Values :: At(var k :| k in w.scene && w.scene[k] == x; k);
    forall k | k in w.scene ensures home[w.scene[k]] == At(k) {
      var key := home[w.scene[k]].key;
      assert key in w.scene && w.scene[key] == w.scene[k];
    }
  }

  lemma {:induction false} RunSound(ws: seq<World>) returns (home: map<string, Home>)
    requires Run(ws)
    ensures Sound(ws[|ws| - 1], home) && home.Keys == ws[0].scene.Values
    decreases |ws|
  {
    if |ws| == 1 {
      home := InitialSound(ws[0]);
    } else {
      var n := |ws| - 1;
      assert Step(ws[n - 1], ws[n]);
      var before := RunSound(ws[..n]);
      home := StepKeeps(ws[n - 1], ws[n], before);
    }
  }

  // Records that hold the only certain copy of their linkset.
  predicate SnapshotHeld(s: Slot) { s.state.Imported? || s.state.CleanupPending? || s.state.RestorePending? }

  ghost predicate CarriedBy(w: World, id: string, x: string) {
    id in w.slots && Carrying(w.slots[id]) && w.slots[id].snapshot == x
  }

  // Never lost: a linkset is in some scene, or its snapshot is in a record that will bring it back.
  lemma Somewhere(w: World, home: map<string, Home>, x: string)
    requires Sound(w, home) && x in home
    ensures
      || x in w.scene.Values
      || exists id :: CarriedBy(w, id, x) && SnapshotHeld(w.slots[id])
  {
    assert Kept(x, home[x], w.slots, w.scene);
    if home[x].With? {
      var s := w.slots[home[x].id];
      assert Located(s, w.scene) && CarriedBy(w, home[x].id, x);
      if s.state.Exported? {
        assert w.scene[s.from] == x;
      }
    }
  }

  lemma NeverLost(ws: seq<World>, x: string)
    requires Run(ws) && x in ws[0].scene.Values
    ensures var w := ws[|ws| - 1];
      || x in w.scene.Values
      || exists id :: CarriedBy(w, id, x) && SnapshotHeld(w.slots[id])
  {
    var home := RunSound(ws);
    Somewhere(ws[|ws| - 1], home, x);
  }

  // Never duplicated: two copies are only ever the two ends of one unfinished crossing.
  lemma CopiesAreEnds(w: World, home: map<string, Home>, k: Key, l: Key) returns (id: string)
    requires Sound(w, home) && k in w.scene && l in w.scene && k != l && w.scene[k] == w.scene[l]
    ensures CarriedBy(w, id, w.scene[k]) && {k, l} == {w.slots[id].from, w.slots[id].to}
  {
    var x := w.scene[k];
    assert CopyAllowed(home[x], k, w.slots) && CopyAllowed(home[x], l, w.slots);
    assert Kept(x, home[x], w.slots, w.scene);
    id := home[x].id;
  }

  lemma NeverDuplicated(ws: seq<World>, k: Key, l: Key)
    requires Run(ws)
    requires var w := ws[|ws| - 1]; k in w.scene && l in w.scene && k != l && w.scene[k] == w.scene[l]
    ensures var w := ws[|ws| - 1];
      exists id :: CarriedBy(w, id, w.scene[k]) && {k, l} == {w.slots[id].from, w.slots[id].to}
  {
    var home := RunSound(ws);
    var id := CopiesAreEnds(ws[|ws| - 1], home, k, l);
  }

  // Once no crossing carries it, a linkset is at exactly one place.
  lemma Settled(w: World, home: map<string, Home>, x: string) returns (k: Key)
    requires Sound(w, home) && x in home && forall id :: id in w.slots ==> !CarriedBy(w, id, x)
    ensures Holds(w.scene, k, x) && AloneAt(w.scene, k)
  {
    assert Kept(x, home[x], w.slots, w.scene);
    if home[x].With? {
      assert CarriedBy(w, home[x].id, x);
    }
    k := home[x].key;
    HomeAlone(w, home, x);
  }

  lemma SettledOnce(ws: seq<World>, x: string) returns (k: Key)
    requires Run(ws) && x in ws[0].scene.Values
    requires var w := ws[|ws| - 1]; forall id :: id in w.slots ==> !CarriedBy(w, id, x)
    ensures var w := ws[|ws| - 1]; Holds(w.scene, k, x) && AloneAt(w.scene, k)
  {
    var home := RunSound(ws);
    k := Settled(ws[|ws| - 1], home, x);
  }

  // The step that completes a crossing leaves its linkset at the destination and nowhere else; the
  // step that rolls one back leaves it at the source and nowhere else, or had never moved it.
  lemma FinishedMeansPlaced(w: World, v: World, home: map<string, Home>, id: string)
    requires Sound(w, home) && Step(w, v) && id in w.slots && id in v.slots
    requires !Finished(w.slots[id]) && Finished(v.slots[id])
    ensures v.scene == w.scene
    ensures v.slots[id].state == Completed ==>
      Holds(v.scene, v.slots[id].to, v.slots[id].snapshot) && AloneAt(v.scene, v.slots[id].to)
    ensures v.slots[id].state == RolledBack && Carrying(w.slots[id]) ==>
      Holds(v.scene, v.slots[id].from, v.slots[id].snapshot) && AloneAt(v.scene, v.slots[id].from)
    ensures v.slots[id].state == RolledBack && !Carrying(w.slots[id]) ==>
      v.slots[id].to !in v.scene && (v.slots[id].from in v.scene ==> AloneAt(v.scene, v.slots[id].from))
  {
    assert Located(w.slots[id], w.scene);
    if region :| Commit(w, v, region) {
      FinishedByCommit(w, v, region, home, id);
    } else if region :| Abandon(w, v, region) {
      FinishedByAbandon(w, v, region, home, id);
    } else {
      FinishedBySweep(w, v, home, id);
    }
  }

  ghost predicate AloneAt(scene: map<Key, string>, k: Key) {
    k in scene && forall l :: l in scene && scene[l] == scene[k] ==> l == k
  }

  // A linkset whose home is one key is there and nowhere else.
  lemma HomeAlone(w: World, home: map<string, Home>, x: string)
    requires Homes(w, home) && x in home && home[x].At?
    ensures Holds(w.scene, home[x].key, x) && AloneAt(w.scene, home[x].key)
  {
    assert Kept(x, home[x], w.slots, w.scene);
    forall l | l in w.scene && w.scene[l] == x ensures l == home[x].key {
      assert CopyAllowed(home[x], l, w.slots);
    }
  }

  lemma FinishedByCommit(w: World, v: World, region: string, home: map<string, Home>, id: string)
    requires Sound(w, home) && Commit(w, v, region) && id in w.slots && id in v.slots
    requires !Finished(w.slots[id]) && Finished(v.slots[id])
    ensures var t := v.slots[id]; Carrying(w.slots[id])
    ensures var t := v.slots[id]; var k := if t.state == Completed then t.to else t.from;
      Holds(v.scene, k, t.snapshot) && AloneAt(v.scene, k)
  {
    var o := w.busy[region].order;
    var after := HomeAfter(home, o, w.slots[o.id], w.busy[region].report);
    CommitHomes(w, v, region, home);
    HomeAlone(v, after, w.slots[o.id].snapshot);
  }

  lemma FinishedByAbandon(w: World, v: World, region: string, home: map<string, Home>, id: string)
    requires Sound(w, home) && Abandon(w, v, region) && id in w.slots && id in v.slots
    requires !Finished(w.slots[id]) && Finished(v.slots[id])
    ensures var t := v.slots[id]; Carrying(w.slots[id]) && t.state == RolledBack
    ensures var t := v.slots[id]; Holds(v.scene, t.from, t.snapshot) && AloneAt(v.scene, t.from)
  {
    var s := w.slots[w.busy[region].order.id];
    AbandonKeeps(w, v, region, home);
    HomeAlone(v, home[s.snapshot := At(s.from)], s.snapshot);
  }

  lemma FinishedBySweep(w: World, v: World, home: map<string, Home>, id: string)
    requires Sound(w, home) && Step(w, v) && id in w.slots && id in v.slots
    requires !Finished(w.slots[id]) && Finished(v.slots[id])
    requires (forall region :: !Commit(w, v, region)) && (forall region :: !Abandon(w, v, region))
    ensures Sweep(w, v) && w.slots[id].state == Prepared && v.slots[id].state == RolledBack
    ensures v.slots[id].to !in v.scene && (v.slots[id].from in v.scene ==> AloneAt(v.scene, v.slots[id].from))
  {
    assert Sweep(w, v) ==> TurnsBack(w.slots[id], v.slots[id]);
    assert Located(w.slots[id], w.scene);
    if w.slots[id].from in w.scene {
      HomeOfPrepared(w, id, home);
      HomeAlone(w, home, w.scene[w.slots[id].from]);
    }
  }
}
