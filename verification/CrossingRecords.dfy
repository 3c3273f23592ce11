// What the operations on Core's crossing records mean, written out on the table before and after: what
// each result, rejection, rollback and maintenance pass makes of a record, and when.

module CrossingRecords {
  import opened Basics
  import opened VmCodec
  import opened ObjectCrossingStore

  // ---------- opening ----------

  // A crossing is refused exactly for a name that is missing or too long, for going nowhere, for no
  // entity or no position, or for a time limit outside the next five minutes.
  lemma ValidExactly(
    owner: string, source: string, destination: string, entity: nat, finitePosition: bool, now: int, expires: int)
    ensures !ValidCrossing(owner, source, destination, entity, finitePosition, now, expires) <==>
      || owner == "" || |owner| >= 257 || source == "" || |source| >= 257 || destination == "" || |destination| >= 257
      || source == destination || entity == 0 || !finitePosition || expires <= now || expires >= now + 301
  {
  }

  // The digits of a crossing id, as numbers.
  lemma DigitsAsRead()
    ensures NibbleOf('0') == 0 && NibbleOf('9') == 9 && NibbleOf('a') == 10 && NibbleOf('f') == 15 && NibbleOf('F') == 15 && NibbleOf('x') == 0
    ensures HexValue("7f") == 0x7f && HexValue("80") == 0x80
  {
    assert "7f"[..1] == "7" && "7"[..0] == "" && "80"[..1] == "8" && "8"[..0] == "";
  }

  lemma {:induction false} HexValueAppend(text: string, c: char)
    ensures HexValue(text + [c]) == 16 * HexValue(text) + NibbleOf(c)
  {
    assert (text + [c])[..|text|] == text;
  }

  // The address of the linkset at its destination: the number the id begins with, in the upper half.
  lemma DestinationIdMeans(id: string)
    ensures |id| < 16 ==> DestinationId(id) == 0x8000_0000_0000_0001
    ensures |id| >= 16 ==>
      var value := HexValue(id[..16]);
      DestinationId(id) == if value >= 0x8000_0000_0000_0000 then value else value + 0x8000_0000_0000_0000
  {
  }

  // ---------- who is asked for what ----------

  // The source is asked to export, to remove and to restore, the destination to import and to clean up, each
  // in one state; a finished crossing asks nothing.
  lemma DueMeans(r: Record, region: string)
    ensures Due(r, region) == Some(ExportSource) <==> r.state == Prepared && region == r.source
    ensures Due(r, region) == Some(ImportDestination) <==> r.state == Exported && region == r.destination
    ensures Due(r, region) == Some(RemoveSource) <==> r.state == Imported && region == r.source
    ensures Due(r, region) == Some(CleanupDestination) <==> r.state == CleanupPending && region == r.destination
    ensures Due(r, region) == Some(RestoreSource) <==> r.state == RestorePending && region == r.source
  {
  }

  // A region is offered the command of a crossing that no older one for it precedes, and nothing when nothing
  // is due.
  lemma OfferedOldest(m: Crossings, region: string, cmd: Command)
    ensures Offers(m, region, Some(cmd)) <==>
      && cmd.id in m && m[cmd.id] == cmd.record && Due(m[cmd.id], region) == Some(cmd.kind)
      && forall id :: id in m && m[id].created < cmd.record.created ==> Due(m[id], region) == None
    ensures Offers(m, region, None) <==> forall id :: id in m ==> Due(m[id], region) == None
  {
  }

  // ---------- a crossing that succeeds, and one that is taken back ----------

  // The results of a whole crossing, in order, from the record that opening it made.
  lemma WholeCrossing(
    m: Crossings, id: string, owner: string, source: string, destination: string, entity: nat, created: int, expires: int,
    snapshot: string, entityMap: string, exported: int, imported: int, completed: int)
    requires id in m && m[id] == NewRecord(id, owner, source, destination, entity, created, expires)
    requires 0 < |snapshot| <= 256 * 1024 && 0 < |entityMap| <= 16 * 1024
    ensures var to := DestinationId(id);
      var a := ExportOutcome(m, id, source, snapshot, exported);
      var b := ImportOutcome(a.crossings, id, destination, to, entityMap, imported);
      var c := RemoveOutcome(b.crossings, id, source, completed);
      && a.reason == "" && b.reason == "" && c.reason == ""
      && m[id] == Record(owner, source, destination, entity, to, "", "", Prepared,
           Attempts(0, 0, 0, 0, 0), created, expires, 0, 0, 0, 0, "", "")
      && a.crossings == m[id := Record(owner, source, destination, entity, to, snapshot, "", Exported,
           Attempts(0, 0, 0, 0, 0), created, expires, exported, 0, 0, 0, "", "")]
      && b.crossings == m[id := Record(owner, source, destination, entity, to, snapshot, entityMap, Imported,
           Attempts(0, 0, 0, 0, 0), created, expires, exported, imported, 0, 0, "", "")]
      && c.crossings == m[id := Record(owner, source, destination, entity, to, snapshot, entityMap, Completed,
           Attempts(0, 0, 0, 0, 0), created, expires, exported, imported, completed, 0, "", "")]
  {
  }

  // The results of taking one back: the destination is cleaned up, then the source restored.
  lemma TakenBack(m: Crossings, id: string, restored: int)
    requires id in m && m[id].state == CleanupPending && m[id].source != m[id].destination
    ensures var r := m[id];
      var a := CleanupOutcome(m, id, r.destination);
      var b := RestoreOutcome(a.crossings, id, r.source, restored);
      var why := if r.rollbackReason == "" then "destination-cleanup-complete" else r.rollbackReason;
      && a == Update(m[id := r.(state := RestorePending, lastError := "", rollbackReason := why)], "")
      && b == Update(m[id := r.(state := RolledBack, rolledBackAt := restored, lastError := "", rollbackReason := why)], "")
  {
  }

  // A result from a region that has nothing to say about a crossing changes nothing.
  lemma WrongRegion(
    m: Crossings, id: string, region: string, snapshot: string, entity: nat, entityMap: string, now: int)
    requires id in m
    ensures region != m[id].source ==>
      && ExportOutcome(m, id, region, snapshot, now).crossings == m && ExportOutcome(m, id, region, snapshot, now).reason != ""
      && RemoveOutcome(m, id, region, now) == Update(m, "object-crossing-region-mismatch")
      && RestoreOutcome(m, id, region, now) == Update(m, "object-crossing-region-mismatch")
    ensures region != m[id].destination || entity != m[id].destinationEntity ==>
      ImportOutcome(m, id, region, entity, entityMap, now).crossings == m && ImportOutcome(m, id, region, entity, entityMap, now).reason != ""
    ensures region != m[id].destination ==>
      CleanupOutcome(m, id, region) == Update(m, "object-crossing-region-mismatch")
  {
  }

  // Nor does a result that comes too early or too late.
  lemma WrongTime(m: Crossings, id: string, region: string, snapshot: string, entity: nat, entityMap: string, now: int)
    requires id in m
    ensures m[id].state !in {Prepared, Exported} ==>
      ExportOutcome(m, id, region, snapshot, now).crossings == m && ExportOutcome(m, id, region, snapshot, now).reason != ""
    ensures m[id].state !in {Exported, Imported} ==>
      ImportOutcome(m, id, region, entity, entityMap, now).crossings == m && ImportOutcome(m, id, region, entity, entityMap, now).reason != ""
    ensures m[id].state !in {Imported, Completed} ==>
      RemoveOutcome(m, id, region, now).crossings == m && RemoveOutcome(m, id, region, now).reason != ""
    ensures m[id].state !in {CleanupPending, RestorePending, RolledBack} ==>
      CleanupOutcome(m, id, region).crossings == m && CleanupOutcome(m, id, region).reason != ""
    ensures m[id].state !in {RestorePending, RolledBack} ==>
      RestoreOutcome(m, id, region, now).crossings == m && RestoreOutcome(m, id, region, now).reason != ""
  {
  }

  // ---------- rejections ----------

  // Which state a command is for.
  const DUE: map<Kind, State> := map[
    ExportSource := Prepared, ImportDestination := Exported, RemoveSource := Imported,
    CleanupDestination := CleanupPending, RestoreSource := RestorePending]

  // How often a command of each kind has been rejected, in the order of the crossing.
  function Tries(a: Attempts): map<Kind, nat> {
    map[ExportSource := a.exports, ImportDestination := a.imports, RemoveSource := a.removes,
        CleanupDestination := a.cleanups, RestoreSource := a.restores]
  }

  // A rejection of a command that is due is counted, up to the limit, and noted; a rejection of any other
  // is noted only.
  lemma RejectionCounts(m: Crossings, id: string, kind: Kind, error: string, max: nat, now: int)
    requires id in m && 0 < |error| <= 512
    ensures var r, o := m[id], RejectOutcome(m, id, kind, error, max, now);
      if r.state == DUE[kind] then
        var u, before := o.crossings[id], Tries(r.attempts)[kind];
        && o.reason == "" && u.lastError == error && u.snapshot == r.snapshot && o.crossings == m[id := u]
        && Tries(u.attempts) == Tries(r.attempts)[kind := if before < max then before + 1 else before]
      else o == Update(m[id := r.(lastError := error)], "object-crossing-command-state-mismatch")
  {
  }

  // The last rejection within the limit turns the crossing back, or leaves it pending when it is on its
  // way back already; before that its state stays.
  lemma RejectionTurnsBack(m: Crossings, id: string, kind: Kind, error: string, max: nat, now: int)
    requires id in m && m[id].state == DUE[kind] && 0 < |error| <= 512
    ensures var r, u := m[id], RejectOutcome(m, id, kind, error, max, now).crossings[id];
      if Tries(r.attempts)[kind] + 1 < max then
        u.state == r.state && u.rolledBackAt == r.rolledBackAt && u.rollbackReason == r.rollbackReason
      else
        match kind
        case ExportSource => u.state == RolledBack && u.rolledBackAt == now && u.rollbackReason == "export-failed:" + error
        case ImportDestination => u.state == RolledBack && u.rolledBackAt == now && u.rollbackReason == "import-failed:" + error
        case RemoveSource => u.state == CleanupPending && u.rollbackReason == "source-remove-failed:" + error
        case CleanupDestination => u.state == CleanupPending && u.rollbackReason == "destination-cleanup-failed:" + error
        case RestoreSource => u.state == RestorePending && u.rollbackReason == "source-restore-failed:" + error
  {
  }

  // One rejection after another.
  function Rejected(m: Crossings, id: string, kind: Kind, errors: seq<string>, max: nat, now: int): Crossings {
    if errors == [] then m else Rejected(RejectOutcome(m, id, kind, errors[0], max, now).crossings, id, kind, errors[1..], max, now)
  }

  // A crossing whose command has never been rejected is given up with exactly so many rejections as the
  // limit says, whatever the errors.
  lemma {:induction false} GivenUpExactly(m: Crossings, id: string, kind: Kind, errors: seq<string>, max: nat, now: int)
    requires id in m && m[id].state == DUE[kind] && kind in {ExportSource, ImportDestination, RemoveSource}
    requires forall e :: e in errors ==> 0 < |e| <= 512
    requires Tries(m[id].attempts)[kind] + |errors| <= max
    ensures var n := Rejected(m, id, kind, errors, max, now);
      && id in n
      && (Tries(m[id].attempts)[kind] + |errors| < max || errors == [] ==> n[id].state == m[id].state)
      && (Tries(m[id].attempts)[kind] + |errors| == max && errors != [] ==>
           n[id].state == if kind == RemoveSource then CleanupPending else RolledBack)
    decreases |errors|
  {
    if errors != [] {
      RejectionCounts(m, id, kind, errors[0], max, now);
      RejectionTurnsBack(m, id, kind, errors[0], max, now);
      var next := RejectOutcome(m, id, kind, errors[0], max, now).crossings;
      if |errors| > 1 {
        GivenUpExactly(next, id, kind, errors[1..], max, now);
      } else {
        assert errors[1..] == [];
      }
    }
  }

  // An error that is empty is given a name, and a long one cut to 512 bytes.
  lemma RejectionNotes(m: Crossings, id: string, kind: Kind, error: string, max: nat, now: int)
    requires id in m
    ensures RejectOutcome(m, id, kind, error, max, now).crossings[id].lastError ==
      if error == "" then "world-command-rejected" else if |error| <= 512 then error else error[..512]
  {
  }

  // ---------- rollback by the client ----------

  // The owner, and no one else, turns a crossing back at any time before it is completed.
  lemma RollbackMeans(m: Crossings, id: string, owner: string, why: string, now: int)
    requires id in m
    ensures var r, o := m[id], RollbackOutcome(m, id, owner, why, now);
      var reason := if why == "" then "client-rollback" else if |why| <= 512 then why else why[..512];
      if owner != r.owner then o == Update(m, "object-crossing-owner-mismatch")
      else
        match r.state
        case Prepared => o == Update(m[id := r.(state := RolledBack, rolledBackAt := now, rollbackReason := reason)], "")
        case Exported => o == Update(m[id := r.(state := CleanupPending, rollbackReason := reason)], "")
        case Imported => o == Update(m[id := r.(state := CleanupPending, rollbackReason := reason)], "")
        case CleanupPending => o == Update(m[id := r.(rollbackReason := reason)], "")
        case Completed => o == Update(m, "object-crossing-already-completed")
        case RestorePending => o == Update(m, "")
        case RolledBack => o == Update(m, "")
  {
    assert m[id := m[id]] == m;
  }

  // ---------- maintenance ----------

  // Before its time is up an unfinished crossing is left alone; when it is up, one that nothing has been
  // taken up for is rolled back, and one that has taken its linkset up is sent back with it. A finished
  // one is forgotten when it has been finished for a day.
  lemma MaintenanceMeans(m: Crossings, n: Crossings, now: int, id: string)
    requires n == Maintained(m, now)
    ensures id !in m ==> id !in n
    ensures id in m ==>
      var r := m[id];
      match r.state
      case Prepared =>
        id in n && n[id] == (if now < r.expires then r
          else r.(state := RolledBack, rolledBackAt := now, rollbackReason := "object-crossing-expired"))
      case Exported =>
        id in n && n[id] == (if now < r.expires then r
          else r.(state := CleanupPending, rollbackReason := "object-crossing-expired"))
      case Imported =>
        id in n && n[id] == (if now < r.expires then r
          else r.(state := CleanupPending, rollbackReason := "object-crossing-expired"))
      case CleanupPending => id in n && n[id] == r
      case RestorePending => id in n && n[id] == r
      case Completed => if 0 < r.completedAt && now - r.completedAt >= 24 * 60 * 60 then id !in n else id in n && n[id] == r
      case RolledBack => if 0 < r.rolledBackAt && now - r.rolledBackAt >= 24 * 60 * 60 then id !in n else id in n && n[id] == r
  {
  }

  // A second pass at the same time finds nothing more to do.
  lemma MaintenanceSettles(m: Crossings, now: int)
    ensures Maintained(Maintained(m, now), now) == Maintained(m, now)
  {
    var n := Maintained(m, now);
    forall id | id in n ensures id in Maintained(n, now) && Maintained(n, now)[id] == n[id] {
      MaintenanceMeans(m, n, now, id);
      MaintenanceMeans(n, Maintained(n, now), now, id);
    }
  }
}
