// Core's persistent record of every object crossing between two regions, and the operations that
// move a record from state to state.

module ObjectCrossingStore {
  import opened Basics
  import opened VmCodec

  datatype State = Prepared | Exported | Imported | CleanupPending | RestorePending | Completed | RolledBack

  datatype Kind = ExportSource | ImportDestination | RemoveSource | CleanupDestination | RestoreSource

  datatype Attempts = Attempts(exports: nat, imports: nat, removes: nat, cleanups: nat, restores: nat)

  datatype Record = Record(
    owner: string, source: string, destination: string, sourceEntity: nat, destinationEntity: nat,
    snapshot: string, entityMap: string, state: State, attempts: Attempts,
    created: int, expires: int, exportedAt: int, importedAt: int, completedAt: int, rolledBackAt: int,
    lastError: string, rollbackReason: string)

  type Crossings = map<string, Record>

  // The table after an operation, and why it was refused; the empty reason is acceptance.
  datatype Update = Update(crossings: Crossings, reason: string)

  // A record after an operation on it.
  datatype Reply = Reply(record: Record, reason: string)

  const RETENTION: int := 86400

  function CommandName(kind: Kind): string {
    match kind
    case ExportSource => "export"
    case ImportDestination => "import"
    case RemoveSource => "remove"
    case CleanupDestination => "cleanup"
    case RestoreSource => "restore"
  }

  function Truncated(text: string): string { if |text| > 512 then text[..512] else text }

  // ---------- destination ids ----------

  function NibbleOf(c: char): nat {
    match Nibble(c) case Some(n) => n case None => 0
  }

  function HexValue(text: string): nat {
    if text == "" then 0 else 16 * HexValue(text[..|text| - 1]) + NibbleOf(text[|text| - 1])
  }

  const HIGH_BIT: nat := 0x8000_0000_0000_0000

  // The first 16 hexadecimal digits of the crossing id, with the top bit set.
  function DestinationId(id: string): nat {
    if |id| < 16 then HIGH_BIT + 1
    else
      var value := HexValue(id[..16]);
      if value < HIGH_BIT then value + HIGH_BIT else value
  }

  lemma {:induction false} HexValueBound(text: string, n: nat)
    requires |text| <= n
    ensures HexValue(text) < Power16(n)
  {
    if n > 0 {
      if text != "" {
        HexValueBound(text[..|text| - 1], n - 1);
      } else {
        HexValueBound("", n - 1);
      }
    }
  }

  function Power16(n: nat): nat { if n == 0 then 1 else 16 * Power16(n - 1) }

  // A destination id is a 64-bit id in the upper half, where no region numbers its own entities.
  lemma DestinationIdInUpperHalf(id: string)
    ensures HIGH_BIT <= DestinationId(id) < 0x1_0000_0000_0000_0000
  {
    if |id| >= 16 {
      HexValueBound(id[..16], 16);
      assert Power16(16) == 0x1_0000_0000_0000_0000 by {
        assert Power16(4) == 0x1_0000;
        assert Power16(8) == 0x1_0000_0000;
        assert Power16(12) == 0x1_0000_0000_0000;
      }
    }
  }

  // ---------- preparing ----------

  predicate ValidCrossing(
    owner: string, source: string, destination: string, sourceEntity: nat, finitePosition: bool, now: int, expires: int)
  {
    && 0 < |owner| <= 256 && 0 < |source| <= 256 && 0 < |destination| <= 256
    && source != destination && sourceEntity != 0 && now < expires <= now + 300 && finitePosition
  }

  function NewRecord(
    id: string, owner: string, source: string, destination: string, sourceEntity: nat, now: int, expires: int): Record
  {
    Record(owner, source, destination, sourceEntity, DestinationId(id), "", "", Prepared, Attempts(0, 0, 0, 0, 0),
           now, expires, 0, 0, 0, 0, "", "")
  }

  // ---------- which command a region is offered ----------

  // The command a record holds for a region, if any.
  function Due(r: Record, region: string): Option<Kind> {
    match r.state
    case Prepared => if r.source == region then Some(ExportSource) else None
    case Exported => if r.destination == region then Some(ImportDestination) else None
    case Imported => if r.source == region then Some(RemoveSource) else None
    case CleanupPending => if r.destination == region then Some(CleanupDestination) else None
    case RestorePending => if r.source == region then Some(RestoreSource) else None
    case _ => None
  }

  datatype Command = Command(kind: Kind, id: string, record: Record)

  // The oldest record with something due for the region, whichever of equals the table walk meets first.
  ghost predicate Offers(m: Crossings, region: string, c: Option<Command>) {
    match c
    case None => forall id :: id in m ==> Due(m[id], region) == None
    case Some(cmd) => Oldest(m, {}, region, cmd)
  }

  ghost predicate Oldest(m: Crossings, rest: set<string>, region: string, cmd: Command) {
    && cmd.id in m && m[cmd.id] == cmd.record && Due(cmd.record, region) == Some(cmd.kind)
    && forall id :: id in m && id !in rest && Due(m[id], region).Some? ==> cmd.record.created <= m[id].created
  }

  // ---------- results ----------

  function ExportReply(r: Record, region: string, snapshot: string, now: int): Reply {
    if r.source != region then Reply(r, "object-crossing-region-mismatch")
    else if r.state == Exported then Reply(r, "")
    else if r.state != Prepared then Reply(r, "object-crossing-not-exportable")
    else Reply(r.(snapshot := snapshot, state := Exported, exportedAt := now, lastError := ""), "")
  }

  function ImportReply(r: Record, region: string, entity: nat, entityMap: string, now: int): Reply {
    if r.destination != region || r.destinationEntity != entity then Reply(r, "object-crossing-destination-mismatch")
    else if r.state == Imported then Reply(r, if r.entityMap != entityMap then "object-crossing-entity-map-mismatch" else "")
    else if r.state != Exported then Reply(r, "object-crossing-not-importable")
    else Reply(r.(entityMap := entityMap, state := Imported, importedAt := now, lastError := ""), "")
  }

  function RemoveReply(r: Record, region: string, now: int): Reply {
    if r.source != region then Reply(r, "object-crossing-region-mismatch")
    else if r.state == Completed then Reply(r, "")
    else if r.state != Imported then Reply(r, "object-crossing-not-removable")
    else Reply(r.(state := Completed, completedAt := now, lastError := ""), "")
  }

  function CleanupReply(r: Record, region: string): Reply {
    if r.destination != region then Reply(r, "object-crossing-region-mismatch")
    else if r.state == RestorePending || r.state == RolledBack then Reply(r, "")
    else if r.state != CleanupPending then Reply(r, "object-crossing-cleanup-not-pending")
    else
      var why := if r.rollbackReason == "" then "destination-cleanup-complete" else r.rollbackReason;
      Reply(r.(state := RestorePending, lastError := "", rollbackReason := why), "")
  }

  function RestoreReply(r: Record, region: string, now: int): Reply {
    if r.source != region then Reply(r, "object-crossing-region-mismatch")
    else if r.state == RolledBack then Reply(r, "")
    else if r.state != RestorePending then Reply(r, "object-crossing-restore-not-pending")
    else Reply(r.(state := RolledBack, rolledBackAt := now, lastError := ""), "")
  }

  // ---------- rejections ----------

  function StateFor(kind: Kind): State {
    match kind
    case ExportSource => Prepared
    case ImportDestination => Exported
    case RemoveSource => Imported
    case CleanupDestination => CleanupPending
    case RestoreSource => RestorePending
  }

  function AttemptsOf(a: Attempts, kind: Kind): nat {
    match kind
    case ExportSource => a.exports
    case ImportDestination => a.imports
    case RemoveSource => a.removes
    case CleanupDestination => a.cleanups
    case RestoreSource => a.restores
  }

  function WithAttempts(a: Attempts, kind: Kind, n: nat): Attempts {
    match kind
    case ExportSource => a.(exports := n)
    case ImportDestination => a.(imports := n)
    case RemoveSource => a.(removes := n)
    case CleanupDestination => a.(cleanups := n)
    case RestoreSource => a.(restores := n)
  }

  // What a record becomes when a command has failed too often.
  function GivenUp(r: Record, kind: Kind, error: string, now: int): Record {
    match kind
    case RemoveSource => r.(state := CleanupPending, rollbackReason := "source-remove-failed:" + error)
    case CleanupDestination => r.(rollbackReason := "destination-cleanup-failed:" + error)
    case RestoreSource => r.(rollbackReason := "source-restore-failed:" + error)
    case _ => r.(state := RolledBack, rolledBackAt := now, rollbackReason := CommandName(kind) + "-failed:" + error)
  }

  function RejectError(error: string): string { if error == "" then "world-command-rejected" else Truncated(error) }

  function RejectReply(r: Record, kind: Kind, error: string, maxAttempts: nat, now: int): Reply {
    var noted := r.(lastError := error);
    if r.state != StateFor(kind) then Reply(noted, "object-crossing-command-state-mismatch")
    else
      var before := AttemptsOf(r.attempts, kind);
      var tries := if before < maxAttempts then before + 1 else before;
      var counted := noted.(attempts := WithAttempts(r.attempts, kind, tries));
      Reply(if tries >= maxAttempts then GivenUp(counted, kind, error, now) else counted, "")
  }

  // ---------- client rollback and maintenance ----------

  function RollbackReply(r: Record, owner: string, why: string, now: int): Reply {
    if r.owner != owner then Reply(r, "object-crossing-owner-mismatch")
    else if r.state == RolledBack then Reply(r, "")
    else if r.state == Completed then Reply(r, "object-crossing-already-completed")
    else if r.state == RestorePending then Reply(r, "")
    else if r.state == Prepared then Reply(r.(state := RolledBack, rolledBackAt := now, rollbackReason := why), "")
    else Reply(r.(state := CleanupPending, rollbackReason := why), "")
  }

  function Expired(r: Record, now: int): Record {
    if r.expires > now then r
    else if r.state == Prepared then
      r.(state := RolledBack, rolledBackAt := now, rollbackReason := "object-crossing-expired")
    else if r.state == Exported || r.state == Imported then
      r.(state := CleanupPending, rollbackReason := "object-crossing-expired")
    else r
  }

  predicate Purged(r: Record, now: int) {
    var finished := if r.state == Completed then r.completedAt else if r.state == RolledBack then r.rolledBackAt else 0;
    finished > 0 && finished + RETENTION <= now
  }

  function Maintained(m: Crossings, now: int): Crossings {
    map id | id in m && !Purged(Expired(m[id], now), now) :: Expired(m[id], now)
  }

  // ---------- the table ----------

  function Applied(m: Crossings, id: string, reply: Reply): Update {
    Update(m[id := reply.record], reply.reason)
  }

  function NotFound(m: Crossings): Update { Update(m, "object-crossing-not-found") }

  function ExportOutcome(m: Crossings, id: string, region: string, snapshot: string, now: int): Update {
    if snapshot == "" || |snapshot| > 256 * 1024 then Update(m, "invalid-object-snapshot")
    else if id !in m then NotFound(m)
    else Applied(m, id, ExportReply(m[id], region, snapshot, now))
  }

  function ImportOutcome(m: Crossings, id: string, region: string, entity: nat, entityMap: string, now: int): Update {
    if entityMap == "" || |entityMap| > 16 * 1024 then Update(m, "invalid-object-crossing-entity-map")
    else if id !in m then NotFound(m)
    else Applied(m, id, ImportReply(m[id], region, entity, entityMap, now))
  }

  function RemoveOutcome(m: Crossings, id: string, region: string, now: int): Update {
    if id !in m then NotFound(m) else Applied(m, id, RemoveReply(m[id], region, now))
  }

  function CleanupOutcome(m: Crossings, id: string, region: string): Update {
    if id !in m then NotFound(m) else Applied(m, id, CleanupReply(m[id], region))
  }

  function RestoreOutcome(m: Crossings, id: string, region: string, now: int): Update {
    if id !in m then NotFound(m) else Applied(m, id, RestoreReply(m[id], region, now))
  }

  function RejectOutcome(m: Crossings, id: string, kind: Kind, error: string, maxAttempts: nat, now: int): Update {
    if id !in m then NotFound(m) else Applied(m, id, RejectReply(m[id], kind, RejectError(error), maxAttempts, now))
  }

  function RollbackOutcome(m: Crossings, id: string, owner: string, why: string, now: int): Update {
    var text := if why == "" then "client-rollback" else Truncated(why);
    if id !in m then NotFound(m) else Applied(m, id, RollbackReply(m[id], owner, text, now))
  }

  class ObjectCrossingStore {
    const maxAttempts: nat
    var crossings: Crossings

    constructor (maxAttempts: nat)
      ensures crossings == map[] && this.maxAttempts == if maxAttempts == 0 then 1 else maxAttempts
    {
      this.maxAttempts := if maxAttempts == 0 then 1 else maxAttempts;
      crossings := map[];
    }

    // `id` is the store's own random id.
    method Prepare(
      id: string, owner: string, source: string, destination: string, sourceEntity: nat, finitePosition: bool,
      now: int, expires: int)
      returns (reason: string)
      requires id !in crossings
      modifies this`crossings
      ensures reason == "" <==> ValidCrossing(owner, source, destination, sourceEntity, finitePosition, now, expires)
      ensures reason == "" ==>
        crossings == old(crossings)[id := NewRecord(id, owner, source, destination, sourceEntity, now, expires)]
      ensures reason != "" ==> reason == "invalid-object-crossing" && crossings == old(crossings)
    {
      if !ValidCrossing(owner, source, destination, sourceEntity, finitePosition, now, expires) {
        return "invalid-object-crossing";
      }
      crossings := crossings[id := NewRecord(id, owner, source, destination, sourceEntity, now, expires)];
      reason := "";
    }

    method CommandForRegion(region: string) returns (selected: Option<Command>)
      ensures Offers(crossings, region, selected)
    {
      selected := None;
      var rest := crossings.Keys;
      while rest != {}
        invariant rest <= crossings.Keys
        invariant selected.None? ==> forall id :: id in crossings && id !in rest ==> Due(crossings[id], region) == None
        invariant selected.Some? ==> Oldest(crossings, rest, region, selected.value)
        decreases |rest|
      {
        var id :| id in rest;
        var candidate := Due(crossings[id], region);
        if candidate.Some? && (selected.None? || crossings[id].created < selected.value.record.created) {
          selected := Some(Command(candidate.value, id, crossings[id]));
        }
        rest := rest - {id};
      }
    }

    method RecordExport(id: string, region: string, snapshot: string, now: int) returns (reason: string)
      modifies this`crossings
      ensures Update(crossings, reason) == ExportOutcome(old(crossings), id, region, snapshot, now)
    {
      if snapshot == "" || |snapshot| > 256 * 1024 {
        return "invalid-object-snapshot";
      }
      if id !in crossings {
        return "object-crossing-not-found";
      }
      var reply := ExportReply(crossings[id], region, snapshot, now);
      crossings, reason := crossings[id := reply.record], reply.reason;
    }

    method RecordImport(id: string, region: string, entity: nat, entityMap: string, now: int) returns (reason: string)
      modifies this`crossings
      ensures Update(crossings, reason) == ImportOutcome(old(crossings), id, region, entity, entityMap, now)
    {
      if entityMap == "" || |entityMap| > 16 * 1024 {
        return "invalid-object-crossing-entity-map";
      }
      if id !in crossings {
        return "object-crossing-not-found";
      }
      var reply := ImportReply(crossings[id], region, entity, entityMap, now);
      crossings, reason := crossings[id := reply.record], reply.reason;
    }

    method RecordRemove(id: string, region: string, now: int) returns (reason: string)
      modifies this`crossings
      ensures Update(crossings, reason) == RemoveOutcome(old(crossings), id, region, now)
    {
      if id !in crossings {
        return "object-crossing-not-found";
      }
      var reply := RemoveReply(crossings[id], region, now);
      crossings, reason := crossings[id := reply.record], reply.reason;
    }

    method RecordCleanup(id: string, region: string) returns (reason: string)
      modifies this`crossings
      ensures Update(crossings, reason) == CleanupOutcome(old(crossings), id, region)
    {
      if id !in crossings {
        return "object-crossing-not-found";
      }
      var reply := CleanupReply(crossings[id], region);
      crossings, reason := crossings[id := reply.record], reply.reason;
    }

    method RecordRestore(id: string, region: string, now: int) returns (reason: string)
      modifies this`crossings
      ensures Update(crossings, reason) == RestoreOutcome(old(crossings), id, region, now)
    {
      if id !in crossings {
        return "object-crossing-not-found";
      }
      var reply := RestoreReply(crossings[id], region, now);
      crossings, reason := crossings[id := reply.record], reply.reason;
    }

    method RejectCommand(id: string, kind: Kind, error: string, now: int) returns (reason: string)
      modifies this`crossings
      ensures Update(crossings, reason) == RejectOutcome(old(crossings), id, kind, error, maxAttempts, now)
    {
      if id !in crossings {
        return "object-crossing-not-found";
      }
      var reply := RejectReply(crossings[id], kind, RejectError(error), maxAttempts, now);
      crossings, reason := crossings[id := reply.record], reply.reason;
    }

    method Rollback(id: string, owner: string, why: string, now: int) returns (reason: string)
      modifies this`crossings
      ensures Update(crossings, reason) == RollbackOutcome(old(crossings), id, owner, why, now)
    {
      if id !in crossings {
        return "object-crossing-not-found";
      }
      var reply := RollbackReply(crossings[id], owner, if why == "" then "client-rollback" else Truncated(why), now);
      crossings, reason := crossings[id := reply.record], reply.reason;
    }

    // Expired crossings turn back; terminal records go after a day.
    method Maintenance(now: int)
      modifies this`crossings
      ensures crossings == Maintained(old(crossings), now)
    {
      var rest := crossings.Keys;
      while rest != {}
        invariant rest <= crossings.Keys == old(crossings).Keys
        invariant forall id :: id in crossings ==>
          crossings[id] == if id in rest then old(crossings)[id] else Expired(old(crossings)[id], now)
        decreases |rest|
      {
        var id :| id in rest;
        crossings := crossings[id := Expired(crossings[id], now)];
        rest := rest - {id};
      }
      Purge(now);
    }

    method Purge(now: int)
      modifies this`crossings
      ensures crossings == map id | id in old(crossings) && !Purged(old(crossings)[id], now) :: old(crossings)[id]
    {
      var rest := crossings.Keys;
      while rest != {}
        invariant rest <= crossings.Keys <= old(crossings).Keys
        invariant forall id :: id in old(crossings) ==> (id in crossings <==> id in rest || !Purged(old(crossings)[id], now))
        invariant forall id :: id in crossings ==> crossings[id] == old(crossings)[id]
        decreases |rest|
      {
        var id :| id in rest;
        if Purged(crossings[id], now) {
          crossings := crossings - {id};
        }
        rest := rest - {id};
      }
    }
  }

  // ---------- retries ----------

  // Every result Core has accepted is accepted again, and changes nothing more: a lost
  // acknowledgement is harmless.
  lemma ResultsIdempotent(r: Record, region: string, snapshot: string, entity: nat, entityMap: string, now: int, later: int)
    ensures var a := ExportReply(r, region, snapshot, now);
      a.reason == "" ==> ExportReply(a.record, region, snapshot, later) == a
    ensures var a := ImportReply(r, region, entity, entityMap, now);
      a.reason == "" ==> ImportReply(a.record, region, entity, entityMap, later) == a
    ensures var a := RemoveReply(r, region, now); a.reason == "" ==> RemoveReply(a.record, region, later) == a
    ensures var a := CleanupReply(r, region); a.reason == "" ==> CleanupReply(a.record, region) == a
    ensures var a := RestoreReply(r, region, now); a.reason == "" ==> RestoreReply(a.record, region, later) == a
  {
  }
}
