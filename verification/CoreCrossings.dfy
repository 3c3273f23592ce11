// Core's handling of the results that regions report: crossing records and scripts together.

module CoreCrossings {
  import opened Basics
  import opened ScriptVm
  import opened Text
  import VmCodec
  import opened ScriptRuntime
  import opened ObjectCrossingStore
  import opened CrossingProtocol

  // std::stoull: the leading number of a text, if it has one.
  type Numbers = string -> Option<nat>

  // ---------- the entity map of an import ----------

  predicate Taken(pairs: seq<(nat, nat)>, source: nat, destination: nat) {
    exists i :: 0 <= i < |pairs| && (pairs[i].0 == source || pairs[i].1 == destination)
  }

  function ParsePair(numbers: Numbers, token: string): Option<(nat, nat)> {
    var split := IndexOf(token, ':');
    if split == 0 || split + 1 >= |token| then None
    else
      match (numbers(token[..split]), numbers(token[split + 1..]))
      case (Some(source), Some(destination)) => Some((source, destination))
      case _ => None
  }

  function ParsePairs(numbers: Numbers, tokens: seq<string>, pairs: seq<(nat, nat)>): Option<seq<(nat, nat)>>
    decreases |tokens|
  {
    if tokens == [] then Some(pairs)
    else
      match ParsePair(numbers, tokens[0])
      case None => None
      case Some((source, destination)) =>
        if source == 0 || destination == 0 || Taken(pairs, source, destination) || |pairs| + 1 > 64 then None
        else ParsePairs(numbers, tokens[1..], pairs + [(source, destination)])
  }

  function EntityMap(numbers: Numbers, text: string): Option<seq<(nat, nat)>> {
    if text == "" || |text| > 16 * 1024 then None else ParsePairs(numbers, Split(text, ','), [])
  }

  method ParseEntityMap(numbers: Numbers, text: string) returns (r: Option<seq<(nat, nat)>>)
    ensures r == EntityMap(numbers, text)
  {
    if text == "" || |text| > 16 * 1024 {
      return None;
    }
    var tokens := Split(text, ',');
    var pairs := [];
    for i := 0 to |tokens|
      invariant EntityMap(numbers, text) == ParsePairs(numbers, tokens[i..], pairs)
    {
      var pair := ParsePair(numbers, tokens[i]);
      assert tokens[i..][1..] == tokens[i + 1..];
      if pair.None? || pair.value.0 == 0 || pair.value.1 == 0 || Taken(pairs, pair.value.0, pair.value.1) ||
         |pairs| + 1 > 64 {
        return None;
      }
      pairs := pairs + [pair.value];
    }
    r := Some(pairs);
  }

  // A pair is two numbers around the first colon.
  lemma PairMeans(numbers: Numbers, a: string, b: string)
    requires ':' !in a
    ensures ParsePair(numbers, a) == None
    ensures ParsePair(numbers, a + ":" + b) ==
      match (numbers(a), numbers(b))
      case (Some(source), Some(destination)) => if a != "" && b != "" then Some((source, destination)) else None
      case _ => None
  {
    IndexOfSeparator(a, ':', b);
    var token := a + ":" + b;
    assert token[..|a|] == a && token[|a| + 1..] == b;
  }

  // No map, or one too long, and one with a bad pair in front, are refused.
  lemma EntityMapRefuses(numbers: Numbers, text: string, token: string, rest: string)
    ensures text == "" || |text| >= 16385 ==> EntityMap(numbers, text) == None
    ensures ',' !in token && ParsePair(numbers, token) == None ==>
      EntityMap(numbers, token) == None && EntityMap(numbers, token + "," + rest) == None
  {
    if ',' !in token {
      SplitMeans(token, ',', rest);
    }
  }

  // A map Core accepts is one that rebinding accepts.
  lemma {:induction false} ParsedOneToOne(numbers: Numbers, tokens: seq<string>, pairs: seq<(nat, nat)>)
    requires OneToOne(pairs) && |pairs| <= 64 && ParsePairs(numbers, tokens, pairs).Some?
    ensures var r := ParsePairs(numbers, tokens, pairs).value;
      OneToOne(r) && |r| == |pairs| + |tokens| <= 64
    decreases |tokens|
  {
    if tokens != [] {
      var pair := ParsePair(numbers, tokens[0]).value;
      var more := pairs + [pair];
      assert OneToOne(more);
      ParsedOneToOne(numbers, tokens[1..], more);
    }
  }

  lemma EntityMapRebinds(
    numbers: Numbers, text: string, scripts: map<string, ScriptRecord>, source: string, destination: string, owner: string)
    requires EntityMap(numbers, text).Some?
    requires SafeField(source, 256) && SafeField(destination, 256) && source != destination && 0 < |owner| <= 256
    ensures RebindOutcome(scripts, source, destination, EntityMap(numbers, text).value, owner).Ok?
  {
    ParsedOneToOne(numbers, Split(text, ','), []);
    RebindAccepts(scripts, source, destination, EntityMap(numbers, text).value, owner);
  }

  // What a region writes for a map.
  function PairText(pair: (nat, nat)): string { NatText(pair.0) + ":" + NatText(pair.1) }

  function MapText(pairs: seq<(nat, nat)>): string
    requires pairs != []
  {
    if |pairs| == 1 then PairText(pairs[0]) else PairText(pairs[0]) + "," + MapText(pairs[1..])
  }

  lemma MapAsWritten()
    ensures MapText([(1, 2), (30, 4)]) == "1:2,30:4"
  {
    assert NatText(30) == NatText(3) + "0";
    assert [(1, 2), (30, 4)][1..] == [(30, 4)];
  }

  lemma {:induction false} DigitsOnly(n: nat, c: char)
    requires !IsDigit(c)
    ensures c !in NatText(n)
  {
    DigitsOfNatText(n);
  }

  // The number reader reads what a region writes.
  ghost predicate ReadsDecimal(numbers: Numbers) {
    forall n: nat :: numbers(NatText(n)) == Some(n)
  }

  lemma PairRoundTrip(numbers: Numbers, pair: (nat, nat))
    requires ReadsDecimal(numbers)
    ensures ParsePair(numbers, PairText(pair)) == Some(pair) && ',' !in PairText(pair)
  {
    var a, b := NatText(pair.0), NatText(pair.1);
    DigitsOfNatText(pair.0);
    DigitsOfNatText(pair.1);
    DigitsOnly(pair.0, ':');
    DigitsOnly(pair.0, ',');
    DigitsOnly(pair.1, ',');
    IndexOfSeparator(a, ':', b);
    var text := PairText(pair);
    assert text[..|a|] == a && text[|a| + 1..] == b;
  }

  lemma SplitFirst(first: string, rest: string)
    requires ',' !in first
    ensures Split(first, ',') == [first] && Split(first + "," + rest, ',') == [first] + Split(rest, ',')
  {
    SplitMeans(first, ',', rest);
  }

  lemma OneToOneExtends(pairs: seq<(nat, nat)>, pair: (nat, nat))
    requires OneToOne(pairs)
    ensures OneToOne(pairs + [pair]) <==> pair.0 != 0 && pair.1 != 0 && !Taken(pairs, pair.0, pair.1)
  {
    var more := pairs + [pair];
    OneToOneSnoc(more);
    assert more[..|more| - 1] == pairs;
  }

  lemma {:induction false} OneToOnePrefix(pairs: seq<(nat, nat)>, more: seq<(nat, nat)>)
    requires OneToOne(pairs + more)
    ensures OneToOne(pairs)
  {
    var all := pairs + more;
    assert forall i :: 0 <= i < |pairs| ==> pairs[i] == all[i];
  }

  // Parsing what a region wrote, pair by pair, gives the pairs back exactly when they are one-to-one
  // and no more than 64.
  lemma {:induction false} ParsesPairs(numbers: Numbers, before: seq<(nat, nat)>, pairs: seq<(nat, nat)>)
    requires ReadsDecimal(numbers) && pairs != [] && OneToOne(before) && |before| <= 64
    ensures ParsePairs(numbers, Split(MapText(pairs), ','), before) ==
      if OneToOne(before + pairs) && |before + pairs| <= 64 then Some(before + pairs) else None
    decreases |pairs|
  {
    var first, rest := PairText(pairs[0]), pairs[1..];
    PairRoundTrip(numbers, pairs[0]);
    OneToOneExtends(before, pairs[0]);
    var more := before + [pairs[0]];
    assert before + pairs == more + rest;
    if OneToOne(before + pairs) {
      OneToOnePrefix(more, rest);
    }
    if rest == [] {
      SplitFirst(first, "");
      assert more + rest == more && Split(first, ',')[1..] == [];
    } else {
      SplitFirst(first, MapText(rest));
      assert ([first] + Split(MapText(rest), ','))[1..] == Split(MapText(rest), ',');
      if OneToOne(more) && |more| <= 64 {
        ParsesPairs(numbers, more, rest);
      }
    }
  }

  lemma EntityMapRoundTrip(numbers: Numbers, pairs: seq<(nat, nat)>)
    requires ReadsDecimal(numbers) && pairs != [] && MapText(pairs) != "" && |MapText(pairs)| <= 16 * 1024
    ensures EntityMap(numbers, MapText(pairs)) == if OneToOne(pairs) && |pairs| <= 64 then Some(pairs) else None
  {
    ParsesPairs(numbers, [], pairs);
    assert [] + pairs == pairs;
  }

  // ---------- the result handler ----------

  // What Core keeps.
  datatype CoreState = CoreState(crossings: Crossings, scripts: map<string, ScriptRecord>)

  // The state after a result for the expected command, and why the result was refused, if it was.
  datatype Handled = Handled(after: CoreState, reason: string)

  ghost function WithCrossings(s: CoreState, o: Update): Handled { Handled(s.(crossings := o.crossings), o.reason) }

  // Scripts follow the object first; only then is the removal recorded.
  ghost function Removed(s: CoreState, cmd: Command, region: string, numbers: Numbers, now: int): Handled {
    match EntityMap(numbers, cmd.record.entityMap)
    case None => Handled(s, "object-crossing-entity-map-invalid")
    case Some(pairs) =>
      match RebindOutcome(s.scripts, cmd.record.source, cmd.record.destination, pairs, cmd.record.owner)
      case Err(e) => Handled(s, e)
      case Ok(scripts) => WithCrossings(s.(scripts := scripts), RemoveOutcome(s.crossings, cmd.id, region, now))
  }

  ghost function Recorded(
    s: CoreState, cmd: Command, region: string, r: Report, numbers: Numbers, maxAttempts: nat, now: int): Handled
  {
    if !r.ok then WithCrossings(s, RejectOutcome(s.crossings, cmd.id, cmd.kind, r.error, maxAttempts, now))
    else
      match cmd.kind
      case ExportSource => WithCrossings(s, ExportOutcome(s.crossings, cmd.id, region, r.snapshot, now))
      case ImportDestination =>
        if EntityMap(numbers, r.entityMap).None? then Handled(s, "object-crossing-entity-map-invalid")
        else WithCrossings(s, ImportOutcome(s.crossings, cmd.id, region, r.entity, r.entityMap, now))
      case RemoveSource =>
        Removed(s, cmd, region, numbers, now)
      case CleanupDestination => WithCrossings(s, CleanupOutcome(s.crossings, cmd.id, region))
      case RestoreSource => WithCrossings(s, RestoreOutcome(s.crossings, cmd.id, region, now))
  }

  class CoreNode {
    const store: ObjectCrossingStore
    const runtime: ScriptRuntime

    constructor (store: ObjectCrossingStore, runtime: ScriptRuntime)
      ensures this.store == store && this.runtime == runtime
    {
      this.store, this.runtime := store, runtime;
    }

    ghost function State(): CoreState
      reads store, runtime
    {
      CoreState(store.crossings, runtime.scripts)
    }

    // `owns` says whether the reporting node still owns the region. A result counts only for the
    // command Core would now give that region.
    method ObjectCrossingResult(
      owns: bool, id: string, region: string, kind: Kind, r: Report, numbers: Numbers, now: int)
      returns (status: string, ghost expected: Option<Command>)
      modifies store`crossings, runtime
      ensures Offers(old(store.crossings), region, expected)
      ensures if !owns || expected.None? || expected.value.id != id || expected.value.kind != kind then
          status == "missing-or-stale" && State() == old(State())
        else
          var h := Recorded(old(State()), expected.value, region, r, numbers, store.maxAttempts, now);
          State() == h.after && status == if h.reason == "" then "acked" else "rejected"
    {
      var current := store.CommandForRegion(region);
      expected := current;
      if !owns || current.None? || current.value.id != id || current.value.kind != kind {
        return "missing-or-stale", expected;
      }
      var reason := RecordResult(current.value, region, r, numbers, now);
      status := if reason == "" then "acked" else "rejected";
    }

    method RecordResult(cmd: Command, region: string, r: Report, numbers: Numbers, now: int) returns (reason: string)
      modifies store`crossings, runtime
      ensures Handled(State(), reason) == Recorded(old(State()), cmd, region, r, numbers, store.maxAttempts, now)
    {
      if !r.ok {
        reason := store.RejectCommand(cmd.id, cmd.kind, r.error, now);
        return;
      }
      match cmd.kind {
        case ExportSource =>
          reason := store.RecordExport(cmd.id, region, r.snapshot, now);
        case ImportDestination =>
          var parsed := ParseEntityMap(numbers, r.entityMap);
          if parsed.None? {
            return "object-crossing-entity-map-invalid";
          }
          reason := store.RecordImport(cmd.id, region, r.entity, r.entityMap, now);
        case RemoveSource =>
          reason := RecordRemoval(cmd, region, numbers, now);
        case CleanupDestination =>
          reason := store.RecordCleanup(cmd.id, region);
        case RestoreSource =>
          reason := store.RecordRestore(cmd.id, region, now);
      }
    }

    method RecordRemoval(cmd: Command, region: string, numbers: Numbers, now: int) returns (reason: string)
      modifies store`crossings, runtime
      ensures Handled(State(), reason) == Removed(old(State()), cmd, region, numbers, now)
    {
      var pairs := ParseEntityMap(numbers, cmd.record.entityMap);
      if pairs.None? {
        return "object-crossing-entity-map-invalid";
      }
      reason := runtime.RebindObjects(cmd.record.source, cmd.record.destination, pairs.value, cmd.record.owner);
      if reason != "" {
        return;
      }
      reason := store.RecordRemove(cmd.id, region, now);
    }
  }

  // ---------- what a result does to its record ----------

  function SlotOf(r: Record): Slot {
    Slot(r.state, Key(r.source, r.sourceEntity), Key(r.destination, r.destinationEntity), r.snapshot)
  }

  // A result for a command leaves the record's protocol state alone, advances it as the command asks,
  // or, when the command was rejected, turns it back.
  ghost predicate Moves(r: Record, t: Record, kind: Kind, report: Report, numbers: Numbers) {
    && t.owner == r.owner && t.created == r.created
    && (|| SlotOf(t) == SlotOf(r)
        || (report.ok && SlotOf(t) == Advanced(SlotOf(r), kind, report.snapshot) &&
              (kind.ExportSource? ==> 0 < |report.snapshot| <= 256 * 1024))
        || (!report.ok && TurnsBack(SlotOf(r), SlotOf(t)))
        || (!report.ok && kind.ImportDestination? && SlotOf(t) == SlotOf(r).(state := RolledBack)))
    && (t.state.Imported? && !r.state.Imported? ==>
          t.entityMap == report.entityMap && EntityMap(numbers, t.entityMap).Some?)
    && (r.state.Imported? ==> t.entityMap == r.entityMap)
  }

  lemma RejectMoves(r: Record, kind: Kind, report: Report, numbers: Numbers, maxAttempts: nat, now: int)
    requires r.state == StateFor(kind) && !report.ok
    ensures Moves(r, RejectReply(r, kind, RejectError(report.error), maxAttempts, now).record, kind, report, numbers)
  {
  }

  lemma ForwardMoves(r: Record, region: string, kind: Kind, report: Report, numbers: Numbers, now: int)
    requires r.state == StateFor(kind) && report.ok
    ensures kind.ExportSource? && 0 < |report.snapshot| <= 256 * 1024 ==>
      Moves(r, ExportReply(r, region, report.snapshot, now).record, kind, report, numbers)
    ensures kind.ImportDestination? && EntityMap(numbers, report.entityMap).Some? ==>
      Moves(r, ImportReply(r, region, report.entity, report.entityMap, now).record, kind, report, numbers)
    ensures kind.RemoveSource? ==> Moves(r, RemoveReply(r, region, now).record, kind, report, numbers)
  {
  }

  lemma BackwardMoves(r: Record, region: string, kind: Kind, report: Report, numbers: Numbers, now: int)
    requires r.state == StateFor(kind) && report.ok
    ensures kind.CleanupDestination? ==> Moves(r, CleanupReply(r, region).record, kind, report, numbers)
    ensures kind.RestoreSource? ==> Moves(r, RestoreReply(r, region, now).record, kind, report, numbers)
  {
  }

  ghost predicate Answered(m: Crossings, t: Crossings, cmd: Command, report: Report, numbers: Numbers) {
    cmd.id in t && t == m[cmd.id := t[cmd.id]] && Moves(cmd.record, t[cmd.id], cmd.kind, report, numbers)
  }

  lemma UnchangedAnswered(m: Crossings, cmd: Command, report: Report, numbers: Numbers)
    requires cmd.id in m && m[cmd.id] == cmd.record && cmd.record.state == StateFor(cmd.kind)
    ensures Answered(m, m, cmd, report, numbers)
  {
    assert m == m[cmd.id := m[cmd.id]];
  }

  // Core changes one record at most, and that one as the protocol allows.
  lemma RecordedAnswers(
    s: CoreState, cmd: Command, region: string, r: Report, numbers: Numbers, maxAttempts: nat, now: int)
    requires cmd.id in s.crossings && s.crossings[cmd.id] == cmd.record && cmd.record.state == StateFor(cmd.kind)
    ensures Answered(s.crossings, Recorded(s, cmd, region, r, numbers, maxAttempts, now).after.crossings, cmd, r, numbers)
  {
    UnchangedAnswered(s.crossings, cmd, r, numbers);
    if !r.ok {
      RejectMoves(cmd.record, cmd.kind, r, numbers, maxAttempts, now);
    } else if cmd.kind.CleanupDestination? || cmd.kind.RestoreSource? {
      BackwardMoves(cmd.record, region, cmd.kind, r, numbers, now);
    } else {
      ForwardMoves(cmd.record, region, cmd.kind, r, numbers, now);
    }
  }

  // ---------- scripts and completion ----------

  lemma OnlyRemovalCompletes(
    s: CoreState, cmd: Command, region: string, r: Report, numbers: Numbers, maxAttempts: nat, now: int)
    requires cmd.id in s.crossings && s.crossings[cmd.id] == cmd.record && cmd.record.state == StateFor(cmd.kind)
    ensures var t := Recorded(s, cmd, region, r, numbers, maxAttempts, now).after;
      cmd.id in t.crossings && (t.crossings[cmd.id].state.Completed? ==> r.ok && cmd.kind.RemoveSource?)
  {
    RecordedAnswers(s, cmd, region, r, numbers, maxAttempts, now);
  }

  // Scripts are rebound exactly when the record becomes completed, and then as its entity map says;
  // in every other case no script changes.
  lemma ScriptsMoveOnCompletion(
    s: CoreState, cmd: Command, region: string, r: Report, numbers: Numbers, maxAttempts: nat, now: int)
    requires cmd.id in s.crossings && s.crossings[cmd.id] == cmd.record && Due(cmd.record, region) == Some(cmd.kind)
    ensures var t := Recorded(s, cmd, region, r, numbers, maxAttempts, now).after;
      && cmd.id in t.crossings
      && if t.crossings[cmd.id].state.Completed? then
           && EntityMap(numbers, cmd.record.entityMap).Some?
           && RebindOutcome(s.scripts, cmd.record.source, cmd.record.destination,
                EntityMap(numbers, cmd.record.entityMap).value, cmd.record.owner) == Ok(t.scripts)
         else t.scripts == s.scripts
  {
    OnlyRemovalCompletes(s, cmd, region, r, numbers, maxAttempts, now);
    if r.ok && cmd.kind.RemoveSource? {
      RemovalRebinds(s, cmd, region, numbers, now);
    }
  }

  lemma RemovalRebinds(s: CoreState, cmd: Command, region: string, numbers: Numbers, now: int)
    requires cmd.id in s.crossings && s.crossings[cmd.id] == cmd.record && Due(cmd.record, region) == Some(RemoveSource)
    ensures var t := Removed(s, cmd, region, numbers, now).after;
      && cmd.id in t.crossings
      && if t.crossings[cmd.id].state.Completed? then
           && EntityMap(numbers, cmd.record.entityMap).Some?
           && RebindOutcome(s.scripts, cmd.record.source, cmd.record.destination,
                EntityMap(numbers, cmd.record.entityMap).value, cmd.record.owner) == Ok(t.scripts)
         else t.scripts == s.scripts
  {
    RemoveCompletes(cmd.record, region, now);
  }

  lemma RemoveCompletes(r: Record, region: string, now: int)
    requires Due(r, region) == Some(RemoveSource)
    ensures !r.state.Completed? && RemoveReply(r, region, now).record.state.Completed?
  {
  }

  // Every imported record holds a map Core can read.
  ghost predicate MapsReadable(numbers: Numbers, m: Crossings) {
    forall id :: id in m && m[id].state.Imported? ==> EntityMap(numbers, m[id].entityMap).Some?
  }

  lemma RecordedKeepsMaps(
    s: CoreState, cmd: Command, region: string, r: Report, numbers: Numbers, maxAttempts: nat, now: int)
    requires MapsReadable(numbers, s.crossings)
    requires cmd.id in s.crossings && s.crossings[cmd.id] == cmd.record && cmd.record.state == StateFor(cmd.kind)
    ensures MapsReadable(numbers, Recorded(s, cmd, region, r, numbers, maxAttempts, now).after.crossings)
  {
    RecordedAnswers(s, cmd, region, r, numbers, maxAttempts, now);
    AnswerKeepsMaps(s.crossings, Recorded(s, cmd, region, r, numbers, maxAttempts, now).after.crossings, cmd, r, numbers);
  }

  lemma AnswerKeepsMaps(m: Crossings, t: Crossings, cmd: Command, r: Report, numbers: Numbers)
    requires MapsReadable(numbers, m) && cmd.id in m && m[cmd.id] == cmd.record && Answered(m, t, cmd, r, numbers)
    ensures MapsReadable(numbers, t)
  {
  }

  // Hence a confirmed removal completes the crossing, whenever the names stored in the record are
  // ones the script table accepts.
  lemma RemovalCompletes(s: CoreState, cmd: Command, region: string, r: Report, numbers: Numbers, maxAttempts: nat, now: int)
    requires MapsReadable(numbers, s.crossings) && r.ok && cmd.kind.RemoveSource?
    requires cmd.id in s.crossings && s.crossings[cmd.id] == cmd.record && Due(cmd.record, region) == Some(cmd.kind)
    requires cmd.record.source != cmd.record.destination && 0 < |cmd.record.owner| <= 256
    ensures var h := Recorded(s, cmd, region, r, numbers, maxAttempts, now);
      h.reason == "" && h.after.crossings[cmd.id].state.Completed? <==>
        SafeField(cmd.record.source, 256) && SafeField(cmd.record.destination, 256)
  {
    if SafeField(cmd.record.source, 256) && SafeField(cmd.record.destination, 256) {
      EntityMapRebinds(
        numbers, cmd.record.entityMap, s.scripts, cmd.record.source, cmd.record.destination, cmd.record.owner);
    }
  }

  // A name the store takes and the script table does not: with a tab in it.
  lemma TabbedName(now: int)
    ensures ValidCrossing("owner", "a\tb", "c", 1, true, now, now + 300) && !SafeField("a\tb", 256)
  {
    var name := "a\tb";
    assert name[1] == '\t' && name[1] in name;
  }
}
