// The running system with one crossing left out: its record, its commands and what is at one of its keys.
// As long as that crossing does nothing elsewhere in the scenes, the others go on as if it were not there.

module CrossingWithout {
  import opened Basics
  import opened ObjectCrossingStore
  import opened CrossingProtocol
  import opened CrossingRegion
  import opened CoreCrossings
  import opened CrossingSystem
  import opened CrossingExchange
  import opened CrossingQueue

  // A task that is not the crossing's and not about the key.
  predicate Stays(links: Links, task: Task, id: string, e: Key) {
    task.cmd.id != id && Target(links, OrderOf(task.cmd)) != e
  }

  function BusyWithout(links: Links, busy: map<string, Task>, id: string, e: Key): map<string, Task> {
    map region | region in busy && Stays(links, busy[region], id, e) :: busy[region]
  }

  function CoreWithout(core: CoreState, id: string): CoreState { core.(crossings := core.crossings - {id}) }

  function Without(s: System, links: Links, id: string, e: Key): System {
    System(CoreWithout(s.core, id), s.scene - {e}, BusyWithout(links, s.busy, id, e))
  }

  // Tasks about the key that are not the crossing's are exports of crossings that are no longer prepared.
  ghost predicate IdleAt(s: System, links: Links, id: string, e: Key) {
    && (forall region :: region in s.busy && s.busy[region].cmd.id != id && Target(links, OrderOf(s.busy[region].cmd)) == e ==>
          Overtaken(s.core.crossings, s.busy[region].cmd))
    && NoneAt(s.core.crossings, links, id, e)
  }

  // No other unfinished crossing leaves from the key or goes there.
  ghost predicate NoneAt(m: Crossings, links: Links, id: string, e: Key) {
    && (forall other :: other in m && other != id ==> Root(links, SlotOf(m[other]).to) == SlotOf(m[other]).to)
    && forall other :: Touches(m, links, other, e) ==> other == id
  }

  predicate Overtaken(m: Crossings, cmd: Command) { cmd.kind.ExportSource? && (cmd.id in m ==> !m[cmd.id].state.Prepared?) }

  // The others' view of a step: none, or a step of theirs.
  ghost predicate Passes(s: System, t: System, c: Config, id: string, e: Key) {
    Without(t, c.links, id, e) == Without(s, c.links, id, e) || Goes(Without(s, c.links, id, e), Without(t, c.links, id, e), c)
  }

  lemma BusyUpdate(links: Links, busy: map<string, Task>, id: string, e: Key, region: string, task: Task)
    ensures Stays(links, task, id, e) ==>
      BusyWithout(links, busy[region := task], id, e) == BusyWithout(links, busy, id, e)[region := task]
    ensures !Stays(links, task, id, e) ==>
      BusyWithout(links, busy[region := task], id, e) == BusyWithout(links, busy, id, e) - {region}
  {
  }

  lemma BusyRemove(links: Links, busy: map<string, Task>, id: string, e: Key, region: string)
    ensures BusyWithout(links, busy - {region}, id, e) == BusyWithout(links, busy, id, e) - {region}
  {
  }

  lemma PollsWithout(s: System, t: System, c: Config, id: string, e: Key, region: string, cmd: Command)
    requires IdleAt(s, c.links, id, e) && Polls(s, t, region, cmd)
    ensures Passes(s, t, c, id, e)
  {
    BusyUpdate(c.links, s.busy, id, e, region, Sent(cmd));
    if cmd.id == id {
      assert BusyWithout(c.links, s.busy, id, e) - {region} == BusyWithout(c.links, s.busy, id, e);
    } else {
      OfferedElsewhere(s.core.crossings, c.links, id, e, region, cmd);
      assert Polls(Without(s, c.links, id, e), Without(t, c.links, id, e), region, cmd);
    }
  }

  lemma OfferedElsewhere(m: Crossings, links: Links, id: string, e: Key, region: string, cmd: Command)
    requires Offers(m, region, Some(cmd)) && cmd.id != id
    requires NoneAt(m, links, id, e)
    ensures Target(links, OrderOf(cmd)) != e
  {
    assert !Touches(m, links, cmd.id, e);
  }

  lemma PutWithout(scene: map<Key, string>, e: Key, k: Key, contents: Option<string>)
    ensures k != e ==> Put(scene, k, contents) - {e} == Put(scene - {e}, k, contents) && Found(scene - {e}, k) == Found(scene, k)
    ensures k == e ==> Put(scene, k, contents) - {e} == scene - {e}
  {
  }

  lemma ActsWithout(s: System, t: System, c: Config, id: string, e: Key, region: string, room: bool)
    requires IdleAt(s, c.links, id, e) && Acts(s, t, c, region, room)
    requires s.busy[region].cmd.id == id ==> t.scene - {e} == s.scene - {e}
    ensures Passes(s, t, c, id, e)
  {
    var cmd := s.busy[region].cmd;
    var k := Target(c.links, OrderOf(cmd));
    var (after, r) := Carried(Found(s.scene, k), k.entity, OrderOf(cmd), cmd.record.owner, c.checks, room);
    BusyUpdate(c.links, s.busy, id, e, region, Replied(cmd, r));
    PutWithout(s.scene, e, k, after);
    if Stays(c.links, s.busy[region], id, e) {
      assert Acts(Without(s, c.links, id, e), Without(t, c.links, id, e), c, region, room);
    } else {
      assert BusyWithout(c.links, s.busy, id, e) - {region} == BusyWithout(c.links, s.busy, id, e);
    }
  }

  // Recording a result of another crossing.
  lemma RecordedWithout(
    core: CoreState, id: string, cmd: Command, region: string, r: Report, c: Config, now: int)
    requires cmd.id != id && cmd.id in core.crossings
    ensures Recorded(CoreWithout(core, id), cmd, region, r, c.numbers, c.maxAttempts, now).after ==
      CoreWithout(Recorded(core, cmd, region, r, c.numbers, c.maxAttempts, now).after, id)
  {
    if r.ok && cmd.kind.RemoveSource? {
      RemovedWithout(core, id, cmd, region, c, now);
    } else {
      var after := Recorded(core, cmd, region, r, c.numbers, c.maxAttempts, now).after;
      UpdateWithout(core.crossings, id, cmd.id, if cmd.id in after.crossings then after.crossings[cmd.id] else cmd.record);
    }
  }

  lemma RemovedWithout(core: CoreState, id: string, cmd: Command, region: string, c: Config, now: int)
    requires cmd.id != id && cmd.id in core.crossings
    ensures Removed(CoreWithout(core, id), cmd, region, c.numbers, now).after ==
      CoreWithout(Removed(core, cmd, region, c.numbers, now).after, id)
  {
    UpdateWithout(core.crossings, id, cmd.id, RemoveReply(core.crossings[cmd.id], region, now).record);
  }

  lemma UpdateWithout(m: Crossings, id: string, other: string, r: Record)
    requires other != id
    ensures m[other := r] - {id} == (m - {id})[other := r]
  {
  }

  lemma SomeOffer(m: Crossings, region: string) returns (cmd: Option<Command>)
    ensures Offers(m, region, cmd)
  {
    var due := set id | id in m && Due(m[id], region).Some?;
    if due == {} {
      cmd := None;
      forall id | id in m ensures Due(m[id], region) == None {
        assert id !in due;
      }
    } else {
      var id := Eldest(m, due);
      cmd := Some(Command(Due(m[id], region).value, id, m[id]));
    }
  }

  lemma AnswersWithout(
    s: System, t: System, c: Config, id: string, e: Key, region: string, owns: bool, expected: Option<Command>, now: int)
    requires IdleAt(s, c.links, id, e) && Answers(s, t, c, region, owns, expected, now)
    ensures Passes(s, t, c, id, e)
  {
    var task := s.busy[region];
    BusyRemove(c.links, s.busy, id, e, region);
    if !Stays(c.links, task, id, e) {
      assert BusyWithout(c.links, s.busy, id, e) - {region} == BusyWithout(c.links, s.busy, id, e);
      DroppedAnswer(s, t, c, id, e, region, owns, expected, now);
      assert ScriptsChange(Without(s, c.links, id, e), Without(t, c.links, id, e));
    } else {
      KeptAnswer(s, t, c, id, e, region, owns, expected, now);
    }
  }

  // An answer to a command left out changes no record but that of the crossing left out.
  lemma DroppedAnswer(
    s: System, t: System, c: Config, id: string, e: Key, region: string, owns: bool, expected: Option<Command>, now: int)
    requires IdleAt(s, c.links, id, e) && Answers(s, t, c, region, owns, expected, now)
    requires !Stays(c.links, s.busy[region], id, e)
    ensures t.core.crossings - {id} == s.core.crossings - {id}
  {
    var task := s.busy[region];
    if owns && expected.Some? && expected.value.id == task.cmd.id && expected.value.kind == task.cmd.kind {
      DueState(expected.value.record, region);
      RecordedAnswers(s.core, expected.value, region, task.report, c.numbers, c.maxAttempts, now);
      var u := t.core.crossings[task.cmd.id];
      assert t.core.crossings == s.core.crossings[task.cmd.id := u];
      assert task.cmd.id == id;
    }
  }

  lemma KeptAnswer(
    s: System, t: System, c: Config, id: string, e: Key, region: string, owns: bool, expected: Option<Command>, now: int)
    requires Answers(s, t, c, region, owns, expected, now) && Stays(c.links, s.busy[region], id, e)
    requires BusyWithout(c.links, t.busy, id, e) == BusyWithout(c.links, s.busy, id, e) - {region}
    ensures Passes(s, t, c, id, e)
  {
    var task, u, v := s.busy[region], Without(s, c.links, id, e), Without(t, c.links, id, e);
    if owns && expected.Some? && expected.value.id == task.cmd.id && expected.value.kind == task.cmd.kind {
      RecordedWithout(s.core, id, expected.value, region, task.report, c, now);
      assert Answers(u, v, c, region, true, expected, now);
    } else {
      var other := SomeOffer(u.core.crossings, region);
      assert Answers(u, v, c, region, false, other, now);
    }
  }

  lemma LosesWithout(s: System, t: System, c: Config, id: string, e: Key, region: string)
    requires Loses(s, t, region)
    ensures Passes(s, t, c, id, e)
  {
    BusyRemove(c.links, s.busy, id, e, region);
    if Stays(c.links, s.busy[region], id, e) {
      assert Loses(Without(s, c.links, id, e), Without(t, c.links, id, e), region);
    } else {
      assert BusyWithout(c.links, s.busy, id, e) - {region} == BusyWithout(c.links, s.busy, id, e);
    }
  }

  lemma RollsBackWithout(s: System, t: System, c: Config, id: string, e: Key, other: string, owner: string, why: string, now: int)
    requires RollsBack(s, t, other, owner, why, now)
    ensures Passes(s, t, c, id, e)
  {
    var m := s.core.crossings;
    if other == id || other !in m {
      assert t.core.crossings - {id} == m - {id};
    } else {
      assert t.core.crossings - {id} == RollbackOutcome(m - {id}, other, owner, why, now).crossings;
      assert RollsBack(Without(s, c.links, id, e), Without(t, c.links, id, e), other, owner, why, now);
    }
  }

  lemma MaintainsWithout(s: System, t: System, c: Config, id: string, e: Key, now: int)
    requires Maintains(s, t, now)
    ensures Passes(s, t, c, id, e)
  {
    assert t.core.crossings - {id} == Maintained(s.core.crossings - {id}, now);
    assert Maintains(Without(s, c.links, id, e), Without(t, c.links, id, e), now);
  }

  // The crossing left out acts at the key only.
  ghost predicate Aloof(s: System, t: System, c: Config, id: string, e: Key) {
    forall region, room :: Acts(s, t, c, region, room) && s.busy[region].cmd.id == id ==> t.scene - {e} == s.scene - {e}
  }

  lemma GoesWithout(s: System, t: System, c: Config, id: string, e: Key)
    requires Goes(s, t, c) && IdleAt(s, c.links, id, e) && Aloof(s, t, c, id, e)
    ensures Passes(s, t, c, id, e)
  {
    if region, cmd :| Polls(s, t, region, cmd) {
      PollsWithout(s, t, c, id, e, region, cmd);
    } else if region, room :| Acts(s, t, c, region, room) {
      ActsWithout(s, t, c, id, e, region, room);
    } else if region, owns, expected, now :| Answers(s, t, c, region, owns, expected, now) {
      AnswersWithout(s, t, c, id, e, region, owns, expected, now);
    } else if region :| Loses(s, t, region) {
      LosesWithout(s, t, c, id, e, region);
    } else if other, owner, why, now :| RollsBack(s, t, other, owner, why, now) {
      RollsBackWithout(s, t, c, id, e, other, owner, why, now);
    } else if now :| Maintains(s, t, now) {
      MaintainsWithout(s, t, c, id, e, now);
    } else {
      assert ScriptsChange(Without(s, c.links, id, e), Without(t, c.links, id, e));
    }
  }

  lemma PassesLives(s: System, t: System, c: Config, linksets: set<string>, id: string, e: Key)
    requires Lives(Without(s, c.links, id, e), c, linksets) && Passes(s, t, c, id, e)
    ensures Lives(Without(t, c.links, id, e), c, linksets)
  {
    if Without(t, c.links, id, e) != Without(s, c.links, id, e) {
      NextLives(Without(s, c.links, id, e), Without(t, c.links, id, e), c, linksets);
    }
  }
}
