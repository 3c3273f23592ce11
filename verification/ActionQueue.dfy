// The queue of world actions that scripts request: leased to a region, retried, and dropped when
// acknowledged, expired or exhausted.

module ActionQueue {
  import opened Basics

  datatype Action = Action(
    id: string, region: string, entity: nat, owner: string, script: string, kind: nat, payload: string,
    created: int, expires: int, leaseUntil: int, attempts: nat, lastError: string)

  type Queue = seq<Action>

  datatype Config = Config(maxPending: nat, maxAttempts: nat, leaseMs: int, ttlMs: int)

  function Clamp(x: int, low: int, high: int): (r: int)
    requires low <= high
    ensures low <= r <= high
  {
    if x < low then low else if x > high then high else x
  }

  // ---------- operations on a queue ----------

  predicate ValidAction(a: Action) {
    && 0 < |a.region| <= 256 && a.entity != 0 && 0 < |a.owner| <= 256 && 0 < |a.script| <= 256 && |a.payload| <= 4096
  }

  // The action as it is queued; `id` is the queue's own random id.
  function Prepared(a: Action, id: string, now: int, c: Config): Action {
    var created := if a.created <= 0 then now else a.created;
    a.(id := if a.id == "" then id else a.id, created := created,
       expires := if a.expires <= created then created + c.ttlMs else a.expires,
       leaseUntil := 0, attempts := 0, lastError := "")
  }

  // Over for good: expired, or tried often enough with no lease running.
  predicate Dead(a: Action, now: int, c: Config) {
    a.expires <= now || (a.attempts >= c.maxAttempts && a.leaseUntil <= now)
  }

  function Live(q: Queue, now: int, c: Config): Queue {
    if q == [] then [] else (if Dead(q[0], now, c) then [] else [q[0]]) + Live(q[1..], now, c)
  }

  function Unexpired(q: Queue, now: int): Queue {
    if q == [] then [] else (if q[0].expires <= now then [] else [q[0]]) + Unexpired(q[1..], now)
  }

  predicate Eligible(a: Action, region: string, now: int, c: Config) {
    a.region == region && a.leaseUntil <= now && a.attempts < c.maxAttempts
  }

  function FirstEligible(q: Queue, region: string, now: int, c: Config): (i: nat)
    ensures i <= |q| && (i < |q| ==> Eligible(q[i], region, now, c))
    ensures forall j :: 0 <= j < i ==> !Eligible(q[j], region, now, c)
  {
    if q == [] || Eligible(q[0], region, now, c) then 0 else 1 + FirstEligible(q[1..], region, now, c)
  }

  function HandedOut(a: Action, now: int, c: Config): Action {
    a.(attempts := a.attempts + 1, leaseUntil := now + c.leaseMs)
  }

  // The oldest eligible action of the region, once the dead ones are gone.
  function Leased(q: Queue, region: string, now: int, c: Config): (Queue, Option<Action>) {
    var live := Live(q, now, c);
    var i := FirstEligible(live, region, now, c);
    if i == |live| then (live, None)
    else (live[i := HandedOut(live[i], now, c)], Some(HandedOut(live[i], now, c)))
  }

  function IndexOf(q: Queue, id: string): (i: nat)
    ensures i <= |q| && (i < |q| ==> q[i].id == id) && forall j :: 0 <= j < i ==> q[j].id != id
  {
    if q == [] || q[0].id == id then 0 else 1 + IndexOf(q[1..], id)
  }

  function Without(q: Queue, i: nat): Queue
    requires i < |q|
  {
    q[..i] + q[i + 1..]
  }

  function Acked(q: Queue, id: string): Queue {
    var i := IndexOf(q, id);
    if i == |q| then q else Without(q, i)
  }

  function Truncated(text: string): string { if |text| > 512 then text[..512] else text }

  function Nacked(q: Queue, id: string, error: string, retryAt: int, c: Config): Queue {
    var i := IndexOf(q, id);
    if i == |q| then q
    else if q[i].attempts >= c.maxAttempts then Without(q, i)
    else q[i := q[i].(lastError := Truncated(error), leaseUntil := if retryAt < 0 then 0 else retryAt)]
  }

  // ---------- the queue ----------

  lemma {:induction false} LiveAppend(p: Queue, q: Queue, now: int, c: Config)
    ensures Live(p + q, now, c) == Live(p, now, c) + Live(q, now, c)
    decreases |p|
  {
    if p == [] {
      assert p + q == q;
    } else {
      assert (p + q)[1..] == p[1..] + q;
      LiveAppend(p[1..], q, now, c);
    }
  }

  lemma {:induction false} UnexpiredAppend(p: Queue, q: Queue, now: int)
    ensures Unexpired(p + q, now) == Unexpired(p, now) + Unexpired(q, now)
    decreases |p|
  {
    if p == [] {
      assert p + q == q;
    } else {
      assert (p + q)[1..] == p[1..] + q;
      UnexpiredAppend(p[1..], q, now);
    }
  }

  class ScriptWorldActionQueue {
    const c: Config
    var actions: Queue

    constructor (maxPending: nat, maxAttempts: nat, leaseMs: int, ttlMs: int)
      ensures actions == [] && 1 <= c.maxPending <= 65536 && 1 <= c.maxAttempts <= 32
      ensures 100 <= c.leaseMs <= 60000 && 1000 <= c.ttlMs <= 3600000
    {
      c := Config(Clamp(maxPending, 1, 65536), Clamp(maxAttempts, 1, 32), Clamp(leaseMs, 100, 60000),
                  Clamp(ttlMs, 1000, 3600000));
      actions := [];
    }

    method Enqueue(a: Action, id: string, now: int) returns (ok: bool)
      modifies this
      ensures ok == (ValidAction(a) && |old(actions)| < c.maxPending)
      ensures actions == if ok then old(actions) + [Prepared(a, id, now, c)] else old(actions)
    {
      if !ValidAction(a) || |actions| >= c.maxPending {
        return false;
      }
      actions := actions + [Prepared(a, id, now, c)];
      ok := true;
    }

    method Lease(region: string, now: int) returns (leased: Option<Action>)
      modifies this
      ensures (actions, leased) == Leased(old(actions), region, now, c)
    {
      DropDead(now);
      var i := FindEligible(region, now);
      if i == |actions| {
        return None;
      }
      var action := HandedOut(actions[i], now, c);
      actions := actions[i := action];
      leased := Some(action);
    }

    method FindEligible(region: string, now: int) returns (i: nat)
      ensures i == FirstEligible(actions, region, now, c)
    {
      i := 0;
      while i < |actions| && !Eligible(actions[i], region, now, c)
        invariant i <= |actions|
        invariant FirstEligible(actions, region, now, c) == i + FirstEligible(actions[i..], region, now, c)
      {
        assert actions[i..][1..] == actions[i + 1..];
        i := i + 1;
      }
    }

    method DropDead(now: int)
      modifies this
      ensures actions == Live(old(actions), now, c)
    {
      var i := 0;
      ghost var done: nat := 0;
      while i < |actions|
        invariant i <= |actions| && done <= |old(actions)|
        invariant actions[i..] == old(actions)[done..] && actions[..i] == Live(old(actions)[..done], now, c)
        decreases |actions| - i
      {
        var head, tail := actions[..i], actions[i + 1..];
        assert old(actions)[..done + 1] == old(actions)[..done] + [actions[i]];
        LiveAppend(old(actions)[..done], [actions[i]], now, c);
        assert tail == old(actions)[done + 1..];
        if Dead(actions[i], now, c) {
          actions := head + tail;
          assert actions[..i] == head && actions[i..] == tail;
        } else {
          assert actions[..i + 1] == head + [actions[i]];
          i := i + 1;
        }
        done := done + 1;
      }
      assert actions[..i] == actions && old(actions)[..done] == old(actions);
    }

    method Find(id: string) returns (i: nat)
      ensures i == IndexOf(actions, id)
    {
      i := 0;
      while i < |actions| && actions[i].id != id
        invariant i <= |actions| && IndexOf(actions, id) == i + IndexOf(actions[i..], id)
      {
        assert actions[i..][1..] == actions[i + 1..];
        i := i + 1;
      }
    }

    method Ack(id: string) returns (ok: bool)
      modifies this
      ensures ok == (IndexOf(old(actions), id) < |old(actions)|) && actions == Acked(old(actions), id)
    {
      var i := Find(id);
      if i == |actions| {
        return false;
      }
      actions := actions[..i] + actions[i + 1..];
      ok := true;
    }

    method Nack(id: string, error: string, retryAt: int) returns (ok: bool)
      modifies this
      ensures ok == (IndexOf(old(actions), id) < |old(actions)|) && actions == Nacked(old(actions), id, error, retryAt, c)
    {
      var i := Find(id);
      if i == |actions| {
        return false;
      }
      if actions[i].attempts >= c.maxAttempts {
        actions := actions[..i] + actions[i + 1..];
      } else {
        actions := actions[
          i := actions[i].(lastError := Truncated(error), leaseUntil := if retryAt < 0 then 0 else retryAt)];
      }
      ok := true;
    }

    method PurgeExpired(now: int) returns (removed: nat)
      modifies this
      ensures actions == Unexpired(old(actions), now) && removed == |old(actions)| - |actions|
    {
      var before, kept := actions, [];
      for i := 0 to |before|
        invariant kept == Unexpired(before[..i], now) && |kept| <= i
      {
        assert before[..i + 1] == before[..i] + [before[i]];
        UnexpiredAppend(before[..i], [before[i]], now);
        if before[i].expires > now {
          kept := kept + [before[i]];
        }
      }
      assert before[..|before|] == before;
      removed := |before| - |kept|;
      actions := kept;
    }
  }

  // ---------- histories ----------

  // The queue, with what an observer notes: the order of enqueuing, how often each action was handed
  // out, and the end of the lease time since the last handing out, if it was not nacked since.
  datatype History = History(queue: Queue, next: nat, rank: map<string, nat>, handed: map<string, nat>, leases: map<string, int>)

  ghost predicate Enqueues(h: History, k: History, c: Config, a: Action, id: string, now: int) {
    var b := Prepared(a, id, now, c);
    if !ValidAction(a) || |h.queue| >= c.maxPending then k == h
    else
      && b.id !in h.rank
      && k == h.(queue := h.queue + [b], next := h.next + 1, rank := h.rank[b.id := h.next], handed := h.handed[b.id := 0])
  }

  ghost predicate Leases(h: History, k: History, c: Config, region: string, now: int) {
    var (q, leased) := Leased(h.queue, region, now, c);
    match leased
    case None => k == h.(queue := q)
    case Some(a) =>
      k == h.(queue := q, handed := h.handed[a.id := (if a.id in h.handed then h.handed[a.id] else 0) + 1],
              leases := h.leases[a.id := now + c.leaseMs])
  }

  ghost predicate Nacks(h: History, k: History, c: Config, id: string, error: string, retryAt: int) {
    k == h.(queue := Nacked(h.queue, id, error, retryAt, c), leases := h.leases - {id})
  }

  ghost predicate Operation(h: History, k: History, c: Config) {
    || (exists a, id, now :: Enqueues(h, k, c, a, id, now))
    || (exists region, now :: Leases(h, k, c, region, now))
    || (exists id :: k == h.(queue := Acked(h.queue, id)))
    || (exists id, error, retryAt :: Nacks(h, k, c, id, error, retryAt))
    || (exists now :: k == h.(queue := Unexpired(h.queue, now)))
  }

  // What holds of one queued action.
  predicate Noted(a: Action, h: History) {
    && a.id in h.rank && h.rank[a.id] < h.next
    && a.id in h.handed && h.handed[a.id] == a.attempts
    && (a.id in h.leases ==> a.leaseUntil == h.leases[a.id])
  }

  ghost predicate AllNoted(q: Queue, h: History) {
    forall i :: 0 <= i < |q| ==> Noted(q[i], h)
  }

  // The queue keeps the order of enqueuing, so no action is in it twice.
  ghost predicate InOrder(q: Queue, rank: map<string, nat>) {
    forall i, j :: 0 <= i < j < |q| ==> q[i].id in rank && q[j].id in rank && rank[q[i].id] < rank[q[j].id]
  }

  ghost predicate Good(h: History, c: Config) {
    && AllNoted(h.queue, h) && InOrder(h.queue, h.rank) && |h.queue| <= c.maxPending
    && (forall id :: id in h.rank ==> h.rank[id] < h.next) && h.leases.Keys <= h.rank.Keys
    && forall id :: id in h.handed ==> h.handed[id] <= c.maxAttempts
  }

  // p keeps some elements of q, in order.
  ghost predicate Thinned(p: Queue, q: Queue, at: seq<nat>) {
    && |at| == |p| && (forall i :: 0 <= i < |at| ==> at[i] < |q| && p[i] == q[at[i]])
    && forall i, j :: 0 <= i < j < |at| ==> at[i] < at[j]
  }

  lemma ThinnedGood(p: Queue, at: seq<nat>, h: History, c: Config)
    requires Good(h, c) && Thinned(p, h.queue, at) && |p| <= |h.queue|
    ensures Good(h.(queue := p), c)
  {
  }

  // Removing what a test picks out thins the queue.
  lemma {:induction false} LiveThins(q: Queue, now: int, c: Config) returns (at: seq<nat>)
    ensures Thinned(Live(q, now, c), q, at) && |Live(q, now, c)| <= |q|
    ensures forall i :: 0 <= i < |Live(q, now, c)| ==> !Dead(Live(q, now, c)[i], now, c)
    decreases |q|
  {
    if q == [] {
      at := [];
    } else {
      var rest := LiveThins(q[1..], now, c);
      at := Shifted(q, Live(q[1..], now, c), rest, Dead(q[0], now, c));
    }
  }

  // From the kept part of the tail to the kept part of the whole.
  lemma Shifted(q: Queue, p: Queue, rest: seq<nat>, drop: bool) returns (at: seq<nat>)
    requires q != [] && Thinned(p, q[1..], rest)
    ensures Thinned((if drop then [] else [q[0]]) + p, q, at)
  {
    var up: seq<nat> := seq(|rest|, i requires 0 <= i < |rest| => rest[i] + 1);
    at := (if drop then [] else [0]) + up;
  }

  lemma {:induction false} UnexpiredThins(q: Queue, now: int) returns (at: seq<nat>)
    ensures Thinned(Unexpired(q, now), q, at) && |Unexpired(q, now)| <= |q|
    decreases |q|
  {
    if q == [] {
      at := [];
    } else {
      var rest := UnexpiredThins(q[1..], now);
      at := Shifted(q, Unexpired(q[1..], now), rest, q[0].expires <= now);
    }
  }

  lemma WithoutThins(q: Queue, i: nat) returns (at: seq<nat>)
    requires i < |q|
    ensures Thinned(Without(q, i), q, at)
  {
    at := seq(|q| - 1, j requires 0 <= j < |q| - 1 => if j < i then j else j + 1);
  }

  lemma EnqueuesKeeps(h: History, k: History, c: Config, a: Action, id: string, now: int)
    requires Good(h, c) && Enqueues(h, k, c, a, id, now)
    ensures Good(k, c)
  {
  }

  // Handing one queued action out.
  lemma HandOutKeeps(h: History, i: nat, now: int, c: Config)
    requires Good(h, c) && i < |h.queue| && h.queue[i].attempts < c.maxAttempts
    ensures var a := HandedOut(h.queue[i], now, c);
      Good(h.(queue := h.queue[i := a], handed := h.handed[a.id := a.attempts], leases := h.leases[a.id := a.leaseUntil]), c)
  {
  }

  lemma LeasesKeeps(h: History, k: History, c: Config, region: string, now: int)
    requires Good(h, c) && Leases(h, k, c, region, now)
    ensures Good(k, c)
  {
    var live := Live(h.queue, now, c);
    var at := LiveThins(h.queue, now, c);
    ThinnedGood(live, at, h, c);
    var g := h.(queue := live);
    var i := FirstEligible(live, region, now, c);
    if i < |live| {
      assert Noted(live[i], g);
      HandOutKeeps(g, i, now, c);
    }
  }

  lemma AcksKeeps(h: History, k: History, c: Config, id: string)
    requires Good(h, c) && k == h.(queue := Acked(h.queue, id))
    ensures Good(k, c)
  {
    var i := IndexOf(h.queue, id);
    if i < |h.queue| {
      var at := WithoutThins(h.queue, i);
      ThinnedGood(Without(h.queue, i), at, h, c);
    }
  }

  lemma ForgetKeeps(h: History, id: string, c: Config)
    requires Good(h, c)
    ensures Good(h.(leases := h.leases - {id}), c)
  {
    var k := h.(leases := h.leases - {id});
    forall i | 0 <= i < |h.queue| ensures Noted(h.queue[i], k) {
      assert Noted(h.queue[i], h);
    }
  }

  lemma DelayKeeps(h: History, i: nat, b: Action, c: Config)
    requires Good(h, c) && i < |h.queue| && h.queue[i].id !in h.leases
    requires b.id == h.queue[i].id && b.attempts == h.queue[i].attempts
    ensures Good(h.(queue := h.queue[i := b]), c)
  {
    var q := h.queue[i := b];
    var k := h.(queue := q);
    forall j | 0 <= j < |q| ensures Noted(q[j], k) {
      assert Noted(h.queue[j], h);
    }
  }

  lemma NacksKeeps(h: History, k: History, c: Config, id: string, error: string, retryAt: int)
    requires Good(h, c) && Nacks(h, k, c, id, error, retryAt)
    ensures Good(k, c)
  {
    var g, i := h.(leases := h.leases - {id}), IndexOf(h.queue, id);
    ForgetKeeps(h, id, c);
    if i < |h.queue| {
      if h.queue[i].attempts >= c.maxAttempts {
        var at := WithoutThins(h.queue, i);
        ThinnedGood(Without(h.queue, i), at, g, c);
      } else {
        DelayKeeps(g, i, k.queue[i], c);
      }
    }
  }

  lemma OperationKeeps(h: History, k: History, c: Config)
    requires Good(h, c) && Operation(h, k, c)
    ensures Good(k, c)
  {
    if a, id, now :| Enqueues(h, k, c, a, id, now) {
      EnqueuesKeeps(h, k, c, a, id, now);
    } else if region, now :| Leases(h, k, c, region, now) {
      LeasesKeeps(h, k, c, region, now);
    } else if id :| k == h.(queue := Acked(h.queue, id)) {
      AcksKeeps(h, k, c, id);
    } else if id, error, retryAt :| Nacks(h, k, c, id, error, retryAt) {
      NacksKeeps(h, k, c, id, error, retryAt);
    } else {
      var now :| k == h.(queue := Unexpired(h.queue, now));
      var at := UnexpiredThins(h.queue, now);
      ThinnedGood(Unexpired(h.queue, now), at, h, c);
    }
  }

  ghost function Operating(c: Config): (History, History) -> bool { (h: History, k: History) => Operation(h, k, c) }

  const EMPTY: History := History([], 0, map[], map[], map[])

  // In every run: order kept, size bounded, and no action handed out more than maxAttempts times.
  lemma RunGood(c: Config, h: History)
    requires Reaches(Operating(c), EMPTY, h)
    ensures Good(h, c)
  {
    var n: nat :| Path(Operating(c), EMPTY, h, n);
    var good := (k: History) => Good(k, c);
    forall a, b | good(a) && Operating(c)(a, b) ensures good(b) {
      OperationKeeps(a, b, c);
    }
    PathKeeps(Operating(c), good, EMPTY, h, n);
  }

  // ---------- what leasing promises ----------

  // For the lease time after a handing out an action is not handed out again, unless it was nacked.
  lemma NotWhileLeased(c: Config, h: History, region: string, now: int)
    requires Reaches(Operating(c), EMPTY, h)
    ensures var (q, leased) := Leased(h.queue, region, now, c);
      leased.Some? && leased.value.id in h.leases ==> h.leases[leased.value.id] <= now
  {
    RunGood(c, h);
    LeaseNoted(h, c, region, now);
  }

  // An action is leased until then, at least.
  ghost predicate Waits(h: History, c: Config, id: string, until: int) {
    Good(h, c) && id in h.leases && h.leases[id] >= until
  }

  // Step by step: handed out at one time, and again at another, with any run without a nack of it between.
  lemma LeaseLasts(
    c: Config, h: History, k: History, l: History, region: string, other: string, first: int, second: int, a: Action, b: Action)
    requires Reaches(Operating(c), EMPTY, h) && Leases(h, k, c, region, first) && Leased(h.queue, region, first, c).1 == Some(a)
    requires Reaches(Keeping(c, a.id), k, l) && Leased(l.queue, other, second, c).1 == Some(b) && b.id == a.id
    requires c.leaseMs >= 0
    ensures second >= first + c.leaseMs
  {
    RunGood(c, h);
    LeasesKeeps(h, k, c, region, first);
    KeepsWaiting(c, k, l, a.id, first + c.leaseMs);
    LeaseNoted(l, c, other, second);
  }

  lemma KeepsWaiting(c: Config, k: History, l: History, id: string, until: int)
    requires Waits(k, c, id, until) && Reaches(Keeping(c, id), k, l) && c.leaseMs >= 0
    ensures Waits(l, c, id, until)
  {
    forall x: History, y: History | Waits(x, c, id, until) && Keeping(c, id)(x, y) ensures Waits(y, c, id, until) {
      KeepsOperates(x, y, c, id);
      OperationKeeps(x, y, c);
      KeepingLater(x, y, c, id, until);
    }
    ReachesKeeps(Keeping(c, id), (x: History) => Waits(x, c, id, until), k, l);
  }

  lemma KeepsOperates(h: History, k: History, c: Config, id: string)
    requires Keeps(h, k, c, id)
    ensures Operation(h, k, c)
  {
  }

  lemma LeaseNoted(h: History, c: Config, region: string, now: int)
    requires Good(h, c)
    ensures var leased := Leased(h.queue, region, now, c).1;
      leased.Some? && leased.value.id in h.leases ==> h.leases[leased.value.id] <= now
  {
    var live := Live(h.queue, now, c);
    var at := LiveThins(h.queue, now, c);
    var i := FirstEligible(live, region, now, c);
    if i < |live| {
      assert Noted(h.queue[at[i]], h);
    }
  }

  // Any operation but a nack of this action.
  ghost predicate Keeps(h: History, k: History, c: Config, id: string) {
    || (exists a, made, now :: Enqueues(h, k, c, a, made, now))
    || (exists region, now :: Leases(h, k, c, region, now))
    || (exists other :: k == h.(queue := Acked(h.queue, other)))
    || (exists other, error, retryAt :: other != id && Nacks(h, k, c, other, error, retryAt))
    || (exists now :: k == h.(queue := Unexpired(h.queue, now)))
  }

  ghost function Keeping(c: Config, id: string): (History, History) -> bool { (h: History, k: History) => Keeps(h, k, c, id) }

  lemma KeepingLater(h: History, k: History, c: Config, id: string, until: int)
    requires Good(h, c) && Keeps(h, k, c, id) && id in h.leases && h.leases[id] >= until && c.leaseMs >= 0
    ensures id in k.leases && k.leases[id] >= until
  {
    if region, now :| Leases(h, k, c, region, now) {
      LeaseNoted(h, c, region, now);
    }
  }

  lemma {:induction false} LiveHolds(q: Queue, now: int, c: Config, j: nat)
    requires j < |q| && !Dead(q[j], now, c)
    ensures q[j] in Live(q, now, c)
    decreases |q|
  {
    if j > 0 {
      LiveHolds(q[1..], now, c, j - 1);
    }
  }

  lemma FirstIsOldest(h: History, c: Config, region: string, now: int, m: nat)
    requires Good(h, c) && m < |h.queue| && Eligible(h.queue[m], region, now, c)
    ensures var i := FirstEligible(h.queue, region, now, c);
      i <= m && h.queue[i].id in h.rank && h.queue[m].id in h.rank && h.rank[h.queue[i].id] <= h.rank[h.queue[m].id]
  {
    var i := FirstEligible(h.queue, region, now, c);
    assert i <= m;
    assert Noted(h.queue[i], h) && Noted(h.queue[m], h);
  }

  // Leasing hands out the oldest action of the region that is not expired, not leased and not
  // exhausted, and hands out nothing only when there is none.
  lemma OldestFirst(c: Config, h: History, region: string, now: int, j: nat)
    requires Reaches(Operating(c), EMPTY, h) && j < |h.queue| && h.queue[j].region == region
    requires h.queue[j].expires > now && h.queue[j].leaseUntil <= now && h.queue[j].attempts < c.maxAttempts
    ensures var (q, leased) := Leased(h.queue, region, now, c);
      leased.Some? && leased.value.id in h.rank && h.queue[j].id in h.rank &&
      h.rank[leased.value.id] <= h.rank[h.queue[j].id]
  {
    RunGood(c, h);
    var live := Live(h.queue, now, c);
    var at := LiveThins(h.queue, now, c);
    ThinnedGood(live, at, h, c);
    LiveHolds(h.queue, now, c, j);
    var m: nat :| m < |live| && live[m] == h.queue[j];
    FirstIsOldest(h.(queue := live), c, region, now, m);
  }

  // What is handed out was in the queue, for that region and free; now it is leased, with one more attempt.
  lemma LeasedFromQueue(c: Config, q: Queue, region: string, now: int)
    ensures var (after, leased) := Leased(q, region, now, c);
      leased.Some? ==> exists j ::
        && 0 <= j < |q| && q[j].region == region && q[j].expires > now && q[j].leaseUntil <= now && q[j].attempts < c.maxAttempts
        && leased.value == q[j].(attempts := q[j].attempts + 1, leaseUntil := now + c.leaseMs)
  {
    var live := Live(q, now, c);
    var at := LiveThins(q, now, c);
    var i := FirstEligible(live, region, now, c);
    if i < |live| {
      assert live[i] == q[at[i]] && !Dead(live[i], now, c);
    }
  }

  // ---------- how actions leave ----------

  ghost predicate Gone(a: Action, q: Queue) { forall j :: 0 <= j < |q| ==> q[j].id != a.id }

  lemma {:induction false} UnexpiredHolds(q: Queue, now: int, j: nat)
    requires j < |q| && q[j].expires > now
    ensures q[j] in Unexpired(q, now)
    decreases |q|
  {
    if j > 0 {
      UnexpiredHolds(q[1..], now, j - 1);
    }
  }

  // Leasing drops an action only when it is expired or exhausted; purging only when it is expired.
  lemma LeaveByTime(c: Config, q: Queue, region: string, now: int, j: nat)
    requires j < |q|
    ensures Gone(q[j], Leased(q, region, now, c).0) ==>
      q[j].expires <= now || (q[j].attempts >= c.maxAttempts && q[j].leaseUntil <= now)
    ensures Gone(q[j], Unexpired(q, now)) ==> q[j].expires <= now
  {
    if !Dead(q[j], now, c) {
      LiveHolds(q, now, c, j);
      var live := Live(q, now, c);
      var i := FirstEligible(live, region, now, c);
      var m: nat :| m < |live| && live[m] == q[j];
      assert Leased(q, region, now, c).0[m].id == q[j].id;
    }
    if q[j].expires > now {
      UnexpiredHolds(q, now, j);
    }
  }

  // And these it does drop: none is left in the queue.
  lemma NoneLeft(c: Config, q: Queue, region: string, now: int, a: Action)
    requires c.leaseMs > 0
    ensures a in Leased(q, region, now, c).0 ==>
      a.expires > now && (a.attempts < c.maxAttempts || a.leaseUntil > now)
    ensures a in Unexpired(q, now) ==> a.expires > now
  {
    var at := LiveThins(q, now, c);
    UnexpiredOnly(q, now);
  }

  lemma {:induction false} UnexpiredOnly(q: Queue, now: int)
    ensures forall a :: a in Unexpired(q, now) ==> a.expires > now
    decreases |q|
  {
    if q != [] {
      UnexpiredOnly(q[1..], now);
    }
  }

  // What is queued, and when: fields within their bounds, and room.
  lemma QueuedAs(a: Action, id: string, now: int, c: Config)
    ensures ValidAction(a) <==>
      && a.region != "" && |a.region| < 257 && a.entity > 0 && a.owner != "" && |a.owner| < 257
      && a.script != "" && |a.script| < 257 && |a.payload| < 4097
    ensures var b := Prepared(a, id, now, c);
      && b.id == (if a.id == "" then id else a.id) && b.created == (if a.created > 0 then a.created else now)
      && b.expires == (if a.expires > b.created then a.expires else b.created + c.ttlMs)
      && b == Action(b.id, a.region, a.entity, a.owner, a.script, a.kind, a.payload, b.created, b.expires, 0, 0, "")
  {
  }

  // A nack gives a free try away: the action waits until the time given, or goes with its last attempt.
  lemma NackMeans(q: Queue, i: nat, error: string, retryAt: int, c: Config)
    requires i < |q| && forall j :: 0 <= j < i ==> q[j].id != q[i].id
    ensures Nacked(q, q[i].id, error, retryAt, c) ==
      if q[i].attempts < c.maxAttempts then
        q[i := q[i].(lastError := if |error| <= 512 then error else error[..512], leaseUntil := if retryAt >= 0 then retryAt else 0)]
      else q[..i] + q[i + 1..]
    ensures Acked(q, q[i].id) == q[..i] + q[i + 1..]
  {
    assert IndexOf(q, q[i].id) == i;
  }

  // An acknowledgement removes the action it names and no other; a nack removes it only when its
  // attempts are used up.
  lemma LeaveByName(c: Config, q: Queue, id: string, error: string, retryAt: int, j: nat)
    requires j < |q|
    ensures Gone(q[j], Acked(q, id)) ==> q[j].id == id
    ensures Gone(q[j], Nacked(q, id, error, retryAt, c)) ==> q[j].id == id && q[IndexOf(q, id)].attempts >= c.maxAttempts
  {
    var i := IndexOf(q, id);
    if i < |q| && j != i {
      var p := Without(q, i);
      assert p[if j < i then j else j - 1] == q[j];
    }
    if i < |q| && q[i].attempts < c.maxAttempts {
      assert Nacked(q, id, error, retryAt, c)[j].id == q[j].id;
    }
  }
}
