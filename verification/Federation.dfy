// The federation runtime: travel between grids, over the stores of trust, sessions, grants and nonces.

module Federation {
  import opened Basics
  import opened Text
  import opened FederationStores

  // What the four stores hold.
  datatype Grid = Grid(peers: Peers, sessions: Sessions, grants: Grants, consumed: Consumed)

  // This grid's identity, the digest of service tokens, and the opening of a signed token with a key:
  // its version and claims, if the signature and the payload are good.
  datatype Local = Local(
    grid: string, baseUrl: string, hash: string -> string, open: (string, string) -> Option<(int, Claims)>)

  // ---------- travel tokens ----------

  predicate CompleteContext(c: Claims) {
    c.grantId != "" && |c.serviceToken| >= 32 && c.capabilities != "" && c.homeUrl != ""
  }

  predicate NoContext(c: Claims) {
    c.grantId == "" && c.serviceToken == "" && c.capabilities == "" && c.homeUrl == ""
  }

  predicate Fresh(c: Claims, now: int) {
    c.nonce != "" && now < c.expires && c.issued <= now + 30 && c.issued < c.expires <= c.issued + 900
  }

  function Verified(x: Local, key: string, token: string, issuer: string, now: int): Option<Claims> {
    match x.open(key, token)
    case None => None
    case Some((version, c)) =>
      if c.audience == x.grid && (issuer == "" || c.issuer == issuer) && Fresh(c, now) &&
         (version == 1 || (version == 2 && (NoContext(c) || CompleteContext(c)))) then Some(c)
      else None
  }

  // The claims of a token issued now, for a clamped lifetime.
  function Stamped(c: Claims, lifetime: int, nonce: string, now: int): Claims {
    c.(issued := now, expires := now + Lifetime(lifetime), nonce := if c.nonce == "" then nonce else c.nonce)
  }

  // An issued token passes the freshness checks of the accepting grid from 30 seconds before it was
  // issued, on that grid's clock, until it expires, and at no other time.
  lemma IssuedIsFresh(c: Claims, lifetime: int, nonce: string, now: int, there: int)
    requires nonce != ""
    ensures var t := Stamped(c, lifetime, nonce, now); Fresh(t, there) <==> now - 30 <= there < t.expires
  {
  }

  // ---------- operations ----------

  // Claims whose nonce this request would use up.
  function Consumes(g: Grid, x: Local, issuer: string, token: string, now: int): Option<Claims> {
    if !Trusted(g.peers, issuer) then None
    else
      match Verified(x, g.peers[issuer].key, token, issuer, now)
      case None => None
      case Some(c) => if Consumable(g.consumed, c.nonce, c.expires) then Some(c) else None
  }

  function AcceptRefusal(g: Grid, x: Local, issuer: string, token: string, now: int): string {
    if !Trusted(g.peers, issuer) then "issuer-grid-not-trusted"
    else
      match Verified(x, g.peers[issuer].key, token, issuer, now)
      case None => "invalid-travel-token"
      case Some(c) =>
        if !Consumable(g.consumed, c.nonce, c.expires) then "travel-token-replayed"
        else if !ValidSession(c, now) then "foreign-session-create-failed" else ""
  }

  function Accepted(g: Grid, x: Local, issuer: string, token: string, id: string, now: int): Grid {
    match Consumes(g, x, issuer, token, now)
    case None => g
    case Some(c) =>
      var spent := g.(consumed := g.consumed[c.nonce := c.expires]);
      if ValidSession(c, now) then spent.(sessions := Created(g.sessions, id, c, now)) else spent
  }

  datatype Request = Request(
    subject: string, displayName: string, audience: string, origin: string, destination: string,
    capabilities: string, lifetime: int)

  predicate CompleteRequest(r: Request) {
    r.subject != "" && r.displayName != "" && r.audience != "" && r.destination != "" && r.capabilities != ""
  }

  // The token can be completed and signed.
  predicate Signable(x: Local, token: string, signs: bool) {
    signs && x.grid != "" && x.baseUrl != "" && |token| >= 32
  }

  function IssueRefusal(g: Grid, x: Local, r: Request, token: string, signs: bool): string {
    if !CompleteRequest(r) then "invalid-travel-request"
    else if !Trusted(g.peers, r.audience) then "destination-grid-not-trusted"
    else if !ValidGrant(r.audience, r.subject, r.capabilities) || !Signable(x, token, signs) then "travel-token-issue-failed"
    else ""
  }

  // A grant is issued first; it is revoked again when the token cannot be made.
  function Issued(g: Grid, x: Local, r: Request, id: string, token: string, signs: bool, now: int): Grid {
    if !CompleteRequest(r) || !Trusted(g.peers, r.audience) || !ValidGrant(r.audience, r.subject, r.capabilities) then g
    else
      var grant := GrantFor(x, r, token, now);
      g.(grants := g.grants[id := if Signable(x, token, signs) then grant else RevokedGrant(grant, now)])
  }

  function GrantFor(x: Local, r: Request, token: string, now: int): Grant {
    Grant(r.audience, r.subject, x.hash(token), r.capabilities, now, now + Lifetime(r.lifetime), false, 0)
  }

  function PeerRefusal(g: Grid, x: Local, grid: string, baseUrl: string, key: string): string {
    if grid == x.grid then "cannot-trust-self" else TrustRefusal(g.peers, grid, baseUrl, key)
  }

  function PeerTrusted(g: Grid, x: Local, grid: string, baseUrl: string, key: string, now: int): Grid {
    if PeerRefusal(g, x, grid, baseUrl, key) == "" then
      g.(peers := g.peers[grid := Peer(baseUrl, key, true, false, now)])
    else g
  }

  function PeerRevoked(g: Grid, grid: string, now: int): Grid {
    if grid !in g.peers then g
    else
      g.(peers := Revoked(g.peers, grid, now), grants := AudienceRevoked(g.grants, grid, now),
         sessions := IssuerLoggedOut(g.sessions, grid, now))
  }

  function SessionLoggedOut(g: Grid, id: string, now: int): Grid {
    if id in g.sessions && g.sessions[id].state.Active? then
      g.(sessions := g.sessions[id := g.sessions[id].(state := LoggedOut, ended := now)])
    else g
  }

  function GrantRevoked(g: Grid, id: string, now: int): Grid {
    if id in g.grants then g.(grants := g.grants[id := RevokedGrant(g.grants[id], now)]) else g
  }

  function Swept(g: Grid, now: int): Grid {
    g.(consumed := NoncesPurged(g.consumed, now), sessions := SessionsLapsed(g.sessions, now),
       grants := GrantsPurged(g.grants, now))
  }

  predicate RemoteAuthorized(
    g: Grid, x: Local, id: string, token: string, audience: string, subject: string, capability: string, now: int)
  {
    Trusted(g.peers, audience) && Granted(g.grants, id, token, audience, subject, capability, now, x.hash)
  }

  // ---------- the invariant over the four stores ----------

  ghost predicate NamedPeers(g: Grid) { "" !in g.peers }

  ghost predicate SessionsTrusted(g: Grid) {
    forall id :: id in g.sessions && g.sessions[id].state.Active? ==> Trusted(g.peers, g.sessions[id].claims.issuer)
  }

  ghost predicate GrantsTrusted(g: Grid) {
    forall id :: id in g.grants && !g.grants[id].revoked ==> Trusted(g.peers, g.grants[id].audience)
  }

  // At most one active session for each visit.
  ghost predicate OneVisit(sessions: Sessions) {
    forall i, j ::
      i in sessions && j in sessions && i != j && sessions[i].state.Active? && sessions[j].state.Active? ==>
      !SameVisit(sessions[i], sessions[j].claims)
  }

  ghost predicate Sound(g: Grid) { NamedPeers(g) && SessionsTrusted(g) && GrantsTrusted(g) && OneVisit(g.sessions) }

  lemma CreatedKeeps(sessions: Sessions, id: string, c: Claims, now: int)
    requires OneVisit(sessions) && id !in sessions
    ensures OneVisit(Created(sessions, id, c, now))
  {
  }

  lemma AcceptedKeeps(g: Grid, x: Local, issuer: string, token: string, id: string, now: int)
    requires Sound(g) && id !in g.sessions
    ensures Sound(Accepted(g, x, issuer, token, id, now))
  {
    var claims := Consumes(g, x, issuer, token, now);
    if claims.Some? {
      CreatedKeeps(g.sessions, id, claims.value, now);
    }
  }

  lemma IssuedKeeps(g: Grid, x: Local, r: Request, id: string, token: string, signs: bool, now: int)
    requires Sound(g)
    ensures Sound(Issued(g, x, r, id, token, signs, now))
  {
  }

  lemma PeerTrustedKeeps(g: Grid, x: Local, grid: string, baseUrl: string, key: string, now: int)
    requires Sound(g)
    ensures Sound(PeerTrusted(g, x, grid, baseUrl, key, now))
  {
  }

  lemma PeerRevokedKeeps(g: Grid, grid: string, now: int)
    requires Sound(g)
    ensures Sound(PeerRevoked(g, grid, now))
  {
  }

  lemma SessionLoggedOutKeeps(g: Grid, id: string, now: int)
    requires Sound(g)
    ensures Sound(SessionLoggedOut(g, id, now))
  {
  }

  lemma GrantRevokedKeeps(g: Grid, id: string, now: int)
    requires Sound(g)
    ensures Sound(GrantRevoked(g, id, now))
  {
  }

  lemma SweptKeeps(g: Grid, now: int)
    requires Sound(g)
    ensures Sound(Swept(g, now))
  {
  }

  // ---------- runs ----------

  // What a service token was issued for.
  datatype Promise = Promise(audience: string, subject: string, capabilities: string, token: string, expires: int)

  // The stores, the clock, the claims whose nonce has been used up, and the grants ever issued.
  datatype History = History(grid: Grid, clock: int, spent: set<Claims>, promises: map<string, Promise>)

  ghost predicate Accepts(h: History, k: History, x: Local, issuer: string, token: string, id: string) {
    && id !in h.grid.sessions && k.grid == Accepted(h.grid, x, issuer, token, id, k.clock) && k.promises == h.promises
    && k.spent == match Consumes(h.grid, x, issuer, token, k.clock) { case Some(c) => h.spent + {c} case None => h.spent }
  }

  ghost predicate Issues(h: History, k: History, x: Local, r: Request, id: string, token: string, signs: bool) {
    && id !in h.promises && k.grid == Issued(h.grid, x, r, id, token, signs, k.clock) && k.spent == h.spent
    && k.promises == h.promises[
         id := Promise(r.audience, r.subject, r.capabilities, token, k.clock + Lifetime(r.lifetime))]
  }

  // Operations that neither accept nor issue.
  ghost predicate Manages(h: History, k: History, x: Local) {
    && k.spent == h.spent && k.promises == h.promises
    && (|| (exists grid, baseUrl, key :: k.grid == PeerTrusted(h.grid, x, grid, baseUrl, key, k.clock))
        || (exists grid :: k.grid == PeerRevoked(h.grid, grid, k.clock))
        || (exists id :: k.grid == SessionLoggedOut(h.grid, id, k.clock))
        || (exists id :: k.grid == GrantRevoked(h.grid, id, k.clock))
        || k.grid == Swept(h.grid, k.clock))
  }

  // One operation at a time, on a clock that does not run backwards.
  ghost predicate Operation(h: History, k: History, x: Local) {
    && h.clock <= k.clock
    && (|| (exists issuer, token, id :: Accepts(h, k, x, issuer, token, id))
        || (exists r, id, token, signs :: Issues(h, k, x, r, id, token, signs))
        || Manages(h, k, x))
  }

  // A used nonce is remembered at least until its token has expired.
  ghost predicate Remembered(h: History) {
    forall c :: c in h.spent ==> c.expires <= h.clock || (c.nonce in h.grid.consumed && h.grid.consumed[c.nonce] == c.expires)
  }

  // A grant says what was promised, or has been revoked.
  predicate Promised(g: Grant, p: Promise, hash: string -> string) {
    g.audience == p.audience && g.subject == p.subject && g.capabilities == p.capabilities &&
    g.tokenHash == hash(p.token) && g.expires == p.expires
  }

  ghost predicate AllPromised(h: History, x: Local) {
    forall id :: id in h.grid.grants ==> id in h.promises && Promised(h.grid.grants[id], h.promises[id], x.hash)
  }

  ghost predicate Good(h: History, x: Local) { Sound(h.grid) && Remembered(h) && AllPromised(h, x) }

  lemma AcceptsKeeps(h: History, k: History, x: Local, issuer: string, token: string, id: string)
    requires Good(h, x) && h.clock <= k.clock && Accepts(h, k, x, issuer, token, id)
    ensures Good(k, x)
  {
    AcceptedKeeps(h.grid, x, issuer, token, id, k.clock);
    AcceptsRemembers(h, k, x, issuer, token, id);
  }

  lemma AcceptsRemembers(h: History, k: History, x: Local, issuer: string, token: string, id: string)
    requires Remembered(h) && h.clock <= k.clock && Accepts(h, k, x, issuer, token, id)
    ensures Remembered(k)
  {
  }

  lemma IssuesKeeps(h: History, k: History, x: Local, r: Request, id: string, token: string, signs: bool)
    requires Good(h, x) && h.clock <= k.clock && Issues(h, k, x, r, id, token, signs)
    ensures Good(k, x)
  {
    IssuedKeeps(h.grid, x, r, id, token, signs, k.clock);
  }

  lemma ManagesSound(h: History, k: History, x: Local)
    requires Sound(h.grid) && Manages(h, k, x)
    ensures Sound(k.grid)
  {
    if grid, baseUrl, key :| k.grid == PeerTrusted(h.grid, x, grid, baseUrl, key, k.clock) {
      PeerTrustedKeeps(h.grid, x, grid, baseUrl, key, k.clock);
    } else if grid :| k.grid == PeerRevoked(h.grid, grid, k.clock) {
      PeerRevokedKeeps(h.grid, grid, k.clock);
    } else if id :| k.grid == SessionLoggedOut(h.grid, id, k.clock) {
      SessionLoggedOutKeeps(h.grid, id, k.clock);
    } else if id :| k.grid == GrantRevoked(h.grid, id, k.clock) {
      GrantRevokedKeeps(h.grid, id, k.clock);
    } else {
      SweptKeeps(h.grid, k.clock);
    }
  }

  // Grants only go, or become revoked.
  ghost predicate Dwindled(grants: Grants, after: Grants) {
    forall id :: id in after ==> id in grants && (after[id] == grants[id] || exists now :: after[id] == RevokedGrant(grants[id], now))
  }

  lemma RevokedDwindle(grants: Grants, id: string, audience: string, now: int)
    ensures id in grants ==> Dwindled(grants, grants[id := RevokedGrant(grants[id], now)])
    ensures Dwindled(grants, AudienceRevoked(grants, audience, now)) && Dwindled(grants, GrantsPurged(grants, now))
  {
  }

  // Management forgets nonces only when they have expired, and never turns a grant into another one.
  lemma ManagesForgets(h: History, k: History, x: Local)
    requires Manages(h, k, x)
    ensures k.grid.consumed == h.grid.consumed || k.grid.consumed == NoncesPurged(h.grid.consumed, k.clock)
    ensures Dwindled(h.grid.grants, k.grid.grants)
  {
    if grid, baseUrl, key :| k.grid == PeerTrusted(h.grid, x, grid, baseUrl, key, k.clock) {
    } else if grid :| k.grid == PeerRevoked(h.grid, grid, k.clock) {
      RevokedDwindle(h.grid.grants, "", grid, k.clock);
    } else if id :| k.grid == SessionLoggedOut(h.grid, id, k.clock) {
    } else if id :| k.grid == GrantRevoked(h.grid, id, k.clock) {
      RevokedDwindle(h.grid.grants, id, "", k.clock);
    } else {
      RevokedDwindle(h.grid.grants, "", "", k.clock);
    }
  }

  lemma OperationKeeps(h: History, k: History, x: Local)
    requires Good(h, x) && Operation(h, k, x)
    ensures Good(k, x)
  {
    if issuer, token, id :| Accepts(h, k, x, issuer, token, id) {
      AcceptsKeeps(h, k, x, issuer, token, id);
    } else if r, id, token, signs :| Issues(h, k, x, r, id, token, signs) {
      IssuesKeeps(h, k, x, r, id, token, signs);
    } else {
      ManagesSound(h, k, x);
      ManagesForgets(h, k, x);
    }
  }

  ghost function Operating(x: Local): (History, History) -> bool { (h: History, k: History) => Operation(h, k, x) }

  const NOTHING: Grid := Grid(map[], map[], map[], map[])

  // In every reachable state the stores agree: each active session's issuer and each live grant's
  // audience is trusted, and a visit has at most one active session.
  lemma RunGood(x: Local, clock: int, h: History)
    requires Reaches(Operating(x), History(NOTHING, clock, {}, map[]), h)
    ensures Good(h, x)
  {
    var start := History(NOTHING, clock, {}, map[]);
    var n: nat :| Path(Operating(x), start, h, n);
    var good := (k: History) => Good(k, x);
    forall a, b | good(a) && Operating(x)(a, b) ensures good(b) {
      OperationKeeps(a, b, x);
    }
    PathKeeps(Operating(x), good, start, h, n);
  }

  // No travel token is accepted twice: what is accepted now has never been accepted before.
  lemma AcceptedOnce(x: Local, clock: int, h: History, k: History, issuer: string, token: string, id: string)
    requires Reaches(Operating(x), History(NOTHING, clock, {}, map[]), h)
    requires h.clock <= k.clock && Accepts(h, k, x, issuer, token, id)
    requires AcceptRefusal(h.grid, x, issuer, token, k.clock) == ""
    ensures var c := Consumes(h.grid, x, issuer, token, k.clock); c.Some? && c.value !in h.spent && c.value in k.spent
  {
    RunGood(x, clock, h);
  }

  predicate Pinned(g: Grid, k: Grid, grid: string) {
    Trusted(g.peers, grid) ==> Trusted(k.peers, grid) && k.peers[grid].key == g.peers[grid].key
  }

  lemma PeerTrustedPins(g: Grid, x: Local, other: string, baseUrl: string, key: string, now: int, grid: string)
    ensures Pinned(g, PeerTrusted(g, x, other, baseUrl, key, now), grid)
  {
  }

  lemma PeerRevokedPins(g: Grid, other: string, now: int, grid: string)
    ensures other != grid ==> Pinned(g, PeerRevoked(g, other, now), grid)
  {
  }

  lemma ManagesPinned(h: History, k: History, x: Local, grid: string)
    requires Manages(h, k, x)
    ensures k.grid == PeerRevoked(h.grid, grid, k.clock) || Pinned(h.grid, k.grid, grid)
  {
    if other, baseUrl, key :| k.grid == PeerTrusted(h.grid, x, other, baseUrl, key, k.clock) {
      PeerTrustedPins(h.grid, x, other, baseUrl, key, k.clock, grid);
    } else if other :| k.grid == PeerRevoked(h.grid, other, k.clock) {
      PeerRevokedPins(h.grid, other, k.clock, grid);
    } else if id :| k.grid == SessionLoggedOut(h.grid, id, k.clock) {
    } else if id :| k.grid == GrantRevoked(h.grid, id, k.clock) {
    } else {
    }
  }

  // A trusted peer keeps its key in every operation but its own revocation.
  lemma KeyPinned(h: History, k: History, x: Local, grid: string)
    requires Operation(h, k, x)
    ensures k.grid == PeerRevoked(h.grid, grid, k.clock) || Pinned(h.grid, k.grid, grid)
  {
    if issuer, token, id :| Accepts(h, k, x, issuer, token, id) {
    } else if r, id, token, signs :| Issues(h, k, x, r, id, token, signs) {
    } else {
      ManagesPinned(h, k, x, grid);
    }
  }

  // A remote service call is let through only for a grant issued by this grid to that audience for that
  // user and capability, with that very token, which is neither expired nor revoked, while the audience
  // is trusted.
  lemma AuthorizedMeans(
    x: Local, clock: int, h: History, id: string, token: string, audience: string, subject: string, capability: string,
    now: int)
    requires Reaches(Operating(x), History(NOTHING, clock, {}, map[]), h)
    requires forall s, t :: x.hash(s) == x.hash(t) ==> s == t
    ensures RemoteAuthorized(h.grid, x, id, token, audience, subject, capability, now) <==>
      && id != "" && token != "" && audience != "" && subject != ""
      && id in h.grid.grants && !h.grid.grants[id].revoked && id in h.promises
      && h.promises[id].audience == audience && h.promises[id].subject == subject && h.promises[id].token == token
      && HasCapability(h.promises[id].capabilities, capability) && now < h.promises[id].expires
  {
    RunGood(x, clock, h);
  }

  // ---------- the runtime ----------

  class FederationRuntime {
    const local: Local
    const trust: TrustStore
    const sessions: SessionStore
    const grants: GrantStore
    const replay: ReplayCache

    constructor (local: Local, trust: TrustStore, sessions: SessionStore, grants: GrantStore, replay: ReplayCache)
      ensures this.local == local && this.trust == trust && this.sessions == sessions
      ensures this.grants == grants && this.replay == replay
    {
      this.local, this.trust, this.sessions, this.grants, this.replay := local, trust, sessions, grants, replay;
    }

    function State(): Grid
      reads trust, sessions, grants, replay
    {
      Grid(trust.peers, sessions.sessions, grants.grants, replay.consumed)
    }

    // `id` is the session store's own random id.
    method AcceptTravel(issuer: string, token: string, id: string, now: int) returns (reason: string)
      modifies sessions, replay
      ensures reason == AcceptRefusal(old(State()), local, issuer, token, now)
      ensures State() == Accepted(old(State()), local, issuer, token, id, now)
    {
      if !Trusted(trust.peers, issuer) {
        return "issuer-grid-not-trusted";
      }
      var claims := Verified(local, trust.peers[issuer].key, token, issuer, now);
      if claims.None? {
        return "invalid-travel-token";
      }
      var first := replay.Consume(claims.value.nonce, claims.value.expires);
      if !first {
        return "travel-token-replayed";
      }
      var created := sessions.Create(id, claims.value, now);
      reason := if created then "" else "foreign-session-create-failed";
    }

    // `id` and `token` are the grant store's own random texts; `signs` says whether signing succeeds.
    method IssueTravel(r: Request, id: string, token: string, signs: bool, now: int) returns (reason: string)
      requires grants.hash == local.hash
      modifies grants`grants
      ensures reason == IssueRefusal(old(State()), local, r, token, signs)
      ensures State() == Issued(old(State()), local, r, id, token, signs, now)
    {
      if !CompleteRequest(r) {
        return "invalid-travel-request";
      }
      if !Trusted(trust.peers, r.audience) {
        return "destination-grid-not-trusted";
      }
      var issued := grants.Issue(id, token, r.audience, r.subject, r.lifetime, r.capabilities, now);
      if !issued {
        return "travel-token-issue-failed";
      }
      if !Signable(local, token, signs) {
        var revoked := grants.Revoke(id, now);
        return "travel-token-issue-failed";
      }
      reason := "";
    }

    method TrustPeer(grid: string, baseUrl: string, key: string, now: int) returns (reason: string)
      modifies trust
      ensures reason == PeerRefusal(old(State()), local, grid, baseUrl, key)
      ensures State() == PeerTrusted(old(State()), local, grid, baseUrl, key, now)
    {
      if grid == local.grid {
        return "cannot-trust-self";
      }
      reason := trust.Trust(grid, baseUrl, key, now);
    }

    // Revoking a peer ends what its trust allowed: grants for it and sessions from it.
    method RevokePeer(grid: string, now: int) returns (known: bool)
      modifies trust, grants`grants, sessions
      ensures known == (grid in old(trust.peers)) && State() == PeerRevoked(old(State()), grid, now)
    {
      known := trust.Revoke(grid, now);
      if known {
        grants.RevokeAudience(grid, now);
        sessions.LogoutIssuer(grid, now);
      }
    }

    method LogoutSession(id: string, now: int) returns (ok: bool)
      modifies sessions
      ensures State() == SessionLoggedOut(old(State()), id, now)
    {
      ok := sessions.Logout(id, now);
    }

    method RevokeServiceGrant(id: string, now: int) returns (ok: bool)
      modifies grants`grants
      ensures State() == GrantRevoked(old(State()), id, now)
    {
      ok := grants.Revoke(id, now);
      assert !ok && id in grants.grants ==> grants.grants[id := RevokedGrant(grants.grants[id], now)] == grants.grants;
    }

    method AuthorizeRemoteService(
      id: string, token: string, audience: string, subject: string, capability: string, now: int)
      returns (ok: bool)
      requires grants.hash == local.hash
      ensures ok == RemoteAuthorized(State(), local, id, token, audience, subject, capability, now)
    {
      if !Trusted(trust.peers, audience) {
        return false;
      }
      ok := grants.Authorize(id, token, audience, subject, capability, now);
    }

    method Maintenance(now: int)
      modifies replay, sessions, grants`grants
      ensures State() == Swept(old(State()), now)
    {
      replay.PurgeExpired(now);
      sessions.PurgeExpired(now);
      grants.PurgeExpired(now);
    }
  }
}
