// The four stores behind federation: trusted peers, foreign sessions, service grants and consumed
// travel nonces.

module FederationStores {
  import opened Basics
  import opened Text

  predicate SafeText(text: string, limit: nat) {
    0 < |text| <= limit && forall c :: c in text ==> c != '\t' && c != '\r' && c != '\n'
  }

  // ---------- trusted peers ----------

  datatype Peer = Peer(baseUrl: string, key: string, trusted: bool, revoked: bool, updated: int)

  type Peers = map<string, Peer>

  predicate Trusted(peers: Peers, grid: string) {
    grid in peers && peers[grid].trusted && !peers[grid].revoked
  }

  predicate HexKey(key: string) {
    |key| == 64 && forall c :: c in key ==> '0' <= c <= '9' || 'a' <= c <= 'f' || 'A' <= c <= 'F'
  }

  predicate ValidPeer(grid: string, baseUrl: string, key: string) {
    SafeText(grid, 2048) && SafeText(baseUrl, 2048) && "https://" <= baseUrl && HexKey(key)
  }

  function TrustRefusal(peers: Peers, grid: string, baseUrl: string, key: string): string {
    if !ValidPeer(grid, baseUrl, key) then "invalid-federation-peer"
    else if Trusted(peers, grid) && peers[grid].key != key then "federation-peer-key-change-requires-revocation"
    else ""
  }

  function Revoked(peers: Peers, grid: string, now: int): Peers {
    if grid in peers then peers[grid := peers[grid].(trusted := false, revoked := true, updated := now)] else peers
  }

  class TrustStore {
    var peers: Peers

    constructor ()
      ensures peers == map[]
    {
      peers := map[];
    }

    method Trust(grid: string, baseUrl: string, key: string, now: int) returns (reason: string)
      modifies this
      ensures reason == TrustRefusal(old(peers), grid, baseUrl, key)
      ensures peers == if reason == "" then old(peers)[grid := Peer(baseUrl, key, true, false, now)] else old(peers)
    {
      if !ValidPeer(grid, baseUrl, key) {
        return "invalid-federation-peer";
      }
      if Trusted(peers, grid) && peers[grid].key != key {
        return "federation-peer-key-change-requires-revocation";
      }
      peers := peers[grid := Peer(baseUrl, key, true, false, now)];
      reason := "";
    }

    method Revoke(grid: string, now: int) returns (known: bool)
      modifies this
      ensures known == (grid in old(peers)) && peers == Revoked(old(peers), grid, now)
    {
      if grid !in peers {
        return false;
      }
      peers := peers[grid := peers[grid].(trusted := false, revoked := true, updated := now)];
      known := true;
    }
  }

  // ---------- foreign sessions ----------

  datatype Claims = Claims(
    issuer: string, audience: string, subject: string, displayName: string, origin: string, destination: string,
    sessionId: string, homeUrl: string, grantId: string, serviceToken: string, capabilities: string,
    nonce: string, issued: int, expires: int)

  datatype SessionState = Active | LoggedOut | Lapsed

  datatype Session = Session(claims: Claims, state: SessionState, created: int, ended: int)

  type Sessions = map<string, Session>

  predicate ValidSession(c: Claims, now: int) {
    c.issuer != "" && c.subject != "" && c.destination != "" && c.sessionId != "" && c.expires > now
  }

  function Ended(s: Session, over: bool, state: SessionState, now: int): Session {
    if s.state.Active? && over then s.(state := state, ended := now) else s
  }

  predicate SameVisit(s: Session, c: Claims) { s.claims.issuer == c.issuer && s.claims.sessionId == c.sessionId }

  function Created(sessions: Sessions, id: string, c: Claims, now: int): Sessions {
    (map k | k in sessions :: Ended(sessions[k], SameVisit(sessions[k], c), LoggedOut, now))[
      id := Session(c, Active, now, 0)]
  }

  function IssuerLoggedOut(sessions: Sessions, issuer: string, now: int): Sessions {
    map k | k in sessions :: Ended(sessions[k], sessions[k].claims.issuer == issuer, LoggedOut, now)
  }

  function SessionsLapsed(sessions: Sessions, now: int): Sessions {
    map k | k in sessions :: Ended(sessions[k], sessions[k].claims.expires <= now, Lapsed, now)
  }

  class SessionStore {
    var sessions: Sessions

    constructor ()
      ensures sessions == map[]
    {
      sessions := map[];
    }

    // `id` is the store's own random id. A visit that is already active is logged out first.
    method Create(id: string, c: Claims, now: int) returns (ok: bool)
      modifies this
      ensures ok == ValidSession(c, now)
      ensures sessions == if ok then Created(old(sessions), id, c, now) else old(sessions)
    {
      if !ValidSession(c, now) {
        return false;
      }
      EndAll((s: Session) => SameVisit(s, c), LoggedOut, now);
      sessions := sessions[id := Session(c, Active, now, 0)];
      ok := true;
    }

    method EndAll(over: Session -> bool, state: SessionState, now: int)
      modifies this
      ensures sessions == map k | k in old(sessions) :: Ended(old(sessions)[k], over(old(sessions)[k]), state, now)
    {
      var rest := sessions.Keys;
      while rest != {}
        invariant rest <= sessions.Keys == old(sessions).Keys
        invariant forall k :: k in sessions ==>
          sessions[k] == if k in rest then old(sessions)[k] else Ended(old(sessions)[k], over(old(sessions)[k]), state, now)
        decreases |rest|
      {
        var k :| k in rest;
        sessions := sessions[k := Ended(sessions[k], over(sessions[k]), state, now)];
        rest := rest - {k};
      }
    }

    method Logout(id: string, now: int) returns (ok: bool)
      modifies this
      ensures ok == (id in old(sessions) && old(sessions)[id].state.Active?)
      ensures sessions == if ok then old(sessions)[id := old(sessions)[id].(state := LoggedOut, ended := now)] else old(sessions)
    {
      if id !in sessions || !sessions[id].state.Active? {
        return false;
      }
      sessions := sessions[id := sessions[id].(state := LoggedOut, ended := now)];
      ok := true;
    }

    method LogoutIssuer(issuer: string, now: int)
      modifies this
      ensures sessions == IssuerLoggedOut(old(sessions), issuer, now)
    {
      EndAll((s: Session) => s.claims.issuer == issuer, LoggedOut, now);
    }

    method PurgeExpired(now: int)
      modifies this
      ensures sessions == SessionsLapsed(old(sessions), now)
    {
      EndAll((s: Session) => s.claims.expires <= now, Lapsed, now);
    }
  }

  // ---------- service grants ----------

  datatype Grant = Grant(
    audience: string, subject: string, tokenHash: string, capabilities: string, created: int, expires: int,
    revoked: bool, revokedAt: int)

  type Grants = map<string, Grant>

  predicate CapabilityName(name: string) {
    0 < |name| <= 64 && forall c :: c in name ==> 'a' <= c <= 'z' || '0' <= c <= '9' || c == '.' || c == '-' || c == '_'
  }

  predicate ValidCapabilities(capabilities: string) {
    SafeText(capabilities, 1024) &&
    forall i :: 0 <= i < |Split(capabilities, ',')| ==> CapabilityName(Split(capabilities, ',')[i])
  }

  predicate ValidGrant(audience: string, subject: string, capabilities: string) {
    SafeText(audience, 256) && SafeText(subject, 256) && ValidCapabilities(capabilities)
  }

  function Lifetime(seconds: int): (r: int)
    ensures 30 <= r <= 900 && (30 <= seconds <= 900 ==> r == seconds)
  {
    if seconds < 30 then 30 else if seconds > 900 then 900 else seconds
  }

  predicate HasCapability(capabilities: string, capability: string) {
    capability != "" && capability in Split(capabilities, ',')
  }

  method ServiceCapability(capabilities: string, capability: string) returns (found: bool)
    ensures found == HasCapability(capabilities, capability)
  {
    if capability == "" {
      return false;
    }
    var start := 0;
    ghost var fields := Split(capabilities, ',');
    while true
      invariant start <= |capabilities|
      invariant capability in fields <==> capability in Split(capabilities[start..], ',')
      decreases |capabilities| - start
    {
      var rest := capabilities[start..];
      var end := IndexOf(rest, ',');
      if rest[..end] == capability {
        assert rest[..|rest|] == rest;
        return true;
      }
      if end == |rest| {
        assert rest[..end] == rest;
        return false;
      }
      assert rest[end + 1..] == capabilities[start + end + 1..];
      start := start + end + 1;
    }
  }

  function RevokedGrant(g: Grant, now: int): Grant { if g.revoked then g else g.(revoked := true, revokedAt := now) }

  function AudienceRevoked(grants: Grants, audience: string, now: int): Grants {
    map k | k in grants :: if grants[k].audience == audience then RevokedGrant(grants[k], now) else grants[k]
  }

  predicate GrantOver(g: Grant, now: int) {
    g.expires <= now || (g.revoked && g.revokedAt > 0 && g.revokedAt + 86400 <= now)
  }

  function GrantsPurged(grants: Grants, now: int): Grants {
    map k | k in grants && !GrantOver(grants[k], now) :: grants[k]
  }

  // What a presented grant is good for.
  predicate Authorizes(
    g: Grant, token: string, audience: string, subject: string, capability: string, now: int, hash: string -> string)
  {
    && !g.revoked && g.expires > now && g.audience == audience && g.subject == subject
    && HasCapability(g.capabilities, capability) && g.tokenHash == hash(token)
  }

  predicate Granted(
    grants: Grants, id: string, token: string, audience: string, subject: string, capability: string, now: int,
    hash: string -> string)
  {
    && id != "" && token != "" && audience != "" && subject != ""
    && id in grants && Authorizes(grants[id], token, audience, subject, capability, now, hash)
  }

  class GrantStore {
    var grants: Grants
    const hash: string -> string

    constructor (hash: string -> string)
      ensures grants == map[] && this.hash == hash
    {
      grants := map[];
      this.hash := hash;
    }

    // `id` and `token` are the store's own random texts.
    method Issue(id: string, token: string, audience: string, subject: string, lifetime: int, capabilities: string, now: int)
      returns (ok: bool)
      modifies this`grants
      ensures ok == ValidGrant(audience, subject, capabilities)
      ensures grants == if ok
        then old(grants)[id := Grant(audience, subject, hash(token), capabilities, now, now + Lifetime(lifetime), false, 0)]
        else old(grants)
    {
      if !ValidGrant(audience, subject, capabilities) {
        return false;
      }
      grants := grants[
        id := Grant(audience, subject, hash(token), capabilities, now, now + Lifetime(lifetime), false, 0)];
      ok := true;
    }

    method Authorize(id: string, token: string, audience: string, subject: string, capability: string, now: int)
      returns (ok: bool)
      ensures ok == Granted(grants, id, token, audience, subject, capability, now, hash)
    {
      if id == "" || token == "" || audience == "" || subject == "" || capability == "" || id !in grants {
        return false;
      }
      var g := grants[id];
      var capable := ServiceCapability(g.capabilities, capability);
      ok := !g.revoked && g.expires > now && g.audience == audience && g.subject == subject && capable &&
        g.tokenHash == hash(token);
    }

    method Revoke(id: string, now: int) returns (ok: bool)
      modifies this`grants
      ensures ok == (id in old(grants) && !old(grants)[id].revoked)
      ensures grants == if ok then old(grants)[id := RevokedGrant(old(grants)[id], now)] else old(grants)
    {
      if id !in grants || grants[id].revoked {
        return false;
      }
      grants := grants[id := grants[id].(revoked := true, revokedAt := now)];
      ok := true;
    }

    method RevokeAudience(audience: string, now: int)
      modifies this`grants
      ensures grants == AudienceRevoked(old(grants), audience, now)
    {
      var rest := grants.Keys;
      while rest != {}
        invariant rest <= grants.Keys == old(grants).Keys
        invariant forall k :: k in grants ==>
          grants[k] ==
          if k !in rest && old(grants)[k].audience == audience then RevokedGrant(old(grants)[k], now) else old(grants)[k]
        decreases |rest|
      {
        var k :| k in rest;
        if !grants[k].revoked && grants[k].audience == audience {
          grants := grants[k := grants[k].(revoked := true, revokedAt := now)];
        }
        rest := rest - {k};
      }
    }

    method PurgeExpired(now: int)
      modifies this`grants
      ensures grants == GrantsPurged(old(grants), now)
    {
      var rest := grants.Keys;
      while rest != {}
        invariant rest <= grants.Keys <= old(grants).Keys
        invariant forall k :: k in old(grants) ==> (k in grants <==> k in rest || !GrantOver(old(grants)[k], now))
        invariant forall k :: k in grants ==> grants[k] == old(grants)[k]
        decreases |rest|
      {
        var k :| k in rest;
        if GrantOver(grants[k], now) {
          grants := grants - {k};
        }
        rest := rest - {k};
      }
    }
  }

  // ---------- consumed nonces ----------

  type Consumed = map<string, int>

  predicate Consumable(consumed: Consumed, nonce: string, expires: int) {
    nonce != "" && expires > 0 && nonce !in consumed
  }

  function NoncesPurged(consumed: Consumed, now: int): Consumed {
    map n | n in consumed && consumed[n] > now :: consumed[n]
  }

  class ReplayCache {
    var consumed: Consumed

    constructor ()
      ensures consumed == map[]
    {
      consumed := map[];
    }

    method Consume(nonce: string, expires: int) returns (ok: bool)
      modifies this
      ensures ok == Consumable(old(consumed), nonce, expires)
      ensures consumed == if ok then old(consumed)[nonce := expires] else old(consumed)
    {
      if nonce == "" || expires <= 0 || nonce in consumed {
        return false;
      }
      consumed := consumed[nonce := expires];
      ok := true;
    }

    method PurgeExpired(now: int)
      modifies this
      ensures consumed == NoncesPurged(old(consumed), now)
    {
      var rest := consumed.Keys;
      while rest != {}
        invariant rest <= consumed.Keys <= old(consumed).Keys
        invariant forall n :: n in old(consumed) ==> (n in consumed <==> n in rest || old(consumed)[n] > now)
        invariant forall n :: n in consumed ==> consumed[n] == old(consumed)[n]
        decreases |rest|
      {
        var n :| n in rest;
        if consumed[n] <= now {
          consumed := consumed - {n};
        }
        rest := rest - {n};
      }
    }
  }
}
