// What federation lets through, written out on tokens, grants and sessions: which travel tokens a grid
// accepts, what an acceptance, an issue or a revocation changes, and when things lapse.

module FederationLaws {
  import opened Basics
  import opened Text
  import opened FederationStores
  import opened Federation

  // ---------- accepting travel ----------

  // A peer whose key is good.
  predicate Friend(g: Grid, grid: string) { grid in g.peers && g.peers[grid].trusted && !g.peers[grid].revoked }

  // What becomes of a session: an active one that is concerned ends, any other stays.
  predicate EndsIf(s: Session, t: Session, concerned: bool, state: SessionState, now: int) {
    t == if concerned && s.state == Active then Session(s.claims, state, s.created, now) else s
  }

  // What becomes of a grant.
  predicate RevokedIf(a: Grant, b: Grant, concerned: bool, now: int) {
    b == if concerned && !a.revoked then
      Grant(a.audience, a.subject, a.tokenHash, a.capabilities, a.created, a.expires, true, now) else a
  }

  // A grant that is kept: in time, and not revoked for a day.
  predicate StaysGranted(a: Grant, now: int) {
    now < a.expires && (!a.revoked || a.revokedAt <= 0 || now < a.revokedAt + 24 * 60 * 60)
  }

  // A token that this grid may take from that one: meant for this grid, made by that one, with a nonce, valid
  // now and for at most a quarter of an hour, and with all of a service context or none.
  predicate Meant(x: Local, issuer: string, version: int, c: Claims, now: int) {
    && c.audience == x.grid && (issuer == "" || c.issuer == issuer) && c.nonce != ""
    && c.issued - 30 <= now < c.expires && 1 <= c.expires - c.issued <= 900
    && (version == 1 || (version == 2 &&
         ((c.homeUrl == "" && c.grantId == "" && c.serviceToken == "" && c.capabilities == "") ||
          (c.homeUrl != "" && c.grantId != "" && |c.serviceToken| >= 32 && c.capabilities != ""))))
  }

  // A visit that can be entered in the sessions.
  predicate Visits(c: Claims) { c.issuer != "" && c.subject != "" && c.destination != "" && c.sessionId != "" }

  // A travel token is accepted exactly when its issuer is a friend, its seal opens with that friend's key,
  // it is meant for this grid, its nonce has not been used, and its visit can be entered.
  lemma AcceptedExactly(g: Grid, x: Local, issuer: string, token: string, now: int)
    ensures AcceptRefusal(g, x, issuer, token, now) == "" <==>
      && Friend(g, issuer)
      && match x.open(g.peers[issuer].key, token) {
           case None => false
           case Some((version, c)) => Meant(x, issuer, version, c, now) && c.nonce !in g.consumed && c.expires > 0 && Visits(c)
         }
  {
  }

  // In particular a token for another grid is refused, whatever else it says, and nothing is changed.
  lemma OtherAudience(g: Grid, x: Local, issuer: string, token: string, id: string, now: int, version: int, c: Claims)
    requires Friend(g, issuer) && x.open(g.peers[issuer].key, token) == Some((version, c)) && c.audience != x.grid
    ensures AcceptRefusal(g, x, issuer, token, now) == "invalid-travel-token" && Accepted(g, x, issuer, token, id, now) == g
  {
  }

  // A friend's token is refused at every grid but the one it is meant for.
  lemma OneDestination(g: Grid, x: Local, h: Grid, y: Local, issuer: string, token: string, now: int, there: int)
    requires AcceptRefusal(g, x, issuer, token, now) == "" && y.grid != x.grid
    requires Friend(h, issuer) && h.peers[issuer].key == g.peers[issuer].key && y.open == x.open
    ensures AcceptRefusal(h, y, issuer, token, there) == "invalid-travel-token"
  {
  }

  // An acceptance uses the nonce up, ends an earlier session of the same visit, and opens one; it changes
  // nothing else.
  lemma AcceptanceMeans(g: Grid, x: Local, issuer: string, token: string, id: string, now: int)
    requires AcceptRefusal(g, x, issuer, token, now) == "" && id !in g.sessions
    ensures x.open(g.peers[issuer].key, token).Some?
    ensures var h, c := Accepted(g, x, issuer, token, id, now), x.open(g.peers[issuer].key, token).value.1;
      && h.peers == g.peers && h.grants == g.grants && h.consumed == g.consumed[c.nonce := c.expires]
      && h.sessions.Keys == g.sessions.Keys + {id} && h.sessions[id] == Session(c, Active, now, 0)
      && forall k :: k in g.sessions ==>
           var s := g.sessions[k];
           EndsIf(s, h.sessions[k], s.claims.issuer == c.issuer && s.claims.sessionId == c.sessionId, LoggedOut, now)
  {
  }

  // A refusal changes nothing, but that a token good for everything except its visit has used its nonce up.
  lemma RefusalMeans(g: Grid, x: Local, issuer: string, token: string, id: string, now: int)
    requires AcceptRefusal(g, x, issuer, token, now) != ""
    ensures AcceptRefusal(g, x, issuer, token, now) != "foreign-session-create-failed" ==>
      Accepted(g, x, issuer, token, id, now) == g
    ensures AcceptRefusal(g, x, issuer, token, now) == "foreign-session-create-failed" ==>
      exists c: Claims :: !Visits(c) && Accepted(g, x, issuer, token, id, now) == g.(consumed := g.consumed[c.nonce := c.expires])
  {
    if AcceptRefusal(g, x, issuer, token, now) == "foreign-session-create-failed" {
      var c := Verified(x, g.peers[issuer].key, token, issuer, now).value;
      assert !Visits(c) && Accepted(g, x, issuer, token, id, now) == g.(consumed := g.consumed[c.nonce := c.expires]);
    }
  }

  // From one grid to another: claims stamped at home are accepted there exactly in their time, with an unused
  // nonce, and at the grid they name.
  lemma TravelExactly(
    g: Grid, x: Local, home: string, token: string, claims: Claims, lifetime: int, nonce: string, left: int, arrived: int)
    requires Friend(g, home) && nonce != "" && claims.issuer == home && home != "" && Visits(claims)
    requires claims.grantId != "" && |claims.serviceToken| >= 32 && claims.capabilities != "" && claims.homeUrl != ""
    requires x.open(g.peers[home].key, token) == Some((2, Stamped(claims, lifetime, nonce, left))) && left >= 0
    ensures var n := if claims.nonce == "" then nonce else claims.nonce;
      var stay := if lifetime < 30 then 30 else if lifetime > 900 then 900 else lifetime;
      AcceptRefusal(g, x, home, token, arrived) == "" <==>
        claims.audience == x.grid && left - 30 <= arrived < left + stay && n !in g.consumed
  {
  }

  // ---------- issuing and revoking ----------

  // A grant is recorded for its audience, user and capabilities, with the digest of its token, for at least
  // half a minute and at most a quarter of an hour; it is revoked at once when no token can be made.
  lemma IssueMeans(g: Grid, x: Local, r: Request, id: string, token: string, signs: bool, now: int)
    ensures var h, refusal := Issued(g, x, r, id, token, signs, now), IssueRefusal(g, x, r, token, signs);
      && h.peers == g.peers && h.sessions == g.sessions && h.consumed == g.consumed
      && (refusal == "" <==>
            && r.subject != "" && r.displayName != "" && r.audience != "" && r.destination != "" && r.capabilities != ""
            && Friend(g, r.audience) && ValidGrant(r.audience, r.subject, r.capabilities)
            && signs && x.grid != "" && x.baseUrl != "" && |token| >= 32)
      && (refusal == "" ==>
            h.grants == g.grants[id := Grant(r.audience, r.subject, x.hash(token), r.capabilities, now,
                 now + (if r.lifetime < 30 then 30 else if r.lifetime > 900 then 900 else r.lifetime), false, 0)])
      && (refusal != "" ==> h.grants == g.grants || (h.grants == g.grants[id := h.grants[id]] && id in h.grants && h.grants[id].revoked))
  {
  }

  // Revoking a peer revokes every grant for it and logs out every session from it, and those only.
  lemma PeerRevocationMeans(g: Grid, grid: string, now: int)
    requires grid in g.peers
    ensures var h := PeerRevoked(g, grid, now);
      && h.peers == g.peers[grid := Peer(g.peers[grid].baseUrl, g.peers[grid].key, false, true, now)] && h.consumed == g.consumed
      && h.grants.Keys == g.grants.Keys && h.sessions.Keys == g.sessions.Keys
      && (forall id :: id in g.grants ==> RevokedIf(g.grants[id], h.grants[id], g.grants[id].audience == grid, now))
      && forall id :: id in g.sessions ==>
           EndsIf(g.sessions[id], h.sessions[id], g.sessions[id].claims.issuer == grid, LoggedOut, now)
  {
  }

  // One session is ended, or one grant revoked, once, and nothing else is touched.
  lemma EndingMeans(g: Grid, id: string, now: int)
    ensures SessionLoggedOut(g, id, now) ==
      if id in g.sessions && g.sessions[id].state == Active
      then g.(sessions := g.sessions[id := Session(g.sessions[id].claims, LoggedOut, g.sessions[id].created, now)]) else g
    ensures var h := GrantRevoked(g, id, now);
      && h == g.(grants := h.grants) && h.grants.Keys == g.grants.Keys
      && forall k :: k in g.grants ==> RevokedIf(g.grants[k], h.grants[k], k == id, now)
  {
  }

  // A text of at most so many characters, on one line.
  predicate OneLine(text: string, limit: nat) {
    text != "" && |text| <= limit && '\t' !in text && '\r' !in text && '\n' !in text
  }

  predicate Nameable(name: string) {
    name != "" && |name| <= 64 && forall c :: c in name ==> 'a' <= c <= 'z' || '0' <= c <= '9' || c in ".-_"
  }

  lemma OneLineMeans(text: string, limit: nat)
    ensures SafeText(text, limit) <==> OneLine(text, limit)
  {
  }

  lemma NameableMeans(name: string)
    ensures CapabilityName(name) <==> Nameable(name)
  {
    var all := ".-_";
    assert all[0] == '.' && all[1] == '-' && all[2] == '_';
  }

  predicate AllNameable(names: seq<string>) { names == [] || (Nameable(names[0]) && AllNameable(names[1..])) }

  lemma {:induction false} AllNameableMeans(names: seq<string>)
    ensures AllNameable(names) <==> forall i :: 0 <= i < |names| ==> CapabilityName(names[i])
    decreases |names|
  {
    if names != [] {
      NameableMeans(names[0]);
      AllNameableMeans(names[1..]);
      assert names == [names[0]] + names[1..];
    }
  }

  // A grant names its audience and its user on one line each, and a list of capabilities.
  lemma GrantableMeans(audience: string, subject: string, capabilities: string)
    ensures ValidGrant(audience, subject, capabilities) <==>
      OneLine(audience, 256) && OneLine(subject, 256) && OneLine(capabilities, 1024) && AllNameable(Split(capabilities, ','))
  {
    OneLineMeans(audience, 256);
    OneLineMeans(subject, 256);
    OneLineMeans(capabilities, 1024);
    AllNameableMeans(Split(capabilities, ','));
  }

  // A new peer is trusted for a safe name, an https address and a key of 64 hexadecimal digits, unless it is
  // this grid or a trusted peer with another key.
  lemma TrustExactly(g: Grid, x: Local, grid: string, baseUrl: string, key: string, now: int)
    ensures PeerRefusal(g, x, grid, baseUrl, key) == "" <==>
      && grid != x.grid && OneLine(grid, 2048) && OneLine(baseUrl, 2048) && |baseUrl| >= 8 && baseUrl[..8] == "https://"
      && |key| == 64 && (forall i :: 0 <= i < 64 ==> key[i] in "0123456789abcdefABCDEF")
      && (Friend(g, grid) ==> g.peers[grid].key == key)
    ensures PeerTrusted(g, x, grid, baseUrl, key, now) ==
      if PeerRefusal(g, x, grid, baseUrl, key) == "" then g.(peers := g.peers[grid := Peer(baseUrl, key, true, false, now)]) else g
  {
    OneLineMeans(grid, 2048);
    OneLineMeans(baseUrl, 2048);
    HexDigits();
    if |key| == 64 {
      if HexKey(key) {
        forall i | 0 <= i < 64 ensures key[i] in "0123456789abcdefABCDEF" {
          assert key[i] in key;
        }
      }
      if forall i :: 0 <= i < 64 ==> key[i] in "0123456789abcdefABCDEF" {
        forall c | c in key ensures '0' <= c <= '9' || 'a' <= c <= 'f' || 'A' <= c <= 'F' {
          var i :| 0 <= i < 64 && key[i] == c;
        }
      }
    }
  }

  // ---------- time ----------

  // Maintenance forgets a nonce when its token has expired, lapses a session when its token has, and drops a
  // grant when it has expired or has been revoked for a day.
  lemma SweepMeans(g: Grid, now: int)
    ensures var h := Swept(g, now);
      && h.peers == g.peers && h.sessions.Keys == g.sessions.Keys
      && (forall n :: n in h.consumed <==> n in g.consumed && now < g.consumed[n])
      && (forall n :: n in h.consumed ==> h.consumed[n] == g.consumed[n])
      && (forall id :: id in g.sessions ==>
            EndsIf(g.sessions[id], h.sessions[id], g.sessions[id].claims.expires <= now, Lapsed, now))
      && (forall id :: id in h.grants <==> id in g.grants && StaysGranted(g.grants[id], now))
      && forall id :: id in h.grants ==> h.grants[id] == g.grants[id]
  {
  }

  // ---------- capabilities ----------

  // A list of one, and a list of several: the capability named is one of the names between the commas.
  lemma Listed(first: string, rest: string, capability: string)
    requires ',' !in first && capability != ""
    ensures HasCapability(first, capability) <==> first == capability
    ensures HasCapability(first + "," + rest, capability) <==> first == capability || HasCapability(rest, capability)
  {
    SplitMeans(first, ',', rest);
  }
}
