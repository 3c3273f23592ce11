// The region's side of a crossing: carrying out one command on the linksets of a scene. A command may
// name any member of a linkset; the region finds the linkset through the member's root.

module CrossingRegion {
  import opened Basics
  import opened ObjectCrossingStore
  import opened CrossingProtocol

  // The root that a linked entity hangs on, in its own region. Entity numbers are not given twice, so
  // the table says this of every linkset, whether or not it is in the scene at the moment.
  type Links = map<Key, nat>

  function Root(links: Links, k: Key): Key { if k in links then Key(k.region, links[k]) else k }

  // A command with its source address resolved to the linkset it means.
  function Resolved(links: Links, o: Order): Order { o.(from := Root(links, o.from)) }

  // What the scene decides from contents or a command alone: who owns every member of a linkset or the
  // root of a readable snapshot, whether a linkset can be exported as one, whether a snapshot passes
  // the checks of an import, and the map of entity numbers an import makes.
  datatype Checks = Checks(
    owner: string -> Option<string>, whole: string -> bool, placeable: Order -> bool, entities: Order -> string)

  function Refused(error: string): Report { Report(false, error, "", 0, "") }

  // What is at one root, and the table with something else there.
  function Found<K>(linksets: map<K, string>, k: K): Option<string> { if k in linksets then Some(linksets[k]) else None }

  function Put<K>(linksets: map<K, string>, k: K, contents: Option<string>): map<K, string> {
    match contents case Some(x) => linksets[k := x] case None => linksets - {k}
  }

  // The root of the linkset a command is about.
  function Target(links: Links, o: Order): Key {
    if o.kind.ImportDestination? then o.to else Root(links, Place(o))
  }

  // What a command makes of the contents at its target, and what the region reports. `room` says whether
  // the scene could create the members.
  function Carried(here: Option<string>, e: nat, o: Order, owner: string, checks: Checks, room: bool)
    : (Option<string>, Report)
  {
    match o.kind
    case ExportSource =>
      if here.None? || !checks.whole(here.value) then (here, Refused("source-linkset-not-found"))
      else if checks.owner(here.value) != Some(owner) then (here, Refused("source-object-owner-mismatch"))
      else (here, Report(true, "", here.value, 0, ""))
    case RemoveSource =>
      if here.Some? && checks.owner(here.value) != Some(owner) then (here, Refused("source-object-owner-mismatch"))
      else (None, Report(true, "", "", 0, ""))
    case CleanupDestination =>
      if here.Some? && checks.owner(here.value) != Some(owner) then (here, Refused("destination-object-owner-mismatch"))
      else (None, Report(true, "", "", o.to.entity, ""))
    case _ =>
      if checks.owner(o.snapshot) == None then (here, Refused("invalid-linkset-snapshot"))
      else if checks.owner(o.snapshot) != Some(owner) then (here, Refused("destination-object-owner-mismatch"))
      else if !checks.placeable(o) then (here, Refused("invalid-linkset-transfer-snapshot"))
      else if here.Some? && here.value != o.snapshot then (here, Refused("linkset-destination-entity-collision"))
      else if here.None? && !room then (here, Refused("linkset-destination-restore-failed"))
      else (Some(o.snapshot), Report(true, "", "", e, checks.entities(o)))
  }

  // ---------- what the protocol relies on ----------

  // The destination is a root. A copy that is already at the destination passed the checks of this
  // very import when it came.
  ghost predicate Admitted(scene: map<Key, string>, links: Links, o: Order, owner: string, checks: Checks) {
    && Root(links, o.to) == o.to
    && (o.kind.ImportDestination? && Holds(scene, o.to, o.snapshot) ==>
          checks.owner(o.snapshot) == Some(owner) && checks.placeable(o))
  }

  // Carrying out a command in a region keeps the contract the protocol relies on, for the linkset the
  // command's address means.
  lemma CarriedApplies(scene: map<Key, string>, links: Links, o: Order, owner: string, checks: Checks, room: bool)
    requires Admitted(scene, links, o, owner, checks)
    ensures var k := Target(links, o);
      var (after, r) := Carried(Found(scene, k), k.entity, o, owner, checks, room);
      Applies(Resolved(links, o), scene, Put(scene, k, after), r)
  {
    PutBack(scene, Target(links, o));
  }

  lemma PutBack<K>(linksets: map<K, string>, k: K)
    ensures Put(linksets, k, Found(linksets, k)) == linksets
  {
  }

  // Exactly when a command is carried out, and what it leaves: an export what it reports, a removal or a
  // cleanup nothing, an import or a restore the snapshot; a refused one leaves everything.
  lemma CarriedExactly(here: Option<string>, e: nat, o: Order, owner: string, checks: Checks, room: bool)
    ensures var (after, r) := Carried(here, e, o, owner, checks, room);
      && (r.ok <==>
           match o.kind
           case ExportSource => here.Some? && checks.whole(here.value) && checks.owner(here.value) == Some(owner)
           case RemoveSource => here.Some? ==> checks.owner(here.value) == Some(owner)
           case CleanupDestination => here.Some? ==> checks.owner(here.value) == Some(owner)
           case ImportDestination =>
             checks.owner(o.snapshot) == Some(owner) && checks.placeable(o) && (here == Some(o.snapshot) || (here.None? && room))
           case RestoreSource =>
             checks.owner(o.snapshot) == Some(owner) && checks.placeable(o) && (here == Some(o.snapshot) || (here.None? && room)))
      && (!r.ok ==> after == here && r.error != "" && r == Report(false, r.error, "", 0, ""))
      && (r.ok ==>
           match o.kind
           case ExportSource => after == here && r == Report(true, "", here.value, 0, "")
           case RemoveSource => after == None && r == Report(true, "", "", 0, "")
           case CleanupDestination => after == None && r == Report(true, "", "", o.to.entity, "")
           case _ => after == Some(o.snapshot) && r == Report(true, "", "", e, checks.entities(o)))
  {
  }

  // So no crossing changes a linkset of another owner, or brings one in.
  lemma OnlyOwn(here: Option<string>, e: nat, o: Order, owner: string, checks: Checks, room: bool)
    ensures var (after, r) := Carried(here, e, o, owner, checks, room);
      after != here ==>
        && r.ok && (here.Some? ==> checks.owner(here.value) == Some(owner))
        && (after.Some? ==> checks.owner(after.value) == Some(owner))
  {
    CarriedExactly(here, e, o, owner, checks, room);
  }

  // The world's scene is the regions' tables together: what one region puts into its own table it puts
  // into the world.
  function Scene(region: string, linksets: map<nat, string>): map<Key, string> {
    map e | e in linksets :: Key(region, e) := linksets[e]
  }

  lemma PutInWorld(region: string, linksets: map<nat, string>, others: map<Key, string>, e: nat, contents: Option<string>)
    requires forall k :: k in others ==> k.region != region
    ensures others + Scene(region, Put(linksets, e, contents)) == Put(others + Scene(region, linksets), Key(region, e), contents)
  {
    match contents {
      case Some(x) => SceneUpdate(region, linksets, e, x);
      case None => SceneRemove(region, linksets, e);
    }
    PutBeside(Scene(region, linksets), others, Key(region, e), contents);
  }

  lemma PutBeside(here: map<Key, string>, others: map<Key, string>, k: Key, contents: Option<string>)
    requires k !in others
    ensures others + Put(here, k, contents) == Put(others + here, k, contents)
  {
  }

  lemma SceneUpdate(region: string, linksets: map<nat, string>, e: nat, text: string)
    ensures Scene(region, linksets[e := text]) == Scene(region, linksets)[Key(region, e) := text]
  {
  }

  lemma SceneRemove(region: string, linksets: map<nat, string>, e: nat)
    ensures Scene(region, linksets - {e}) == Scene(region, linksets) - {Key(region, e)}
  {
  }

  class RegionScene {
    const region: string
    var linksets: map<nat, string>
    var links: Links

    constructor (region: string)
      ensures this.region == region && linksets == map[] && links == map[]
    {
      this.region, linksets, links := region, map[], map[];
    }

    method ApplyCommand(o: Order, owner: string, checks: Checks, room: bool) returns (r: Report)
      requires Place(o).region == region
      modifies this`linksets
      ensures var e := Target(links, o).entity;
        var (after, report) := Carried(Found(old(linksets), e), e, o, owner, checks, room);
        r == report && linksets == Put(old(linksets), e, after)
    {
      var e := Target(links, o).entity;
      PutBack(linksets, e);
      if o.kind.ExportSource? {
        r := ExportLinkset(e, owner, checks);
        return;
      }
      if o.kind.ImportDestination? || o.kind.RestoreSource? {
        var root := checks.owner(o.snapshot);
        if root.None? {
          return Refused("invalid-linkset-snapshot");
        }
        if root != Some(owner) {
          return Refused("destination-object-owner-mismatch");
        }
        r := ImportLinkset(o, checks, room);
        return;
      }
      if e in linksets {
        if checks.owner(linksets[e]) != Some(owner) {
          return Refused(
            if o.kind.RemoveSource? then "source-object-owner-mismatch" else "destination-object-owner-mismatch");
        }
        linksets := linksets - {e};
      }
      r := Report(true, "", "", if o.kind.RemoveSource? then 0 else o.to.entity, "");
    }

    method ExportLinkset(e: nat, owner: string, checks: Checks) returns (r: Report)
      ensures r ==
        if e !in linksets || !checks.whole(linksets[e]) then Refused("source-linkset-not-found")
        else if checks.owner(linksets[e]) != Some(owner) then Refused("source-object-owner-mismatch")
        else Report(true, "", linksets[e], 0, "")
    {
      if e !in linksets || !checks.whole(linksets[e]) {
        return Refused("source-linkset-not-found");
      }
      if checks.owner(linksets[e]) != Some(owner) {
        return Refused("source-object-owner-mismatch");
      }
      r := Report(true, "", linksets[e], 0, "");
    }

    method ImportLinkset(o: Order, checks: Checks, room: bool) returns (r: Report)
      requires Place(o).region == region && (o.kind.ImportDestination? || o.kind.RestoreSource?)
      requires checks.owner(o.snapshot).Some?
      modifies this`linksets
      ensures var e := Target(links, o).entity;
        var (after, report) := Carried(Found(old(linksets), e), e, o, checks.owner(o.snapshot).value, checks, room);
        r == report && linksets == Put(old(linksets), e, after)
    {
      var e := Target(links, o).entity;
      PutBack(linksets, e);
      if !checks.placeable(o) {
        return Refused("invalid-linkset-transfer-snapshot");
      }
      if e in linksets {
        if linksets[e] != o.snapshot {
          return Refused("linkset-destination-entity-collision");
        }
      } else if !room {
        return Refused("linkset-destination-restore-failed");
      } else {
        linksets := linksets[e := o.snapshot];
      }
      r := Report(true, "", "", e, checks.entities(o));
    }
  }
}
