// The inventory: each user's folders form one tree, and items live in folders.

module Inventory {
  import opened Basics
  import Text

  datatype Folder = Folder(owner: string, parent: string, name: string, legacyId: string, created: int)

  datatype Item = Item(owner: string, parent: string, asset: string, name: string, legacyId: string, created: int)

  type Folders = map<string, Folder>

  type Items = map<string, Item>

  // ---------- ancestry ----------

  // a is reached from x in at most n steps towards the root.
  ghost predicate Within(f: Folders, a: string, x: string, n: nat)
    decreases n
  {
    x == a || (n > 0 && x in f && Within(f, a, f[x].parent, n - 1))
  }

  // x is a, or lies below it.
  ghost predicate Under(f: Folders, a: string, x: string) {
    exists n: nat :: Within(f, a, x, n)
  }

  lemma UnderStep(f: Folders, a: string, x: string)
    ensures Under(f, a, x) <==> x == a || (x in f && Under(f, a, f[x].parent))
  {
    if x == a {
      assert Within(f, a, x, 0);
    } else {
      if Under(f, a, x) {
        var n: nat :| Within(f, a, x, n);
        assert Within(f, a, f[x].parent, n - 1);
      }
      if x in f && Under(f, a, f[x].parent) {
        var n: nat :| Within(f, a, f[x].parent, n);
        assert Within(f, a, x, n + 1);
      }
    }
  }

  predicate Above(f: Folders, rank: map<string, nat>, id: string)
    requires f.Keys <= rank.Keys
  {
    id in f && f[id].parent in f ==> rank[f[id].parent] < rank[id]
  }

  // Parents come strictly before their children in some ranking: there are no cycles.
  ghost predicate Ranked(f: Folders, rank: map<string, nat>) {
    f.Keys <= rank.Keys && forall id {:trigger Above(f, rank, id)} :: Above(f, rank, id)
  }

  lemma {:induction false} UnderRank(f: Folders, rank: map<string, nat>, a: string, x: string)
    requires Ranked(f, rank) && a in f && x in f && Under(f, a, x)
    ensures rank[a] <= rank[x] && (a != x ==> rank[a] < rank[x])
    decreases rank[x]
  {
    assert Above(f, rank, x);
    UnderStep(f, a, x);
    if x != a {
      UnderStep(f, a, f[x].parent);
      UnderRank(f, rank, a, f[x].parent);
    }
  }

  lemma {:induction false} UnderTrans(f: Folders, rank: map<string, nat>, a: string, b: string, x: string)
    requires Ranked(f, rank) && x in f && Under(f, a, b) && Under(f, b, x) && b in f
    ensures Under(f, a, x)
    decreases rank[x]
  {
    assert Above(f, rank, x);
    UnderStep(f, b, x);
    UnderStep(f, a, x);
    if x != b {
      UnderStep(f, b, f[x].parent);
      UnderTrans(f, rank, a, b, f[x].parent);
    }
  }

  // What lies below two folders lies on one line with both.
  lemma {:induction false} UnderLinear(f: Folders, rank: map<string, nat>, a: string, b: string, x: string)
    requires Ranked(f, rank) && x in f && Under(f, a, x) && Under(f, b, x)
    ensures Under(f, a, b) || Under(f, b, a)
    decreases rank[x]
  {
    assert Above(f, rank, x);
    UnderStep(f, a, x);
    UnderStep(f, b, x);
    if x != a && x != b {
      UnderStep(f, a, f[x].parent);
      UnderStep(f, b, f[x].parent);
      if f[x].parent in f {
        UnderLinear(f, rank, a, b, f[x].parent);
      }
    }
  }

  // ---------- the invariant ----------

  predicate RootOk(f: Folders, roots: map<string, string>, user: string) {
    user in roots ==> roots[user] in f && f[roots[user]].owner == user && f[roots[user]].parent == ""
  }

  predicate Linked(f: Folders, roots: map<string, string>, id: string) {
    id in f ==>
      if f[id].parent == "" then f[id].owner in roots && roots[f[id].owner] == id
      else f[id].parent in f && f[f[id].parent].owner == f[id].owner
  }

  // One parentless folder for each user, and parents of the same owner for all others.
  ghost predicate Rooted(f: Folders, roots: map<string, string>) {
    && "" !in f
    && (forall user {:trigger RootOk(f, roots, user)} :: RootOk(f, roots, user))
    && forall id {:trigger Linked(f, roots, id)} :: Linked(f, roots, id)
  }

  ghost predicate Acyclic(f: Folders) {
    exists rank: map<string, nat> :: Ranked(f, rank)
  }

  predicate ItemOk(f: Folders, item: Item) { item.parent in f && f[item.parent].owner == item.owner }

  ghost predicate Placed(f: Folders, items: Items) {
    forall id {:trigger ItemOk(f, items[id])} :: id in items ==> ItemOk(f, items[id])
  }

  ghost predicate WellFormed(f: Folders, items: Items, roots: map<string, string>) {
    Rooted(f, roots) && Acyclic(f) && Placed(f, items)
  }

  // Every folder lies under the one root of its owner.
  lemma {:induction false} UnderRoot(f: Folders, roots: map<string, string>, rank: map<string, nat>, id: string)
    requires Rooted(f, roots) && Ranked(f, rank) && id in f
    ensures f[id].owner in roots && Under(f, roots[f[id].owner], id)
    decreases rank[id]
  {
    assert Linked(f, roots, id) && Above(f, rank, id);
    var parent := f[id].parent;
    if parent != "" {
      UnderRoot(f, roots, rank, parent);
      UnderStep(f, roots[f[id].owner], id);
    } else {
      UnderStep(f, id, id);
    }
  }

  // The tree as users see it: one root each, above everything they own, and no folder above itself.
  lemma OneTreeEach(f: Folders, items: Items, roots: map<string, string>, id: string)
    requires WellFormed(f, items, roots) && id in f
    ensures f[id].owner in roots && Under(f, roots[f[id].owner], id)
    ensures f[id].parent == "" <==> id == roots[f[id].owner]
    ensures f[id].parent != "" ==> !Under(f, id, f[id].parent)
  {
    var rank: map<string, nat> :| Ranked(f, rank);
    UnderRoot(f, roots, rank, id);
    assert Linked(f, roots, id) && RootOk(f, roots, f[id].owner) && Above(f, rank, id);
    if f[id].parent != "" && Under(f, id, f[id].parent) {
      UnderRank(f, rank, id, f[id].parent);
    }
  }

  // ---------- what changes keep ----------

  lemma AddFolder(f: Folders, roots: map<string, string>, id: string, folder: Folder)
    requires Rooted(f, roots) && Acyclic(f) && id !in f && id != "" && folder.parent != id
    ensures Acyclic(f[id := folder])
  {
    var rank: map<string, nat> :| Ranked(f, rank);
    var top := if folder.parent in f then rank[folder.parent] + 1 else 0;
    var g, after := f[id := folder], rank[id := top];
    forall x ensures Above(g, after, x) {
      assert Above(f, rank, x) && Linked(f, roots, x);
    }
    assert Ranked(g, after);
  }

  lemma AddedRooted(f: Folders, items: Items, roots: map<string, string>, id: string, folder: Folder, user: string)
    requires WellFormed(f, items, roots) && id !in f && id != "" && folder.owner == user
    requires if folder.parent == "" then user !in roots else folder.parent in f && f[folder.parent].owner == user
    ensures var r := if folder.parent == "" then roots[user := id] else roots;
      Rooted(f[id := folder], r) && Placed(f[id := folder], items)
  {
    var g, r := f[id := folder], if folder.parent == "" then roots[user := id] else roots;
    forall x ensures Linked(g, r, x) {
      assert Linked(f, roots, x);
    }
    forall u ensures RootOk(g, r, u) {
      assert RootOk(f, roots, u);
    }
    forall i | i in items ensures ItemOk(g, items[i]) {
      assert ItemOk(f, items[i]);
    }
  }

  // Moving a folder below one that is not under it: its whole subtree is ranked anew.
  lemma MoveFolder(f: Folders, id: string, folder: Folder)
    requires Acyclic(f) && id in f && folder.parent in f && !Under(f, id, folder.parent)
    ensures Acyclic(f[id := folder])
  {
    var rank: map<string, nat> :| Ranked(f, rank);
    var g := f[id := folder];
    var shift := rank[folder.parent] + 1;
    var after := map x | x in f :: if Under(f, id, x) then rank[x] + shift else rank[x];
    forall x ensures Above(g, after, x) {
      assert Above(f, rank, x);
      UnderStep(f, id, x);
    }
    assert Ranked(g, after);
  }

  lemma MovedRooted(f: Folders, items: Items, roots: map<string, string>, id: string, folder: Folder)
    requires WellFormed(f, items, roots) && id in f && f[id].parent != "" && folder.owner == f[id].owner
    requires folder.parent in f && f[folder.parent].owner == folder.owner && folder.parent != ""
    ensures Rooted(f[id := folder], roots) && Placed(f[id := folder], items)
  {
    var g := f[id := folder];
    forall x ensures Linked(g, roots, x) {
      assert Linked(f, roots, x);
    }
    forall u ensures RootOk(g, roots, u) {
      assert RootOk(f, roots, u);
    }
    forall i | i in items ensures ItemOk(g, items[i]) {
      assert ItemOk(f, items[i]);
    }
  }

  lemma RemoveFolders(f: Folders, gone: set<string>)
    requires Acyclic(f)
    ensures Acyclic(f - gone)
  {
    var rank: map<string, nat> :| Ranked(f, rank);
    forall x ensures Above(f - gone, rank, x) {
      assert Above(f, rank, x);
    }
    assert Ranked(f - gone, rank);
  }

  // ---------- names and refusals ----------

  predicate ValidName(name: string) {
    0 < |name| <= 128 && forall c :: c in name ==> c as int >= 0x20 && c as int != 0x7f
  }

  predicate IsHex(c: char) { '0' <= c <= '9' || 'a' <= c <= 'f' || 'A' <= c <= 'F' }

  predicate ValidLegacyId(id: string) {
    id == "" || (|id| == 36 && forall i :: 0 <= i < 36 ==> if i in {8, 13, 18, 23} then id[i] == '-' else IsHex(id[i]))
  }

  function ParentOf(roots: map<string, string>, user: string, parent: string): Option<string> {
    if parent != "" then Some(parent) else if user in roots then Some(roots[user]) else None
  }

  predicate Belongs(f: Folders, id: string, user: string) { id in f && f[id].owner == user }

  predicate LegacyFolder(f: Folders, user: string, legacyId: string) {
    legacyId != "" && exists id :: id in f && f[id].owner == user && f[id].legacyId == legacyId
  }

  predicate LegacyItem(items: Items, user: string, legacyId: string) {
    legacyId != "" && exists id :: id in items && items[id].owner == user && items[id].legacyId == legacyId
  }

  function CreateFolderRefusal(
    f: Folders, roots: map<string, string>, user: string, parent: string, name: string, legacyId: string): string
  {
    if !ValidName(name) || !ValidLegacyId(legacyId) then "invalid-folder"
    else
      match ParentOf(roots, user, parent)
      case None => "missing-root"
      case Some(p) =>
        if !Belongs(f, p, user) then "invalid-parent"
        else if LegacyFolder(f, user, legacyId) then "legacy-folder-exists" else ""
  }

  function CreateItemRefusal(
    f: Folders, items: Items, roots: map<string, string>, user: string, parent: string, asset: string, name: string,
    legacyId: string): string
  {
    if asset == "" || !ValidName(name) || !ValidLegacyId(legacyId) then "invalid-item"
    else
      match ParentOf(roots, user, parent)
      case None => "missing-root"
      case Some(p) =>
        if !Belongs(f, p, user) then "invalid-parent"
        else if LegacyItem(items, user, legacyId) then "legacy-item-exists" else ""
  }

  predicate MovableFolder(f: Folders, user: string, id: string) { Belongs(f, id, user) && f[id].parent != "" }

  // A folder may go below any folder of its owner that is not under it.
  ghost function MoveFolderRefusal(f: Folders, user: string, id: string, parent: string): string {
    if !MovableFolder(f, user, id) then "folder-not-found-or-root"
    else if !Belongs(f, parent, user) || Under(f, id, parent) then "invalid-parent"
    else ""
  }

  function MoveItemRefusal(f: Folders, items: Items, user: string, id: string, parent: string): string {
    if id !in items || items[id].owner != user then "item-not-found"
    else if !Belongs(f, parent, user) then "invalid-parent"
    else ""
  }

  // ---------- deletion ----------

  // What goes when a folder is deleted: everything below it, and itself on request.
  ghost predicate Doomed(f: Folders, folder: string, self: bool, x: string) {
    x in f && Under(f, folder, x) && (x != folder || self)
  }

  lemma DeleteKeepsRooted(f: Folders, roots: map<string, string>, folder: string, gone: set<string>, self: bool)
    requires Rooted(f, roots) && Acyclic(f) && folder in f && f[folder].parent != ""
    requires forall x :: x in gone <==> Doomed(f, folder, self, x)
    ensures Rooted(f - gone, roots)
  {
    var rank: map<string, nat> :| Ranked(f, rank);
    forall x ensures Linked(f - gone, roots, x) {
      assert Linked(f, roots, x) && Above(f, rank, x);
      UnderStep(f, folder, x);
      if x == folder && f[x].parent in gone {
        UnderRank(f, rank, folder, f[x].parent);
      }
    }
    forall user ensures RootOk(f - gone, roots, user) {
      assert RootOk(f, roots, user);
      if user in roots {
        UnderStep(f, folder, roots[user]);
        UnderStep(f, folder, "");
      }
    }
  }

  // Two children of one folder have nothing below them in common.
  lemma SiblingsApart(f: Folders, rank: map<string, nat>, a: string, b: string, x: string)
    requires Ranked(f, rank) && a in f && b in f && a != b && f[a].parent == f[b].parent && f[a].parent in f && x in f
    ensures !Under(f, a, x) || !Under(f, b, x)
  {
    var parent := f[a].parent;
    assert Above(f, rank, a) && Above(f, rank, b);
    assert !Under(f, a, parent) by {
      if Under(f, a, parent) {
        UnderRank(f, rank, a, parent);
      }
    }
    assert !Under(f, b, parent) by {
      if Under(f, b, parent) {
        UnderRank(f, rank, b, parent);
      }
    }
    UnderStep(f, a, b);
    UnderStep(f, b, a);
    if Under(f, a, x) && Under(f, b, x) {
      UnderLinear(f, rank, a, b, x);
    }
  }

  // The folders a ranking puts after this one; fewer for each child.
  ghost function Deeper(f: Folders, rank: map<string, nat>, id: string): set<string>
    requires Ranked(f, rank) && id in f
  {
    set x | x in f && rank[x] > rank[id]
  }

  lemma DeeperShrinks(f: Folders, rank: map<string, nat>, id: string)
    requires Ranked(f, rank) && id in f && f[id].parent in f
    ensures Deeper(f, rank, id) < Deeper(f, rank, f[id].parent)
  {
    assert Above(f, rank, id);
    assert id in Deeper(f, rank, f[id].parent) && id !in Deeper(f, rank, id);
  }

  // Below a folder are its children and what is under them.
  lemma {:induction false} BelowChild(f: Folders, rank: map<string, nat>, a: string, x: string) returns (child: string)
    requires Ranked(f, rank) && x in f && Under(f, a, x) && x != a
    ensures child in f && f[child].parent == a && Under(f, child, x)
    decreases rank[x]
  {
    assert Above(f, rank, x);
    UnderStep(f, a, x);
    if f[x].parent == a {
      child := x;
      UnderStep(f, x, x);
    } else {
      UnderStep(f, a, f[x].parent);
      child := BelowChild(f, rank, a, f[x].parent);
      UnderStep(f, child, x);
    }
  }

  // ---------- the walk towards the root ----------

  // The folders already passed all rank above the next one.
  ghost predicate Walked(f: Folders, rank: map<string, nat>, seen: set<string>, current: string) {
    && Ranked(f, rank) && seen <= f.Keys
    && (current in f ==> forall x :: x in seen ==> rank[current] < rank[x])
  }

  lemma WalkStep(f: Folders, rank: map<string, nat>, seen: set<string>, current: string)
    requires Walked(f, rank, seen, current) && current in f
    ensures Walked(f, rank, seen + {current}, f[current].parent) && |seen + {current}| == |seen| + 1
  {
    assert Above(f, rank, current);
  }

  // ---------- the store ----------

  ghost predicate Distinct(s: seq<string>) {
    forall i, j :: 0 <= i < j < |s| ==> s[i] != s[j]
  }

  ghost function Names(s: seq<string>): set<string> { set x | x in s }

  class InventoryStore {
    var folders: Folders
    var items: Items
    var rootByUser: map<string, string>

    ghost predicate Valid()
      reads this
    {
      WellFormed(folders, items, rootByUser)
    }

    constructor ()
      ensures Valid() && folders == map[] && items == map[] && rootByUser == map[]
    {
      folders, items, rootByUser := map[], map[], map[];
      assert Ranked(map[], map[]);
    }

    // `id` is the store's own random id, here and below.
    method EnsureRoot(user: string, id: string, now: int) returns (root: string)
      requires Valid() && id != "" && id !in folders
      modifies this
      ensures Valid() && items == old(items) && user in rootByUser && root == rootByUser[user]
      ensures user in old(rootByUser) ==> folders == old(folders) && rootByUser == old(rootByUser)
      ensures user !in old(rootByUser) ==>
        folders == old(folders)[id := Folder(user, "", "My Inventory", "", now)] && rootByUser == old(rootByUser)[user := id]
    {
      if user in rootByUser {
        return rootByUser[user];
      }
      var folder := Folder(user, "", "My Inventory", "", now);
      AddFolder(folders, rootByUser, id, folder);
      AddedRooted(folders, items, rootByUser, id, folder, user);
      rootByUser := rootByUser[user := id];
      folders := folders[id := folder];
      root := id;
    }

    // The walk towards the root takes at most one step more than there are folders, and that is
    // always enough to decide ancestry.
    method FolderIsDescendant(candidate: string, folder: string) returns (found: bool)
      requires Valid() && folder != ""
      ensures found <==> Under(folders, folder, candidate)
    {
      ghost var rank: map<string, nat> :| Ranked(folders, rank);
      ghost var seen: set<string> := {};
      var current := candidate;
      var depth := 0;
      while depth < |folders| + 1 && current != ""
        invariant depth == |seen| && Walked(folders, rank, seen, current)
        invariant Under(folders, folder, candidate) <==> Under(folders, folder, current)
      {
        UnderStep(folders, folder, current);
        if current == folder {
          return true;
        }
        if current !in folders {
          return false;
        }
        WalkStep(folders, rank, seen, current);
        seen := seen + {current};
        current := folders[current].parent;
        depth := depth + 1;
      }
      SubsetSize(seen, folders.Keys);
      UnderStep(folders, folder, "");
      found := false;
    }

    // Every folder strictly below, once each, however the table is walked.
    method CollectDescendants(folder: string, ghost rank: map<string, nat>) returns (output: seq<string>)
      requires Valid() && folder in folders && Ranked(folders, rank)
      ensures Distinct(output)
      ensures forall x :: x in output <==> x in folders && x != folder && Under(folders, folder, x)
      decreases Deeper(folders, rank, folder)
    {
      output := [];
      var rest := folders.Keys;
      while rest != {}
        invariant rest <= folders.Keys && Distinct(output)
        invariant forall x :: x in output <==> BelowOneOf(folders, folder, folders.Keys - rest, x)
        decreases |rest|
      {
        var id :| id in rest;
        ghost var done := folders.Keys - rest;
        if folders[id].parent == folder {
          DeeperShrinks(folders, rank, id);
          var below := CollectDescendants(id, rank);
          Joined(folders, rank, folder, done, id, output, below);
          output := output + [id] + below;
        }
        rest := rest - {id};
        assert folders.Keys - rest == done + {id};
      }
      forall x ensures x in output <==> x in folders && x != folder && Under(folders, folder, x) {
        BelowAll(folders, rank, folder, x);
      }
    }

    method CreateFolder(user: string, parent: string, name: string, legacyId: string, id: string, now: int)
      returns (reason: string)
      requires Valid() && id != "" && id !in folders
      modifies this`folders
      ensures Valid()
      ensures reason == CreateFolderRefusal(old(folders), rootByUser, user, parent, name, legacyId)
      ensures folders == if reason != "" then old(folders)
        else old(folders)[id := Folder(user, ParentOf(rootByUser, user, parent).value, name, legacyId, now)]
      ensures reason == "" && parent == "" ==> user in rootByUser && folders[id].parent == rootByUser[user]
      ensures reason == "" && parent != "" ==> folders[id].parent == parent
    {
      reason := CreateFolderRefusal(folders, rootByUser, user, parent, name, legacyId);
      if reason == "" {
        var folder := Folder(user, ParentOf(rootByUser, user, parent).value, name, legacyId, now);
        AddFolder(folders, rootByUser, id, folder);
        AddedRooted(folders, items, rootByUser, id, folder, user);
        folders := folders[id := folder];
      }
    }

    method CreateItem(user: string, parent: string, asset: string, name: string, legacyId: string, id: string, now: int)
      returns (reason: string)
      requires Valid() && id !in items
      modifies this`items
      ensures Valid()
      ensures reason == CreateItemRefusal(folders, old(items), rootByUser, user, parent, asset, name, legacyId)
      ensures items == if reason != "" then old(items)
        else old(items)[id := Item(user, ParentOf(rootByUser, user, parent).value, asset, name, legacyId, now)]
      ensures reason == "" && parent == "" ==> user in rootByUser && items[id].parent == rootByUser[user]
      ensures reason == "" && parent != "" ==> items[id].parent == parent
    {
      reason := CreateItemRefusal(folders, items, rootByUser, user, parent, asset, name, legacyId);
      if reason == "" {
        items := items[id := Item(user, ParentOf(rootByUser, user, parent).value, asset, name, legacyId, now)];
      }
    }

    // Shared by the two operations that give a folder a new parent.
    method Reparent(user: string, id: string, parent: string, name: Option<string>) returns (reason: string)
      requires Valid()
      modifies this`folders
      ensures Valid()
      ensures reason == MoveFolderRefusal(old(folders), user, id, parent)
      ensures reason != "" ==> folders == old(folders)
      ensures reason == "" ==> id in old(folders) && folders == old(folders)[id := old(folders)[id].(
        parent := parent, name := if name.Some? then name.value else old(folders)[id].name)]
    {
      if !MovableFolder(folders, user, id) {
        return "folder-not-found-or-root";
      }
      if !Belongs(folders, parent, user) || parent == id {
        UnderStep(folders, id, id);
        return "invalid-parent";
      }
      var below := FolderIsDescendant(parent, id);
      if below {
        return "invalid-parent";
      }
      var folder := folders[id].(parent := parent, name := if name.Some? then name.value else folders[id].name);
      MoveFolder(folders, id, folder);
      MovedRooted(folders, items, rootByUser, id, folder);
      folders := folders[id := folder];
      reason := "";
    }

    method UpdateFolder(user: string, id: string, parent: string, name: string) returns (reason: string)
      requires Valid()
      modifies this`folders
      ensures Valid()
      ensures reason == if !ValidName(name) then "invalid-name" else MoveFolderRefusal(old(folders), user, id, parent)
      ensures reason != "" ==> folders == old(folders)
      ensures reason == "" ==>
        id in old(folders) && folders == old(folders)[id := old(folders)[id].(parent := parent, name := name)]
    {
      if !ValidName(name) {
        return "invalid-name";
      }
      reason := Reparent(user, id, parent, Some(name));
    }

    method MoveFolderTo(user: string, id: string, parent: string) returns (reason: string)
      requires Valid()
      modifies this`folders
      ensures Valid()
      ensures reason == MoveFolderRefusal(old(folders), user, id, parent)
      ensures reason != "" ==> folders == old(folders)
      ensures reason == "" ==> id in old(folders) && folders == old(folders)[id := old(folders)[id].(parent := parent)]
    {
      reason := Reparent(user, id, parent, None);
    }

    // Exactly the folders below go, with the folder itself on request, and every item in any of them.
    method DeleteFolder(user: string, id: string, self: bool) returns (reason: string)
      requires Valid()
      modifies this`folders, this`items
      ensures Valid()
      ensures reason == if id in old(folders) && old(folders)[id].owner == user && old(folders)[id].parent != ""
        then "" else "folder-not-found-or-root"
      ensures reason != "" ==> folders == old(folders) && items == old(items)
      ensures reason == "" ==>
        && (forall x :: x in folders <==> x in old(folders) && (x == id ==> !self) && (x != id ==> !Under(old(folders), id, x)))
        && (forall x :: x in folders ==> folders[x] == old(folders)[x])
        && (forall i :: i in items <==> i in old(items) && !Under(old(folders), id, old(items)[i].parent))
        && forall i :: i in items ==> items[i] == old(items)[i]
    {
      if !MovableFolder(folders, user, id) {
        return "folder-not-found-or-root";
      }
      ghost var rank: map<string, nat> :| Ranked(folders, rank);
      var gone := CollectDescendants(id, rank);
      if self {
        gone := gone + [id];
      }
      UnderStep(folders, id, id);
      EraseItems(user, id, gone);
      ghost var before := folders;
      ghost var doomed := Names(gone);
      EraseFolders(gone);
      assert forall x :: x in doomed <==> Doomed(before, id, self, x);
      DeleteKeepsRooted(before, rootByUser, id, doomed, self);
      forall i | i in items ensures ItemOk(folders, items[i]) {
        assert ItemOk(before, items[i]);
      }
      RemoveFolders(before, doomed);
      reason := "";
    }

    method EraseItems(user: string, folder: string, gone: seq<string>)
      requires Valid() && folder in folders && folders[folder].owner == user
      requires forall x :: x in gone ==> x in folders && Under(folders, folder, x)
      requires forall x :: x in folders && Under(folders, folder, x) ==> x == folder || x in gone
      modifies this`items
      ensures Valid()
      ensures forall i :: i in items <==> i in old(items) && !Under(folders, folder, old(items)[i].parent)
      ensures forall i :: i in items ==> items[i] == old(items)[i]
    {
      var rest := items.Keys;
      while rest != {}
        invariant rest <= items.Keys <= old(items).Keys
        invariant forall i :: i in items ==> items[i] == old(items)[i]
        invariant forall i :: i in old(items) && i !in rest ==>
          (i in items <==> !Under(folders, folder, old(items)[i].parent))
        decreases |rest|
      {
        var i :| i in rest;
        var item := items[i];
        SameOwner(folders, items, rootByUser, folder, i);
        UnderStep(folders, folder, folder);
        if item.owner == user && (item.parent == folder || item.parent in gone) {
          items := items - {i};
        }
        rest := rest - {i};
      }
    }

    method EraseFolders(gone: seq<string>)
      modifies this`folders
      ensures folders == old(folders) - Names(gone)
    {
      for i := 0 to |gone|
        invariant folders == old(folders) - Names(gone[..i])
      {
        assert Names(gone[..i + 1]) == Names(gone[..i]) + {gone[i]};
        folders := folders - {gone[i]};
      }
      assert gone[..|gone|] == gone;
    }

    method UpdateItem(user: string, id: string, parent: string, asset: string, name: string) returns (reason: string)
      requires Valid()
      modifies this`items
      ensures Valid()
      ensures reason == if asset == "" || !ValidName(name) then "invalid-item"
        else MoveItemRefusal(folders, old(items), user, id, parent)
      ensures reason != "" ==> items == old(items)
      ensures reason == "" ==>
        id in old(items) && items == old(items)[id := old(items)[id].(parent := parent, asset := asset, name := name)]
    {
      if asset == "" || !ValidName(name) {
        return "invalid-item";
      }
      reason := MoveItemRefusal(folders, items, user, id, parent);
      if reason == "" {
        items := items[id := items[id].(parent := parent, asset := asset, name := name)];
      }
    }

    method MoveItem(user: string, id: string, parent: string) returns (reason: string)
      requires Valid()
      modifies this`items
      ensures Valid()
      ensures reason == MoveItemRefusal(folders, old(items), user, id, parent)
      ensures reason != "" ==> items == old(items)
      ensures reason == "" ==> id in old(items) && items == old(items)[id := old(items)[id].(parent := parent)]
    {
      reason := MoveItemRefusal(folders, items, user, id, parent);
      if reason == "" {
        items := items[id := items[id].(parent := parent)];
      }
    }

    method DeleteItem(user: string, id: string) returns (reason: string)
      requires Valid()
      modifies this`items
      ensures Valid()
      ensures reason == if id in old(items) && old(items)[id].owner == user then "" else "item-not-found"
      ensures items == if reason == "" then old(items) - {id} else old(items)
    {
      if id !in items || items[id].owner != user {
        return "item-not-found";
      }
      items := items - {id};
      reason := "";
    }
  }

  // ---------- exactly what can be created ----------

  // A name of 1 to 128 characters without control characters.
  predicate Nameable(name: string) {
    name != "" && |name| < 129 && forall i :: 0 <= i < |name| ==> ' ' <= name[i] && name[i] as int != 127
  }

  // Where something new goes: below the folder that is named, or below the root when none is.
  predicate Goes(f: Folders, roots: map<string, string>, user: string, parent: string, place: string) {
    (if parent == "" then user in roots && place == roots[user] else place == parent) && place in f && f[place].owner == user
  }

  // A legacy id: hexadecimal digits in groups of 8, 4, 4, 4 and 12, or nothing.
  predicate Grouped(id: string) {
    && |id| == 36 && id[8..9] == "-" && id[13..14] == "-" && id[18..19] == "-" && id[23..24] == "-"
    && forall c :: c in id[..8] + id[9..13] + id[14..18] + id[19..23] + id[24..] ==> c in "0123456789abcdefABCDEF"
  }

  lemma LegacyIdMeans(id: string)
    ensures ValidLegacyId(id) <==> id == "" || Grouped(id)
  {
    Text.HexDigits();
    if |id| == 36 {
      var groups := id[..8] + id[9..13] + id[14..18] + id[19..23] + id[24..];
      if Grouped(id) {
        forall i | 0 <= i < 36 ensures if i in {8, 13, 18, 23} then id[i] == '-' else IsHex(id[i]) {
          assert id[8] == id[8..9][0] && id[13] == id[13..14][0] && id[18] == id[18..19][0] && id[23] == id[23..24][0];
          if i !in {8, 13, 18, 23} {
            var at := if i < 8 then i else if i < 13 then i - 1 else if i < 18 then i - 2 else if i < 23 then i - 3 else i - 4;
            assert groups[at] == id[i] && groups[at] in groups;
          }
        }
      }
      if ValidLegacyId(id) {
        forall c | c in groups ensures c in "0123456789abcdefABCDEF" {
          var at :| 0 <= at < |groups| && groups[at] == c;
          var i := if at < 8 then at else if at < 12 then at + 1 else if at < 16 then at + 2 else if at < 20 then at + 3 else at + 4;
          assert groups[at] == id[i] && i !in {8, 13, 18, 23};
        }
      }
    }
  }

  lemma NameableMeans(name: string)
    ensures ValidName(name) <==> Nameable(name)
  {
    if Nameable(name) {
      forall c | c in name ensures c as int >= 0x20 && c as int != 0x7f {
        var i :| 0 <= i < |name| && name[i] == c;
      }
    }
    if ValidName(name) {
      forall i | 0 <= i < |name| ensures ' ' <= name[i] && name[i] as int != 127 {
        assert name[i] in name;
      }
    }
  }

  lemma GoesMeans(f: Folders, roots: map<string, string>, user: string, parent: string)
    ensures var p := ParentOf(roots, user, parent);
      if p.Some? && Belongs(f, p.value, user) then Goes(f, roots, user, parent, p.value)
      else forall place :: !Goes(f, roots, user, parent, place)
  {
  }

  // A folder is created exactly for a proper name, below a folder of the user, and under a legacy id that is
  // well formed and none of the user's folders has.
  lemma CreatesFolder(f: Folders, roots: map<string, string>, user: string, parent: string, name: string, legacyId: string)
    ensures CreateFolderRefusal(f, roots, user, parent, name, legacyId) == "" <==>
      && Nameable(name) && (legacyId == "" || Grouped(legacyId))
      && (exists place :: Goes(f, roots, user, parent, place))
      && (legacyId == "" || forall id :: id in f && f[id].owner == user ==> f[id].legacyId != legacyId)
    ensures CreateFolderRefusal(f, roots, user, parent, name, legacyId) == "" ==>
      Goes(f, roots, user, parent, ParentOf(roots, user, parent).value)
  {
    NameableMeans(name);
    LegacyIdMeans(legacyId);
    GoesMeans(f, roots, user, parent);
  }

  // So is an item, which needs an asset too.
  lemma CreatesItem(
    f: Folders, items: Items, roots: map<string, string>, user: string, parent: string, asset: string, name: string,
    legacyId: string)
    ensures CreateItemRefusal(f, items, roots, user, parent, asset, name, legacyId) == "" <==>
      && asset != "" && Nameable(name) && (legacyId == "" || Grouped(legacyId))
      && (exists place :: Goes(f, roots, user, parent, place))
      && (legacyId == "" || forall id :: id in items && items[id].owner == user ==> items[id].legacyId != legacyId)
    ensures CreateItemRefusal(f, items, roots, user, parent, asset, name, legacyId) == "" ==>
      Goes(f, roots, user, parent, ParentOf(roots, user, parent).value)
  {
    NameableMeans(name);
    LegacyIdMeans(legacyId);
    GoesMeans(f, roots, user, parent);
  }

  // A folder is moved exactly when it is the user's and no root, below a folder of the user that is neither
  // the folder itself nor below it.
  lemma MovesFolder(f: Folders, user: string, id: string, parent: string)
    ensures MoveFolderRefusal(f, user, id, parent) == "" <==>
      && id in f && f[id].owner == user && f[id].parent != ""
      && parent in f && f[parent].owner == user && parent != id && !Under(f, id, parent)
  {
    UnderStep(f, id, id);
  }

  // An item is moved, when it is the user's, below any folder of the user.
  lemma MovesItem(f: Folders, items: Items, user: string, id: string, parent: string)
    ensures MoveItemRefusal(f, items, user, id, parent) == "" <==>
      id in items && items[id].owner == user && parent in f && f[parent].owner == user
  {
  }

  // An item under a folder belongs to the folder's owner.
  lemma SameOwner(f: Folders, items: Items, roots: map<string, string>, folder: string, i: string)
    requires WellFormed(f, items, roots) && folder in f && i in items
    ensures Under(f, folder, items[i].parent) ==> items[i].owner == f[folder].owner
  {
    var rank: map<string, nat> :| Ranked(f, rank);
    assert ItemOk(f, items[i]);
    if Under(f, folder, items[i].parent) {
      UnderOwner(f, roots, rank, folder, items[i].parent);
    }
  }

  lemma {:induction false} UnderOwner(f: Folders, roots: map<string, string>, rank: map<string, nat>, a: string, x: string)
    requires Rooted(f, roots) && Ranked(f, rank) && a in f && x in f && Under(f, a, x)
    ensures f[x].owner == f[a].owner
    decreases rank[x]
  {
    assert Linked(f, roots, x) && Above(f, rank, x);
    UnderStep(f, a, x);
    if x != a {
      UnderStep(f, a, f[x].parent);
      UnderOwner(f, roots, rank, a, f[x].parent);
    }
  }

  // x is under a child of `folder` among the ones already walked.
  ghost predicate BelowOneOf(f: Folders, folder: string, done: set<string>, x: string) {
    x in f && exists c :: c in done && c in f && f[c].parent == folder && Under(f, c, x)
  }

  lemma BelowAll(f: Folders, rank: map<string, nat>, folder: string, x: string)
    requires Ranked(f, rank) && folder in f
    ensures BelowOneOf(f, folder, f.Keys, x) <==> x in f && x != folder && Under(f, folder, x)
  {
    if x in f && x != folder && Under(f, folder, x) {
      var c := BelowChild(f, rank, folder, x);
    }
    if BelowOneOf(f, folder, f.Keys, x) {
      var c :| c in f && f[c].parent == folder && Under(f, c, x);
      assert Above(f, rank, c);
      UnderStep(f, folder, c);
      UnderStep(f, folder, folder);
      UnderTrans(f, rank, folder, c, x);
      UnderRank(f, rank, c, x);
    }
  }

  // One more child and what is below it.
  lemma Joined(
    f: Folders, rank: map<string, nat>, folder: string, done: set<string>, id: string,
    output: seq<string>, below: seq<string>)
    requires Ranked(f, rank) && folder in f && id in f && id !in done && f[id].parent == folder
    requires Distinct(output) && Distinct(below)
    requires forall x :: x in output <==> BelowOneOf(f, folder, done, x)
    requires forall x :: x in below <==> x in f && x != id && Under(f, id, x)
    ensures Distinct(output + [id] + below)
    ensures forall x :: x in output + [id] + below <==> BelowOneOf(f, folder, done + {id}, x)
  {
    UnderStep(f, id, id);
    forall x | x in f && Under(f, id, x) ensures x !in output {
      if x in output {
        var c :| c in done && c in f && f[c].parent == folder && Under(f, c, x);
        SiblingsApart(f, rank, c, id, x);
      }
    }
    assert forall x :: x in output + [id] + below <==> x in output || x == id || x in below;
    DistinctJoin(output, id, below);
  }

  lemma DistinctJoin(output: seq<string>, id: string, below: seq<string>)
    requires Distinct(output) && Distinct(below) && id !in output && id !in below
    requires forall x :: x in below ==> x !in output
    ensures Distinct(output + [id] + below)
  {
    DistinctConcat(output, [id]);
    DistinctConcat(output + [id], below);
  }

  lemma DistinctConcat(a: seq<string>, b: seq<string>)
    requires Distinct(a) && Distinct(b) && forall x :: x in a ==> x !in b
    ensures Distinct(a + b)
  {
    forall i, j | 0 <= i < j < |a + b| ensures (a + b)[i] != (a + b)[j] {
      if i < |a| <= j {
        assert (a + b)[i] == a[i] && a[i] in a && (a + b)[j] == b[j - |a|] && b[j - |a|] in b;
      }
    }
  }

  lemma SubsetSize(a: set<string>, b: set<string>)
    requires a <= b
    ensures |a| <= |b|
    decreases |a|
  {
    if x :| x in a {
      SubsetSize(a - {x}, b - {x});
    }
  }
}