/**
 * Directory trees of the snapshot and the restoration
 * (windows/updater/worker_main.cpp): copying, deleting, verifying and restoring,
 * each of which may stop after any number of file operations.
 */
module Trees {
  import opened Common

  /** What the inventory records of a file. */
  datatype Entry = Entry(sha256: Digest, size: nat)

  type Inventory = map<string, Entry>

  /**
   * When a call stops early: never, or after `count` file operations, where a
   * file being copied is left with contents `torn`.
   */
  datatype Fault = Never | After(count: nat, torn: Blob)

  datatype Outcome = Done | Stopped | Failed(reason: string)

  /** The regular files below one root, by relative path. */
  class Directory {
    var files: Tree

    constructor (files: Tree)
      ensures this.files == files
    {
      this.files := files;
    }
  }

  predicate FileMatches(tree: Tree, path: string, entry: Entry) {
    path in tree && |tree[path]| == entry.size && Sha256(tree[path]) == entry.sha256
  }

  /** What `verify_tree` establishes: every inventoried file is there, unchanged. */
  predicate Verified(tree: Tree, inventory: Inventory) {
    forall path | path in inventory :: FileMatches(tree, path, inventory[path])
  }

  function InventoryOf(tree: Tree): Inventory {
    map path | path in tree :: EntryOf(tree[path])
  }

  /** The call stops at operation number `done`. */
  predicate Stops(fault: Fault, done: nat) {
    fault.After? && done >= fault.count
  }

  /**
   * `copy_tree`: every file of `source` in directory order, refusing to
   * overwrite, with an inventory of the copies.
   */
  method CopyTree(source: Directory, target: Directory, fault: Fault) returns (outcome: Outcome, inventory: Inventory)
    requires source != target
    modifies target
    ensures outcome.Done? ==>
      && target.files == old(target.files) + source.files
      && inventory == InventoryOf(source.files)
    ensures outcome.Failed? <==> outcome == Failed("snapshot_copy_failed")
    ensures outcome.Failed? ==> source.files.Keys * old(target.files.Keys) != {}
    ensures source.files.Keys * old(target.files.Keys) != {} ==> !outcome.Done?
    ensures outcome.Stopped? ==> fault.After?
    ensures Extends(old(target.files), target.files, source.files.Keys)
  {
    inventory := map[];
    var todo, copied := source.files.Keys, 0;
    ghost var base := target.files;
    while todo != {}
      invariant todo <= source.files.Keys
      invariant target.files == WithCopies(base, source.files, todo)
      invariant inventory == InventoryOf(WithCopies(map[], source.files, todo))
      invariant (source.files.Keys - todo) !! base.Keys
      decreases |todo|
    {
      var path :| path in todo;
      CopiesExtend(base, source.files, todo);
      if path in target.files {
        CopyCollides(base, source.files, todo, path);
        return Failed("snapshot_copy_failed"), inventory;
      }
      if Stops(fault, copied) {
        target.files := target.files[path := fault.torn];
        return Stopped, inventory;
      }
      OneMoreCopy(base, source.files, todo, path);
      OneMoreEntry(WithCopies(map[], source.files, todo), path, source.files[path]);
      OneMoreCopy(map[], source.files, todo, path);
      target.files := target.files[path := source.files[path]];
      inventory := inventory[path := EntryOf(target.files[path])];
      copied := copied + 1;
      todo := todo - {path};
    }
    AllCopied(base, source.files);
    outcome := Done;
  }

  function EntryOf(content: Blob): Entry {
    Entry(Sha256(content), |content|)
  }

  /** `tree` is `base` with files added at some of `paths`. */
  ghost predicate Extends(base: Tree, tree: Tree, paths: set<string>) {
    && base.Keys <= tree.Keys <= base.Keys + paths
    && forall path | path in base :: tree[path] == base[path]
  }

  /** The target once everything but `todo` is copied. */
  ghost function WithCopies(base: Tree, source: Tree, todo: set<string>): Tree {
    base + (map path | path in source && path !in todo :: source[path])
  }

  lemma OneMoreCopy(base: Tree, source: Tree, todo: set<string>, path: string)
    requires path in source && path in todo
    ensures WithCopies(base, source, todo)[path := source[path]] == WithCopies(base, source, todo - {path})
  {
  }

  lemma OneMoreEntry(tree: Tree, path: string, content: Blob)
    ensures InventoryOf(tree)[path := EntryOf(content)] == InventoryOf(tree[path := content])
  {
  }

  lemma CopiesExtend(base: Tree, source: Tree, todo: set<string>)
    requires (source.Keys - todo) !! base.Keys
    ensures Extends(base, WithCopies(base, source, todo), source.Keys)
  {
  }

  lemma AllCopied(base: Tree, source: Tree)
    requires source.Keys !! base.Keys
    ensures WithCopies(base, source, {}) == base + source && WithCopies(map[], source, {}) == source
    ensures Extends(base, base + source, source.Keys)
  {
  }

  lemma CopyCollides(base: Tree, source: Tree, todo: set<string>, path: string)
    requires path in todo && path in source && path in WithCopies(base, source, todo)
    ensures path in source.Keys * base.Keys
  {
  }

  /** `delete_contents`: every object below the root, one at a time. */
  method DeleteContents(target: Directory, fault: Fault) returns (outcome: Outcome)
    modifies target
    ensures outcome.Done? || outcome.Stopped?
    ensures outcome.Done? ==> target.files == map[]
    ensures outcome.Stopped? ==> fault.After?
    ensures target.files.Keys <= old(target.files.Keys)
    ensures forall path | path in target.files :: target.files[path] == old(target.files)[path]
  {
    outcome := Done;
    var deleted := 0;
    while target.files.Keys != {} && outcome.Done?
      invariant outcome.Done? || outcome.Stopped?
      invariant outcome.Stopped? ==> fault.After?
      invariant target.files.Keys <= old(target.files.Keys)
      invariant forall path | path in target.files :: target.files[path] == old(target.files)[path]
      decreases |target.files.Keys|, outcome.Done?
    {
      if Stops(fault, deleted) {
        outcome := Stopped;
      } else {
        var path :| path in target.files.Keys;
        ghost var before := target.files.Keys;
        target.files := target.files - {path};
        assert target.files.Keys == before - {path};
        deleted := deleted + 1;
      }
    }
  }

  /** `verify_tree`: the first missing or changed file is an error. */
  method VerifyTree(directory: Directory, inventory: Inventory) returns (outcome: Outcome)
    ensures outcome == if Verified(directory.files, inventory) then Done else Failed("snapshot_hash_mismatch")
  {
    var todo := inventory.Keys;
    while todo != {}
      invariant todo <= inventory.Keys
      invariant forall path | path in inventory.Keys - todo :: FileMatches(directory.files, path, inventory[path])
      decreases |todo|
    {
      var path :| path in todo;
      if !FileMatches(directory.files, path, inventory[path]) {
        return Failed("snapshot_hash_mismatch");
      }
      todo := todo - {path};
    }
    return Done;
  }

  /**
   * `restore_tree`. A damaged snapshot or a foreign destination is refused
   * before anything is deleted; success means that the target is the source,
   * file for file; and an uninterrupted call on an intact snapshot succeeds
   * whatever the target held.
   */
  method RestoreTree(source: Directory, target: Directory, inventory: Inventory, allowed: bool, deleting: Fault,
    copying: Fault)
    returns (outcome: Outcome)
    requires source != target
    modifies target
    ensures outcome.Done? ==> target.files == source.files
    ensures outcome.Failed? <==> !allowed || !Verified(source.files, inventory)
    ensures outcome.Failed? ==> target.files == old(target.files)
    ensures outcome.Stopped? ==> deleting.After? || copying.After?
  {
    outcome := VerifyTree(source, inventory);
    if !outcome.Done? {
      return;
    }
    if !allowed {
      return Failed("restore_destination_rejected");
    }
    outcome := DeleteContents(target, deleting);
    if !outcome.Done? {
      return;
    }
    var ignored;
    outcome, ignored := CopyTree(source, target, copying);
    if !outcome.Done? {
      return;
    }
    assert target.files == source.files;
    outcome := VerifyTree(target, inventory);
  }

  /** How far one recovery worker gets with the deletion and the copy. */
  datatype Attempt = Attempt(deleting: Fault, copying: Fault)

  /**
   * Any number of recovery workers, each dying anywhere. The source is never
   * changed, so the first attempt that is not interrupted restores it, whatever
   * the earlier ones left behind.
   */
  method RestoreRepeatedly(source: Directory, target: Directory, inventory: Inventory, attempts: seq<Attempt>)
    returns (outcome: Outcome)
    requires source != target
    modifies target
    ensures outcome.Done? ==> target.files == source.files
    ensures outcome.Failed? <==> attempts != [] && !Verified(source.files, inventory)
    ensures outcome.Failed? ==> target.files == old(target.files)
    ensures Verified(source.files, inventory) && Attempt(Never, Never) in attempts ==> outcome.Done?
  {
    outcome := Stopped;
    for i := 0 to |attempts|
      invariant outcome.Stopped?
      invariant i > 0 ==> Verified(source.files, inventory)
      invariant i == 0 ==> target.files == old(target.files)
      invariant Attempt(Never, Never) !in attempts[..i]
    {
      outcome := RestoreTree(source, target, inventory, true, attempts[i].deleting, attempts[i].copying);
      if !outcome.Stopped? {
        return;
      }
    }
  }

  // ----- snapshots -----

  /** The copying part of `snapshot`, verified before it counts as complete. */
  method TakeSnapshot(source: Directory, backup: Directory, fault: Fault)
    returns (outcome: Outcome, inventory: Inventory)
    requires source != backup
    modifies backup
    ensures outcome.Done? ==> backup.files == old(backup.files) + source.files && inventory == InventoryOf(source.files)
    ensures outcome.Stopped? ==> fault.After?
    ensures outcome.Failed? ==> source.files.Keys * old(backup.files.Keys) != {}
  {
    outcome, inventory := CopyTree(source, backup, fault);
    if outcome.Done? {
      VerifiedIffContains(backup.files, source.files);
      outcome := VerifyTree(backup, inventory);
    }
  }

  /**
   * The whole life of a failed update as far as one tree is concerned: the
   * snapshot, whatever the setup program and the new release write, and a
   * restoration interrupted any number of times.
   */
  method SnapshotAndRollback(live: Directory, backup: Directory, written: Tree, attempts: seq<Attempt>)
    returns (outcome: Outcome)
    requires live != backup
    modifies live, backup
    ensures outcome.Done? && old(backup.files) == map[] ==> live.files == old(live.files)
    ensures old(backup.files) == map[] && Attempt(Never, Never) in attempts ==> outcome.Done?
  {
    var inventory;
    outcome, inventory := TakeSnapshot(live, backup, Never);
    if !outcome.Done? {
      return;
    }
    VerifiedIffContains(backup.files, live.files);
    assert old(backup.files) == map[] ==> backup.files == old(live.files);
    live.files := written;
    outcome := RestoreRepeatedly(backup, live, inventory, attempts);
  }

  /** The verification against an inventory is blind to additional files and to nothing else. */
  lemma VerifiedIffContains(tree: Tree, original: Tree)
    ensures Verified(tree, InventoryOf(original)) <==>
      original.Keys <= tree.Keys && forall path | path in original :: tree[path] == original[path]
  {
    var inventory := InventoryOf(original);
    if Verified(tree, inventory) {
      forall path | path in original
        ensures path in tree && tree[path] == original[path]
      {
        assert FileMatches(tree, path, inventory[path]);
      }
    }
  }

  /** A snapshot that passes the verification is the original exactly when no file was added to it. */
  lemma VerifiedSnapshotIsExact(tree: Tree, original: Tree)
    requires Verified(tree, InventoryOf(original))
    ensures tree == original <==> tree.Keys <= original.Keys
  {
    VerifiedIffContains(tree, original);
  }
}
