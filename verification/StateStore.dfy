/** The state directory as the agent drives it: each step may fail, and nothing follows a failed step. */
module StateStore {
  import opened Bytes
  import opened Rotation
  import opened Preimages
  import opened FileSystem

  function Least(a: nat, b: nat): nat { if a < b then a else b }

  /** `budget` is how many more steps the file system performs before one fails. */
  datatype View = View(disk: Disk, budget: nat, failed: bool)

  /** `d` is `e` with some staging directories removed. */
  predicate Cleared(d: Disk, e: Disk) {
    && d == e.(staging := d.staging)
    && forall r :: r in d.staging ==> r in e.staging && d.staging[r] == e.staging[r]
  }

  /** Staging is looked at by no interruption and by no start. */
  lemma ClearedInterrupts(d: Disk, e: Disk, f: Disk)
    requires Cleared(d, e)
    ensures Interrupts(d, f) <==> Interrupts(e, f)
  {}

  /** The steps were performed in order, all of them unless one failed; after a failure staging may have been cleared. */
  predicate Ran(before: View, actions: seq<Action>, after: View, ok: bool) {
    && Cleared(after.disk, PerformAll(before.disk, actions[..Least(before.budget, |actions|)]))
    && (ok ==> after.disk == PerformAll(before.disk, actions))
    && after.budget == before.budget - Least(before.budget, |actions|)
    && after.failed == (before.failed || !ok)
    && (ok <==> |actions| <= before.budget)
  }

  lemma RanNothing(v: View)
    ensures Ran(v, [], v, true)
  {}

  /** A failed first part is a failed whole; after a whole first part the second decides. */
  lemma RanBoth(x: View, a: seq<Action>, y: View, first: bool, b: seq<Action>, z: View, second: bool)
    requires Ran(x, a, y, first) && (if first then Ran(y, b, z, second) else z == y && !second)
    ensures Ran(x, a + b, z, second)
  {
    hide PerformAll;
    var n := Least(x.budget, |a + b|);
    if first {
      assert a[..|a|] == a;
      assert (a + b)[..n] == a + b[..n - |a|];
      PerformAppend(x.disk, a, b);
      PerformAppend(x.disk, a, b[..n - |a|]);
    } else {
      assert (a + b)[..n] == a[..n];
    }
  }

  class Store {
    var disk: Disk
    var budget: nat
    var failed: bool

    ghost function Seen(): View
      reads this
    {
      View(disk, budget, failed)
    }

    constructor (d: Disk, steps: nat)
      ensures Seen() == View(d, steps, false)
    {
      disk, budget, failed := d, steps, false;
    }

    method Act(a: Action) returns (ok: bool)
      modifies this
      ensures ok <==> old(budget) > 0
      ensures Seen() == if ok then View(Perform(old(disk), a), old(budget) - 1, old(failed)) else View(old(disk), 0, true)
    {
      if budget == 0 {
        failed := true;
        return false;
      }
      disk := Perform(disk, a);
      budget := budget - 1;
      return true;
    }

    method ActAll(actions: seq<Action>) returns (ok: bool)
      modifies this
      ensures Ran(old(Seen()), actions, Seen(), ok)
    {
      var i := 0;
      while i < |actions|
        invariant 0 <= i <= |actions| && i <= old(budget)
        invariant disk == PerformAll(old(disk), actions[..i])
        invariant budget == old(budget) - i && failed == old(failed)
      {
        ok := Act(actions[i]);
        if !ok { return; }
        assert actions[..i + 1][..i] == actions[..i];
        i := i + 1;
      }
      assert actions[..|actions|] == actions;
      return true;
    }

    /** `remove_dir_all`, whose own failure is ignored. */
    method ClearStaging(revision: u64)
      modifies this`disk
      ensures Cleared(disk, old(disk))
    {
      var removed: bool := *;
      if revision in disk.staging && removed {
        disk := disk.(staging := disk.staging - {revision});
      }
    }

    /** `install_revision`: an existing directory is compared, and neither written nor synced. */
    method InstallRevision(revision: u64, m: Material) returns (ok: bool)
      modifies this
      ensures if Installs(old(disk), revision, m) then Ran(old(Seen()), InstallActions(old(disk), revision, m), Seen(), ok)
              else !ok && Seen() == old(Seen()).(failed := true)
    {
      if revision in disk.revisions {
        var folder := disk.revisions[revision];
        if folder.ca != Whole(m.ca) || folder.certificate != Whole(m.certificate) || folder.privateKey != Whole(m.privateKey) {
          failed := true;
          return false;
        }
        RanNothing(Seen());
        return true;
      }
      ghost var x, actions := Seen(), InstallActions(disk, revision, m);
      var first, rest := [RemoveStaging(revision), CreateStaging(revision)],
                         [WriteCa(revision, m.ca), WriteCertificate(revision, m.certificate), WritePrivateKey(revision, m.privateKey),
                          SyncStaging(revision), RenameStaging(revision), SyncCredentials];
      assert actions == first + rest;
      ok := ActAll(first);
      ghost var y, created := Seen(), ok;
      if ok {
        ok := ActAll(rest);
        if !ok { ClearStaging(revision); }
      }
      RanBoth(x, first, y, created, rest, Seen(), ok);
    }

    /** `persist`: the temporary file is written whole and renamed over the manifest. */
    method PersistManifest(s: State) returns (ok: bool)
      modifies this
      ensures Ran(old(Seen()), PersistActions(s), Seen(), ok)
    {
      ok := ActAll(PersistActions(s));
    }
  }
}
