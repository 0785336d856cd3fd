/**
 * Resumable publication of a release (tool/release/publish_release.py): a run
 * tags the source, pushes the tag, drafts a release, uploads two assets, checks
 * them and makes the release public, and may be interrupted before any of these.
 */
module Publish {
  import opened Common

  /** A commit and its tracked source, the feed file aside. */
  datatype Commit = Commit(id: nat, source: int)

  /** A signed manifest names the installer's digest and the commit it was built from. */
  datatype Manifest = Manifest(signed: bool, installer: Digest, commit: Commit)
  datatype Assets = Assets(installer: Blob, manifest: Manifest)

  /** What the release page holds; an interrupted upload may leave either asset missing. */
  datatype Uploaded = Uploaded(installer: Option<Blob>, manifest: Option<Manifest>)

  datatype Release = Release(draft: bool, prerelease: bool, assets: Uploaded)

  /** The tag in this clone, the tag in the remote repository, and the release that belongs to it. */
  datatype Site = Site(local: Option<Commit>, remote: Option<Commit>, release: Option<Release>)

  /**
   * What one run finds and meets: its checkout, the result of the changelog
   * check, the channel, the local artifacts, what the server stores for them,
   * how many of its commands take effect, and what is left of an upload that is
   * interrupted.
   */
  datatype Run = Run(
    head: Commit, source: int, clean: bool, changelog: bool, beta: bool,
    artifacts: Assets, stored: Assets, budget: nat, torn: Uploaded)

  datatype Outcome = Published | Kept | Refused(reason: string) | Interrupted

  /** `verify_assets`: signature, digest and source commit. */
  predicate Verifies(a: Assets, commit: Commit) {
    a.manifest.signed && a.manifest.installer == Sha256(a.installer) && a.manifest.commit == commit
  }

  function Both(a: Assets): Uploaded {
    Uploaded(Some(a.installer), Some(a.manifest))
  }

  predicate UploadedVerifies(u: Uploaded, commit: Commit) {
    u.installer.Some? && u.manifest.Some? && Verifies(Assets(u.installer.value, u.manifest.value), commit)
  }

  predicate Public(site: Site) {
    site.release.Some? && !site.release.value.draft
  }

  // ----- one run as a function -----

  /** The commit the artifacts must be bound to: the tag of this clone, or its head. */
  function Chosen(site: Site, run: Run): Commit {
    if site.local.Some? then site.local.value else run.head
  }

  /** Everything checked before the first command with an effect. */
  function Checks(site: Site, run: Run): Option<string> {
    if !run.changelog then Some("changelog")
    else if site.local.Some? && site.local.value.source != run.source then Some("tag belongs to different source")
    else if !Verifies(run.artifacts, Chosen(site, run)) then Some("local assets")
    else if site.release.Some? && site.release.value.prerelease != run.beta then Some("prerelease status")
    else None
  }

  /** Where a run stands between two commands. */
  datatype Progress = Going(site: Site, left: nat) | Ended(site: Site, outcome: Outcome)

  function Tagged(site: Site, run: Run): Progress {
    if site.local.Some? then Going(site, run.budget)
    else if !run.clean then Ended(site, Refused("uncommitted changes"))
    else if run.budget == 0 then Ended(site, Interrupted)
    else Going(site.(local := Some(run.head)), run.budget - 1)
  }

  /** A push without force is rejected when the remote tag is another commit. */
  function Pushed(site: Site, left: nat): Progress {
    if left == 0 then Ended(site, Interrupted)
    else if site.remote.Some? && site.remote != site.local then Ended(site, Refused("push"))
    else Going(site.(remote := site.local), left - 1)
  }

  /** `--verify-tag`: no release without the tag in the remote repository. */
  function Drafted(site: Site, run: Run, left: nat): Progress {
    if site.release.Some? then Going(site, left)
    else if left == 0 then Ended(site, Interrupted)
    else if site.remote.None? then Ended(site, Refused("release create"))
    else Going(site.(release := Some(Release(true, run.beta, Uploaded(None, None)))), left - 1)
  }

  function WithAssets(site: Site, u: Uploaded): Site
    requires site.release.Some?
  {
    site.(release := Some(site.release.value.(assets := u)))
  }

  /** The upload, the comparison of what the server returns with the local digests, and the final edit. */
  function Finished(site: Site, run: Run, left: nat): Progress
    requires site.release.Some?
  {
    if left == 0 then Ended(WithAssets(site, run.torn), Interrupted)
    else
      var full := WithAssets(site, Both(run.stored));
      if run.stored != run.artifacts then Ended(full, Refused("uploaded asset differs"))
      else if left == 1 then Ended(full, Interrupted)
      else Ended(full.(release := Some(full.release.value.(draft := false))), Published)
  }

  function Resume(site: Site, run: Run, left: nat): Progress {
    var drafted := Drafted(site, run, left);
    if drafted.Ended? then drafted else Finished(drafted.site, run, drafted.left)
  }

  function Perform(site: Site, run: Run): Progress {
    var refusal := Checks(site, run);
    if refusal.Some? then Ended(site, Refused(refusal.value))
    else if Public(site) then
      if site.local.None? then Ended(site, Refused("fetch tags"))
      else if UploadedVerifies(site.release.value.assets, Chosen(site, run)) then Ended(site, Kept)
      else Ended(site, Refused("published assets"))
    else
      var tagged := Tagged(site, run);
      if tagged.Ended? then tagged
      else if site.local.Some? then Resume(tagged.site, run, tagged.left)
      else
        var pushed := Pushed(tagged.site, tagged.left);
        if pushed.Ended? then pushed else Resume(pushed.site, run, pushed.left)
  }

  // ----- the same run, command by command -----

  class Publisher {
    var local: Option<Commit>
    var remote: Option<Commit>
    var release: Option<Release>

    function View(): Site
      reads this
    {
      Site(local, remote, release)
    }

    /** `publish`. */
    method Publish(run: Run) returns (outcome: Outcome)
      modifies this
      ensures Perform(old(View()), run) == Ended(View(), outcome)
      ensures old(remote).Some? ==> remote == old(remote)
      ensures Public(old(View())) ==> View() == old(View())
      ensures !Public(old(View())) && Public(View()) ==>
        release.value.assets == Both(run.artifacts) && Verifies(run.artifacts, Chosen(old(View()), run))
    {
      if !run.changelog {
        return Refused("changelog");
      }
      var existing := local;
      if existing.Some? && existing.value.source != run.source {
        return Refused("tag belongs to different source");
      }
      var commit := if existing.Some? then existing.value else run.head;
      if !Verifies(run.artifacts, commit) {
        return Refused("local assets");
      }
      var metadata := release;
      if metadata.Some? && metadata.value.prerelease != run.beta {
        return Refused("prerelease status");
      }
      if metadata.Some? && !metadata.value.draft {
        if existing.None? {
          return Refused("fetch tags");
        }
        return if UploadedVerifies(metadata.value.assets, commit) then Kept else Refused("published assets");
      }
      var left := run.budget;
      if existing.None? {
        if !run.clean {
          return Refused("uncommitted changes");
        }
        if left == 0 {
          return Interrupted;
        }
        local, left := Some(commit), left - 1;
        if left == 0 {
          return Interrupted;
        }
        if remote.Some? && remote != local {
          return Refused("push");
        }
        remote, left := local, left - 1;
      }
      if metadata.None? {
        if left == 0 {
          return Interrupted;
        }
        if remote.None? {
          return Refused("release create");
        }
        release, left := Some(Release(true, run.beta, Uploaded(None, None))), left - 1;
      }
      if left == 0 {
        release := Some(release.value.(assets := run.torn));
        return Interrupted;
      }
      release, left := Some(release.value.(assets := Both(run.stored))), left - 1;
      if run.stored != run.artifacts {
        return Refused("uploaded asset differs");
      }
      if left == 0 {
        return Interrupted;
      }
      release := Some(release.value.(draft := false));
      return Published;
    }
  }

  // ----- single runs -----

  function Next(site: Site, run: Run): Site {
    Perform(site, run).site
  }

  /** The remote tag never moves. */
  lemma TagNeverMoves(site: Site, run: Run)
    requires site.remote.Some?
    ensures Next(site, run).remote == site.remote
  {
  }

  /** Nothing about a public release ever changes. */
  lemma PublicNeverChanges(site: Site, run: Run)
    requires Public(site)
    ensures Next(site, run) == site
  {
  }

  /** This clone's tag, if it has one, is not another than the remote one. */
  predicate Agrees(site: Site) {
    site.local.Some? && site.remote.Some? ==> site.local == site.remote
  }

  /**
   * A release goes public only with the local artifacts, verified against the
   * chosen commit; that commit is the remote tag's exactly when the clone's tag
   * did not disagree.
   */
  lemma GoesPublicVerified(site: Site, run: Run)
    requires !Public(site) && Public(Next(site, run)) && (site.release.Some? ==> site.remote.Some?)
    ensures
      var after := Next(site, run);
      && after.release.value.assets == Both(run.artifacts) && Verifies(run.artifacts, Chosen(site, run))
      && (after.remote == Some(Chosen(site, run)) <==> Agrees(site))
  {
  }

  // ----- sequences of runs -----

  function After(site: Site, runs: seq<Run>): Site
    decreases |runs|
  {
    if runs == [] then site else After(Next(site, runs[0]), runs[1..])
  }

  /** The clone has the remote tag. */
  predicate Synced(site: Site) {
    site.remote.Some? ==> site.local == site.remote
  }

  /** A public release carries assets that verify against the commit of the remote tag. */
  predicate Bound(site: Site) {
    Public(site) ==> site.remote.Some? && UploadedVerifies(site.release.value.assets, site.remote.value)
  }

  predicate Consistent(site: Site) {
    site.release.Some? ==> site.remote.Some?
  }

  lemma RunKeeps(site: Site, run: Run)
    requires Consistent(site)
    ensures Consistent(Next(site, run))
    ensures Synced(site) ==> Synced(Next(site, run))
    ensures Synced(site) && Bound(site) ==> Bound(Next(site, run))
  {
  }

  lemma {:induction false} RunsKeep(site: Site, runs: seq<Run>)
    requires Consistent(site) && Synced(site) && Bound(site)
    ensures var after := After(site, runs); Consistent(after) && Synced(after) && Bound(after)
    decreases |runs|
  {
    if runs != [] {
      RunKeeps(site, runs[0]);
      RunsKeep(Next(site, runs[0]), runs[1..]);
    }
  }

  /** Over any sequence of runs the remote tag stays and a public release stays as it is. */
  lemma {:induction false} PublicationIsFinal(site: Site, runs: seq<Run>)
    ensures site.remote.Some? ==> After(site, runs).remote == site.remote
    ensures Public(site) ==> After(site, runs) == site
    decreases |runs|
  {
    if runs != [] {
      if site.remote.Some? {
        TagNeverMoves(site, runs[0]);
      }
      if Public(site) {
        PublicNeverChanges(site, runs[0]);
      }
      PublicationIsFinal(Next(site, runs[0]), runs[1..]);
    }
  }

  ghost predicate AlwaysBound(site: Site) {
    forall runs :: Bound(After(site, runs))
  }

  function SignedFor(commit: Commit): Assets {
    Assets([], Manifest(true, Sha256([]), commit))
  }

  /** An uninterrupted run from a clean checkout of `commit` with artifacts for it. */
  function Proper(commit: Commit, beta: bool): Run {
    Run(commit, commit.source, true, true, beta, SignedFor(commit), SignedFor(commit), 5, Uploaded(None, None))
  }

  function Channel(site: Site): bool {
    site.release.Some? && site.release.value.prerelease
  }

  /** A clone whose tag disagrees publishes under the other commit's tag. */
  lemma DisagreeingCloneMisbinds(site: Site)
    requires !Public(site) && site.local.Some? && site.remote.Some? && site.local != site.remote
    ensures !Bound(Next(site, Proper(site.local.value, Channel(site))))
  {
  }

  /** A clone without the remote tag keeps its own after the rejected push. */
  lemma RejectedPushLeavesTag(site: Site, commit: Commit)
    requires !Public(site) && site.local.None? && site.remote.Some? && site.remote != Some(commit)
    ensures Next(site, Proper(commit, Channel(site))) == site.(local := Some(commit))
  {
  }

  /**
   * For a release that is not public yet: no sequence of runs, interrupted
   * anywhere, ever publishes assets that are not bound to the remote tag if and
   * only if the clone has fetched the remote tag.
   */
  lemma AlwaysBoundIffSynced(site: Site)
    requires Consistent(site) && !Public(site)
    ensures AlwaysBound(site) <==> Synced(site)
  {
    if Synced(site) {
      forall runs
        ensures Bound(After(site, runs))
      {
        RunsKeep(site, runs);
      }
    } else {
      var beta := Channel(site);
      if site.local.Some? {
        var runs := [Proper(site.local.value, beta)];
        DisagreeingCloneMisbinds(site);
        assert After(site, runs) == Next(site, runs[0]);
      } else {
        var other := Commit(site.remote.value.id + 1, 0);
        var tagged := site.(local := Some(other));
        var runs := [Proper(other, beta), Proper(other, beta)];
        RejectedPushLeavesTag(site, other);
        DisagreeingCloneMisbinds(tagged);
        assert After(site, runs) == After(tagged, runs[1..]);
        assert After(tagged, runs[1..]) == Next(tagged, runs[1]);
      }
      assert !AlwaysBound(site);
    }
  }

  // ----- resuming -----

  /** Tagged in the clone and interrupted before the push. */
  predicate Stranded(site: Site) {
    site.local.Some? && site.remote.None? && site.release.None?
  }

  /**
   * Nothing the program does leads out of it: an existing tag is never pushed,
   * and no release is drafted without it.
   */
  lemma {:induction false} StrandedForever(site: Site, runs: seq<Run>)
    requires Stranded(site)
    ensures After(site, runs) == site
    decreases |runs|
  {
    if runs != [] {
      assert Next(site, runs[0]) == site;
      StrandedForever(site, runs[1..]);
    }
  }

  /** Artifacts, checkout and channel are right for the commit the run is about, and nothing interrupts it. */
  predicate WellPrepared(site: Site, run: Run) {
    && Checks(site, run).None? && run.clean && run.stored == run.artifacts && run.budget >= 5
  }

  /** The run has something to build on, whatever has been fetched. */
  predicate Finishable(site: Site, run: Run) {
    if Public(site) then site.local.Some? && UploadedVerifies(site.release.value.assets, site.local.value)
    else if site.local.Some? then site.remote.Some?
    else site.remote.None? || site.remote == Some(run.head)
  }

  /** From every consistent site, a well prepared run finishes or confirms the publication exactly then. */
  lemma FinishesIffFinishable(site: Site, run: Run)
    requires Consistent(site) && WellPrepared(site, run)
    ensures Perform(site, run) == Ended(Next(site, run), Published) || Perform(site, run) == Ended(site, Kept) <==>
      Finishable(site, run)
    ensures Finishable(site, run) ==> Public(Next(site, run))
  {
  }

  /** In a clone that has the remote tag, that is exactly when it is not stranded. */
  lemma ResumableIffNotStranded(site: Site, run: Run)
    requires Consistent(site) && Synced(site) && Bound(site) && WellPrepared(site, run)
    ensures Finishable(site, run) <==> !Stranded(site)
    ensures !Stranded(site) ==> Public(Next(site, run)) && Bound(Next(site, run))
  {
    RunKeeps(site, run);
    FinishesIffFinishable(site, run);
  }
}
