/** What a call answers: what its host and the store are left with, from any world in which
    nobody is in the middle of something. */
module CheckpointAnswers {
  import opened Options
  import opened P = CheckpointProtocol
  import R = CheckpointRuns

  /** The host knows the session, holds exactly the stored tree and knows which version it is. */
  predicate HoldsStored(w: World, host: Host) {
    w.cell.Some? && host.known && host.tree == Some(w.cell.value.tree) && host.sync == Some(w.cell.value.stamp)
  }

  /** The host recorded a version older than the stored one. */
  predicate Behind(w: World, host: Host) {
    host.known && host.sync.Some? && w.cell.Some? && host.sync.value < w.cell.value.stamp
  }

  /** A successful resume leaves the host with what is stored if and only if the session was
      unknown, had no worktree, or was seen to be behind, or the host held just that already;
      in no other case does it change anything. */
  lemma RestoreHoldsStoredIff(w: World, h: HostId, answered: bool)
    requires R.Resting(w) && w.cell.Some?
    ensures var host, w' := At(w, h), R.Do(w, R.Restore(h, answered, Ok));
      var needed := !host.known || host.tree.None? || (answered && Behind(w, host));
      && (HoldsStored(w', At(w', h)) <==> needed || HoldsStored(w, host))
      && (!needed ==> w' == w)
      && w'.cell == w.cell && w'.log == w.log
      && forall k :: k != h ==> At(w', k) == At(w, k)
  {
    var host := At(w, h);
    var resumed := P.Do(w, ResumeHead(h, answered));
    if host.known && host.tree.Some? && !(answered && Behind(w, host)) {
      assert resumed == w;
    } else {
      assert At(resumed, h).op.Restoring?;
    }
  }

  /** A resume whose download fails records nothing; the worktree of a host that was seen to be
      behind is gone by then, and so is one that the archive failed to fill. */
  lemma FailedRestoreRecordsNothing(w: World, h: HostId, answered: bool, outcome: Outcome)
    requires R.Resting(w) && w.cell.Some? && !outcome.Ok?
    ensures var host, w' := At(w, h), R.Do(w, R.Restore(h, answered, outcome));
      var host' := At(w', h);
      && host'.known == host.known && host'.sync == host.sync && w'.cell == w.cell && w'.log == w.log
      && (host'.tree == host.tree || host'.tree.None?)
      && (host'.tree.None? <==>
            || host.tree.None? || (answered && Behind(w, host)) || (!host.known && outcome.ArchiveFails?))
  {
    var resumed := P.Do(w, ResumeHead(h, answered));
    var host := At(w, h);
    if host.known && host.tree.Some? && !(answered && Behind(w, host)) {
      assert resumed == w;
    }
  }

  /** An upload that succeeds puts the host's own tree in the store, as the newest version,
      and the host records that version's timestamp; it happens if and only if the session is
      known, has a worktree and was not seen to be behind.  Otherwise nothing changes. */
  lemma SyncStoresIff(w: World, h: HostId, answered: bool, gap: nat, ok: bool)
    requires R.Resting(w)
    ensures var host, w' := At(w, h), R.Do(w, R.Sync(h, answered, gap, ok));
      var uploads := ok && host.known && host.tree.Some? && !(answered && Behind(w, host));
      && (uploads ==>
            && w'.cell.Some? && w'.cell.value.tree == host.tree.value && w'.cell.value.meta == host.sync
            && (w.cell.Some? ==> w.cell.value.stamp < w'.cell.value.stamp)
            && w'.log == w.log + [w'.cell.value]
            && At(w', h) == host.(sync := Some(w'.cell.value.stamp)))
      && (!uploads ==> w'.cell == w.cell && w'.log == w.log && At(w', h) == host)
      && forall k :: k != h ==> At(w', k) == At(w, k)
  {
    var host := At(w, h);
    var cleared := P.Do(w, Head(h, answered));
    if !host.known || (answered && Behind(w, host)) {
      assert cleared == w;
    }
  }

  /** Right after a resume that brought the stored version, an answered upload goes through. */
  lemma UploadAfterRestore(w: World, h: HostId, gap: nat)
    requires R.Resting(w) && w.cell.Some?
    requires HoldsStored(R.Do(w, R.Restore(h, true, Ok)), At(R.Do(w, R.Restore(h, true, Ok)), h))
    ensures var w1 := R.Do(w, R.Restore(h, true, Ok));
      var w2 := R.Do(w1, R.Sync(h, true, gap, true));
      w2.cell.Some? && w2.cell.value.tree == w.cell.value.tree && |w2.log| == |w.log| + 1
  {
    var w1 := R.Do(w, R.Restore(h, true, Ok));
    RestoreHoldsStoredIff(w, h, true);
    RestRestores(w, h);
    SyncStoresIff(w1, h, true, gap, true);
  }

  lemma RestRestores(w: World, h: HostId)
    requires R.Resting(w) && w.cell.Some?
    ensures R.Resting(R.Do(w, R.Restore(h, true, Ok)))
  {
    var w' := R.Do(w, R.Restore(h, true, Ok));
    RestoreHoldsStoredIff(w, h, true);
    R.RestoreEndsAtRest(w, h, true, Ok);
    forall k | k in w'.hosts ensures w'.hosts[k].op.Idle? {
      if k != h { assert At(w', k) == At(w, k); }
    }
  }

  /** Discovery takes over the stored copy of the metadata exactly when the session is unknown
      or the copy's timestamp is later than the recorded one; a known session then loses its
      worktree, an unknown one keeps what is on disk. */
  lemma DiscoverAdoptsIff(w: World, h: HostId)
    requires R.Resting(w) && w.cell.Some?
    ensures var host, host', meta := At(w, h), At(R.Do(w, R.Discover(h)), h), w.cell.value.meta;
      var adopts := !host.known || OrZero(meta) > OrZero(host.sync);
      && (adopts ==> host'.known && host'.sync == meta && host'.tree == if host.known then None else host.tree)
      && (!adopts ==> host' == host)
      && R.Do(w, R.Discover(h)).cell == w.cell
  {
    var read := P.Do(w, ReadMetadata(h));
    assert At(read, h).op == Imported(w.cell.value.meta);
  }
}
