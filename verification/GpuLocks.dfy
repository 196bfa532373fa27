/** The lock files under the GPU lock directory, as the kernel sees them.

    Every attempt opens the file anew, so a lock belongs to a descriptor and not to a
    process: closing a descriptor drops whatever it holds, and a closed descriptor can
    neither lock nor unlock. */
module GpuLocks {
  type Gpu = int

  /** A descriptor of this server, or some other process holding a lock file. */
  datatype Handle = Mine(fd: nat) | Outside(pid: nat)

  /** `owner` says who holds the lock of each file; `open` says which file each of this
      server's open descriptors was opened on; `next` has never been a descriptor. */
  datatype LockTable = LockTable(owner: map<Gpu, Handle>, open: map<nat, Gpu>, next: nat)

  const NoLocks := LockTable(map[], map[], 0)

  ghost predicate Consistent(t: LockTable) {
    && (forall g :: g in t.owner && t.owner[g].Mine? ==> t.owner[g].fd in t.open && t.open[t.owner[g].fd] == g)
    && (forall fd :: fd in t.open ==> fd < t.next)
  }

  function Open(t: LockTable, g: Gpu): LockTable {
    t.(open := t.open[t.next := g], next := t.next + 1)
  }

  /** flock(LOCK_EX | LOCK_NB): blocked when anybody holds the file. */
  predicate Blocked(t: LockTable, g: Gpu) {
    g in t.owner
  }

  function Lock(t: LockTable, g: Gpu, fd: nat): LockTable
    requires !Blocked(t, g)
  {
    t.(owner := t.owner[g := Mine(fd)])
  }

  /** flock(LOCK_UN); on a closed descriptor it raises, and its callers swallow the error. */
  function Unlock(t: LockTable, fd: nat): LockTable {
    if fd in t.open then t.(owner := map g | g in t.owner && t.owner[g] != Mine(fd) :: t.owner[g]) else t
  }

  /** close(): drops the lock as well, and is a no-op the second time. */
  function Close(t: LockTable, fd: nat): LockTable {
    var u := Unlock(t, fd);
    u.(open := u.open - {fd})
  }

  /** The net effect of closing several descriptors, in whatever order. */
  function CloseAll(t: LockTable, fds: set<nat>): LockTable {
    t.(owner := map g | g in t.owner && !(t.owner[g].Mine? && t.owner[g].fd in fds && t.owner[g].fd in t.open) ::
        t.owner[g],
       open := t.open - fds)
  }

  lemma CloseOneMore(t: LockTable, fds: set<nat>, fd: nat)
    ensures Close(CloseAll(t, fds), fd) == CloseAll(t, fds + {fd})
  {
    var a, b := Close(CloseAll(t, fds), fd), CloseAll(t, fds + {fd});
    assert a.open == b.open;
    assert a.owner == b.owner;
  }
}
