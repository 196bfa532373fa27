/** Why a lifecycle call may treat acquiring and releasing GPUs as one step each: seen from
    outside the suspended acquires, every step of the allocator - whoever makes it and
    whatever else is under way - changes nothing, or hands over one whole grant, or releases
    one session. */
module LifecycleGpus {
  import opened Options
  import opened GpuLocks
  import opened GpuAllocator
  import L = Lifecycle
  import M = SessionManager

  /** The entries no suspended call is still collecting. */
  function Settled(s: System): set<Key> {
    set k | k in s.shared.registry && s.shared.registry[k] !in WaitingFds(s)
  }

  function SettledGpus(s: System): set<Gpu> {
    set k | k in Settled(s) :: k.gpu
  }

  ghost function Owner(s: System, g: Gpu): SessionId
    requires g in SettledGpus(s)
  {
    var k :| k in Settled(s) && k.gpu == g; k.session
  }

  /** Who holds what, as the lifecycle calls see it. */
  ghost function Held(s: System): map<Gpu, SessionId> {
    map g | g in SettledGpus(s) :: Owner(s, g)
  }

  predicate Gives(held: map<Gpu, SessionId>, g: Gpu, id: SessionId) {
    g in held && held[g] == id
  }

  lemma HeldIs(s: System, g: Gpu, id: SessionId)
    requires Accounted(s.shared)
    ensures Gives(Held(s), g, id) <==> Key(id, g) in Settled(s)
  {
    if Key(id, g) in Settled(s) {
      assert Key(id, g).gpu in SettledGpus(s);
    }
  }

  lemma SameHeld(s: System, s': System)
    requires Accounted(s.shared) && Accounted(s'.shared) && Settled(s') == Settled(s)
    ensures Held(s') == Held(s)
  {
    forall g, id ensures Gives(Held(s'), g, id) <==> Gives(Held(s), g, id) {
      HeldIs(s', g, id);
      HeldIs(s, g, id);
    }
    SameMap(Held(s'), Held(s));
  }

  // ---------------------------------------------------------------- what each step settles

  lemma AttemptSettlesNothing(s: System, n: nat, g: Gpu)
    requires Sound(s) && MayTry(s, n, g)
    ensures Settled(Do(s, TryGpu(n, g))) == Settled(s)
  {
    var s', fd := Do(s, TryGpu(n, g)), s.shared.locks.next;
    if Blocked(s.shared.locks, g) {
      BlockedAttempt(s.shared, s.calls[n], g);
      assert s'.calls == s.calls;
    } else {
      var t := Taken(g, fd);
      assert s'.calls[n].taken == s.calls[n].taken + [t];
      assert t in s'.calls[n].taken;
      assert WaitingFds(s') == WaitingFds(s) + {fd} by { WaitingGrows(s, s', n, t); }
      forall k | k in s.shared.registry ensures s.shared.registry[k] < fd && k.gpu != g {
        assert s.shared.locks.owner[k.gpu] == Mine(s.shared.registry[k]);
      }
    }
  }

  lemma WaitingGrows(s: System, s': System, n: nat, t: Taken)
    requires n in s.calls && n in s'.calls && s'.calls == s.calls[n := s'.calls[n]]
    requires s'.calls[n].taken == s.calls[n].taken + [t]
    ensures WaitingFds(s') == WaitingFds(s) + {t.fd}
  {
    assert t in s'.calls[n].taken;
    forall fd | fd in WaitingFds(s) ensures fd in WaitingFds(s') {
      var m, u :| m in s.calls && u in s.calls[m].taken && u.fd == fd;
      assert m in s'.calls && u in s'.calls[m].taken;
    }
  }

  /** When call `n` ends without rolling back, its entries are settled and no others. */
  lemma EndSettles(s: System, s': System, n: nat)
    requires Sound(s) && n in s.calls && s'.shared == s.shared && s'.calls == s.calls - {n}
    ensures Settled(s') == Settled(s) + set k | k in s.shared.registry && s.shared.registry[k] in TakenFds(s.calls[n])
  {
    forall k | k in s.shared.registry
      ensures s.shared.registry[k] !in WaitingFds(s') <==>
              s.shared.registry[k] !in WaitingFds(s) || s.shared.registry[k] in TakenFds(s.calls[n])
    {
      WaitingWithout(s, s', n, s.shared.registry[k]);
    }
  }

  lemma WaitingWithout(s: System, s': System, n: nat, fd: nat)
    requires Apart(s) && n in s.calls && s'.calls == s.calls - {n}
    ensures fd in WaitingFds(s') <==> fd in WaitingFds(s) && fd !in TakenFds(s.calls[n])
  {
    if fd in WaitingFds(s') {
      var m, t :| m in s'.calls && t in s'.calls[m].taken && t.fd == fd;
      assert fd in TakenFds(s.calls[m]);
    }
    if fd in WaitingFds(s) && fd !in TakenFds(s.calls[n]) {
      var m, t :| m in s.calls && t in s.calls[m].taken && t.fd == fd;
      assert m in s'.calls;
    }
  }

  /** The settled GPUs that a time-out of call `n` takes from its session: those it had taken
      itself before a release. */
  ghost function Robbed(s: System, n: nat): set<Gpu>
    requires n in s.calls
  {
    set g | g in TakenGpus(s.calls[n]) && Gives(Held(s), g, s.calls[n].session)
  }

  lemma TimeOutSettles(s: System, n: nat)
    requires Sound(s) && !Loses(s, TimeOut(n)) && TimesOut(s, TimeOut(n))
    ensures Settled(Do(s, TimeOut(n))) == Settled(s) - TakenKeys(s.calls[n])
  {
    var s', c := Do(s, TimeOut(n)), s.calls[n];
    forall k | k in s.shared.registry
      ensures s.shared.registry[k] in WaitingFds(s') <==>
              s.shared.registry[k] in WaitingFds(s) && s.shared.registry[k] !in TakenFds(c)
      ensures s.shared.registry[k] in TakenFds(c) ==> k in TakenKeys(c)
    {
      WaitingWithout(s, s', n, s.shared.registry[k]);
      if s.shared.registry[k] in TakenFds(c) { TakenIsOwn(s.shared, c, k); }
    }
  }

  lemma TimeOutRefines(s: System, n: nat)
    requires Sound(s) && !Loses(s, TimeOut(n)) && TimesOut(s, TimeOut(n)) && Sound(Do(s, TimeOut(n)))
    ensures Held(Do(s, TimeOut(n))) == Held(s) - Robbed(s, n)
    ensures Robbed(s, n) == {} <==> !Strays(s, TimeOut(n))
  {
    var s', c := Do(s, TimeOut(n)), s.calls[n];
    TimeOutSettles(s, n);
    forall g, id ensures Gives(Held(s'), g, id) <==> Gives(Held(s) - Robbed(s, n), g, id) {
      HeldIs(s', g, id);
      HeldIs(s, g, id);
      TakenEitherWay(c, g);
    }
    SameMap(Held(s'), Held(s) - Robbed(s, n));
    RobbedIff(s, n);
  }

  lemma RobbedIff(s: System, n: nat)
    requires Sound(s) && !Loses(s, TimeOut(n)) && TimesOut(s, TimeOut(n))
    ensures Robbed(s, n) == {} <==> !Strays(s, TimeOut(n))
  {
    var r, c := s.shared, s.calls[n];
    StraysIff(s, n);
    RollbackDrops(r, c, Elsewhere(s, n));
    forall k | k in TakenKeys(c) && k in r.registry
      ensures r.registry[k] !in TakenFds(c) <==> k in Settled(s)
      ensures k.gpu in TakenGpus(c) && k.session == c.session
      ensures k in Settled(s) <==> k.gpu in Robbed(s, n)
    {
      TakenEitherWay(c, k.gpu);
      HeldIs(s, k.gpu, k.session);
      assert r.registry[k] in WaitingFds(s) <==> r.registry[k] in TakenFds(c) by { WaitingHere(s, n, k); }
    }
    forall g | g in Robbed(s, n) ensures Key(c.session, g) in TakenKeys(c) && Key(c.session, g) in r.registry {
      TakenEitherWay(c, g);
      HeldIs(s, g, c.session);
    }
  }

  lemma WaitingHere(s: System, n: nat, k: Key)
    requires Sound(s) && !Loses(s, TimeOut(n)) && TimesOut(s, TimeOut(n))
    requires k in TakenKeys(s.calls[n]) && k in s.shared.registry
    ensures s.shared.registry[k] in WaitingFds(s) <==> s.shared.registry[k] in TakenFds(s.calls[n])
  {
    var c, fd := s.calls[n], s.shared.registry[k];
    var t :| t in c.taken && Key(c.session, t.gpu) == k;
    var i :| 0 <= i < |c.taken| && c.taken[i] == t;
    assert fd !in Elsewhere(s, n);
    if fd in WaitingFds(s) {
      var m, u :| m in s.calls && u in s.calls[m].taken && u.fd == fd;
      assert m == n;
    }
  }

  // ---------------------------------------------------------------- refinement

  lemma HandedOver(s: System, s': System, n: nat)
    requires Sound(s) && Sound(s') && n in s.calls && HoldsAll(s, n)
    requires s'.shared == s.shared && s'.calls == s.calls - {n}
    ensures Held(s') == M.Granted(Held(s), s.calls[n].session, TakenGpus(s.calls[n]))
    ensures forall i :: 0 <= i < |TakenGpus(s.calls[n])| ==> TakenGpus(s.calls[n])[i] !in Held(s)
  {
    var c := s.calls[n];
    EndSettles(s, s', n);
    forall k | k in s.shared.registry ensures s.shared.registry[k] in TakenFds(c) <==> k in TakenKeys(c) {
      OwnEntries(s, n, k);
    }
    forall t | t in c.taken ensures Key(c.session, t.gpu) in s.shared.registry && t.gpu !in Held(s) {
      assert Holding(s.shared, c.session, t) && t.fd in WaitingFds(s);
      forall k | k in Settled(s) ensures k.gpu != t.gpu {
        assert k.gpu == t.gpu ==> k == Key(c.session, t.gpu);
      }
    }
    assert Settled(s') == Settled(s) + TakenKeys(c);
    forall i | 0 <= i < |TakenGpus(c)| ensures TakenGpus(c)[i] !in Held(s) {
      assert c.taken[i] in c.taken;
    }
    var after := M.Granted(Held(s), c.session, TakenGpus(c));
    forall g, id ensures Gives(Held(s'), g, id) <==> Gives(after, g, id) {
      HeldIs(s', g, id);
      HeldIs(s, g, id);
      TakenEitherWay(c, g);
    }
    SameMap(Held(s'), after);
  }

  lemma OwnEntries(s: System, n: nat, k: Key)
    requires Sound(s) && n in s.calls && HoldsAll(s, n) && k in s.shared.registry
    ensures s.shared.registry[k] in TakenFds(s.calls[n]) <==> k in TakenKeys(s.calls[n])
  {
    var c := s.calls[n];
    if s.shared.registry[k] in TakenFds(c) {
      var t :| t in c.taken && t.fd == s.shared.registry[k];
      assert Holding(s.shared, c.session, t);
      assert s.shared.locks.open[t.fd] == t.gpu == k.gpu;
    }
    if k in TakenKeys(c) {
      var t :| t in c.taken && Key(c.session, t.gpu) == k;
      assert Holding(s.shared, c.session, t);
    }
  }

  lemma SameMap(a: map<Gpu, SessionId>, b: map<Gpu, SessionId>)
    requires forall g, id :: Gives(a, g, id) <==> Gives(b, g, id)
    ensures a == b
  {
    forall g ensures g in a <==> g in b {
      if g in a { assert Gives(a, g, a[g]); }
      if g in b { assert Gives(b, g, b[g]); }
    }
    forall g | g in a ensures a[g] == b[g] {
      assert Gives(a, g, a[g]);
    }
  }

  lemma ReleaseRefines(s: System, id: SessionId)
    requires Sound(s) && Sound(Do(s, Release(id)))
    ensures Held(Do(s, Release(id))) == L.Without(Held(s), id)
  {
    var s' := Do(s, Release(id));
    forall g, owner ensures Gives(Held(s'), g, owner) <==> Gives(L.Without(Held(s), id), g, owner) {
      HeldIs(s', g, owner);
      HeldIs(s, g, owner);
    }
    SameMap(Held(s'), L.Without(Held(s), id));
  }

  /** The steps by which nobody's holdings change. */
  predicate Silent(s: System, step: Step) {
    !step.Return? && !step.Cancel? && !step.Release? && !TimesOut(s, step)
  }

  /** A call that returns or is cancelled. */
  predicate Ends(s: System, step: Step) {
    && (step.Return? || step.Cancel?) && step.n in s.calls
    && (step.Return? ==> |s.calls[step.n].taken| >= s.calls[step.n].want)
  }

  /** Every step of every interleaving, of any number of acquires of any sessions, as the
      lifecycle calls see it: attempts, discoveries and other processes change no holding; a
      release releases one session; a call that ends with what it took hands over exactly
      that, and a call that returns what it wanted makes a grant fit for acquiring; a time-out
      takes exactly what it robs, which is nothing if and only if it pops only its own. */
  lemma StepRefines(s: System, step: Step)
    requires Sound(s) && !Loses(s, step)
    ensures Sound(Do(s, step))
    ensures Silent(s, step) ==> Held(Do(s, step)) == Held(s)
    ensures TimesOut(s, step) ==>
              Held(Do(s, step)) == Held(s) - Robbed(s, step.n) && (Robbed(s, step.n) == {} <==> !Strays(s, step))
    ensures step.Release? ==> Held(Do(s, step)) == L.Without(Held(s), step.session)
    ensures Ends(s, step) && HoldsAll(s, step.n) ==>
              Held(Do(s, step)) == M.Granted(Held(s), s.calls[step.n].session, TakenGpus(s.calls[step.n]))
    ensures step.Return? && Ends(s, step) && HoldsAll(s, step.n) && s.calls[step.n].want > 0 ==>
              var gpus := TakenGpus(s.calls[step.n]);
              L.Acquired(Held(s).Keys, s.calls[step.n].want, Some(gpus)) == Some(gpus)
  {
    StepKeepsSound(s, step);
    if Silent(s, step) {
      SilentStep(s, step);
    } else if TimesOut(s, step) {
      TimeOutRefines(s, step.n);
    } else if step.Release? {
      ReleaseRefines(s, step.session);
    } else if Ends(s, step) && HoldsAll(s, step.n) {
      ForgettingChangesNothing(s, step.n);
      HandedOver(s, Do(s, step), step.n);
      if step.Return? && s.calls[step.n].want > 0 {
        GrantIsUsable(s, step.n);
      }
    }
  }

  lemma SilentStep(s: System, step: Step)
    requires Sound(s) && Silent(s, step) && Sound(Do(s, step))
    ensures Held(Do(s, step)) == Held(s)
  {
    var s' := Do(s, step);
    match step
    case TryGpu(n, g) => if MayTry(s, n, g) { AttemptSettlesNothing(s, n, g); SameHeld(s, s'); }
    case TimeOut(n) => assert s' == s;
    case OutsideLock(_, _) => OutsideLeavesOurs(s, step); assert WaitingFds(s') == WaitingFds(s); SameHeld(s, s');
    case OutsideUnlock(_) => OutsideLeavesOurs(s, step); assert WaitingFds(s') == WaitingFds(s); SameHeld(s, s');
    case Start(n, _, _) => StartWaitsForNothing(s, step); SameHeld(s, s');
    case Refresh(_) => assert WaitingFds(s') == WaitingFds(s); SameHeld(s, s');
  }

  lemma StartWaitsForNothing(s: System, step: Step)
    requires step.Start?
    ensures WaitingFds(Do(s, step)) == WaitingFds(s)
  {
    var s' := Do(s, step);
    forall fd | fd in WaitingFds(s) ensures fd in WaitingFds(s') {
      var m, t :| m in s.calls && t in s.calls[m].taken && t.fd == fd;
      assert m in s'.calls && s'.calls[m] == s.calls[m];
    }
  }

  lemma GrantIsUsable(s: System, n: nat)
    requires Sound(s) && n in s.calls && |s.calls[n].taken| >= s.calls[n].want > 0
    requires forall i :: 0 <= i < |TakenGpus(s.calls[n])| ==> TakenGpus(s.calls[n])[i] !in Held(s)
    ensures var gpus := TakenGpus(s.calls[n]); L.Acquired(Held(s).Keys, s.calls[n].want, Some(gpus)) == Some(gpus)
  {
    assert CallOk(s.shared, s.calls[n]);
  }

  /** A call that holds all it took pops only its own entries. */
  lemma HoldingMeansSafe(s: System, n: nat)
    requires Sound(s) && n in s.calls && HoldsAll(s, n)
    ensures !Strays(s, TimeOut(n)) && !Loses(s, TimeOut(n))
    ensures !TimesOut(s, TimeOut(n)) ==> Do(s, TimeOut(n)) == s
  {
    var c := s.calls[n];
    forall i | 0 <= i < |c.taken| ensures Holding(s.shared, c.session, c.taken[i]) {
      assert c.taken[i] in c.taken;
    }
    if Loses(s, TimeOut(n)) { LosingIsStraying(s, TimeOut(n)); }
  }

  /** A whole acquire amid whatever else happens: if its session is not released meanwhile,
      returning hands it one usable grant, and timing out changes no holding. */
  lemma AcquireRefines(s: System, n: nat, id: SessionId, want: nat, steps: seq<Step>)
    requires Sound(s) && NeverLoses(Do(s, Start(n, id, want)), steps)
    requires n !in s.calls && 0 < want <= |s.ids|
    requires forall i :: 0 <= i < |steps| ==> Undisturbed(steps[i], n, id)
    ensures var s' := Run(Do(s, Start(n, id, want)), steps);
      && Sound(s') && n in s'.calls
      && (|s'.calls[n].taken| >= want ==>
            var gpus := TakenGpus(s'.calls[n]);
            && Accounted(Do(s', Return(n)).shared)
            && L.Acquired(Held(s').Keys, want, Some(gpus)) == Some(gpus)
            && Held(Do(s', Return(n))) == M.Granted(Held(s'), id, gpus))
      && Accounted(Do(s', TimeOut(n)).shared) && Held(Do(s', TimeOut(n))) == Held(s')
  {
    var s1 := Do(s, Start(n, id, want));
    StepKeepsSound(s, Start(n, id, want));
    UndisturbedCallHoldsAll(s1, steps, n);
    EveryRunIsAccountedIff(s1, steps);
    var s' := Run(s1, steps);
    if |s'.calls[n].taken| >= want {
      StepRefines(s', Return(n));
    }
    HoldingMeansSafe(s', n);
    StepRefines(s', TimeOut(n));
  }
}
