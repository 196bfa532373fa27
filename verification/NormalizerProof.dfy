/** Why the rewrite settles: each pass strips one `_s` and flattens one level everywhere, and
    a second pass over rewritten state changes something exactly when some level is left. */
module NormalizerProof {
  import opened Options
  import opened Json
  import opened Normalizer
  import Speedup

  // ---------------------------------------------------------------- suffixes

  /** The keys of a rebuilt entry are exactly the stripped ones. */
  lemma {:induction false} StripIntoKeys(done: Dict, rest: Dict, k: string)
    ensures Has(StripInto(done, rest), k) <==>
              Has(done, k) || exists i :: 0 <= i < |rest| && Stripped(rest[i].key) == k
    decreases |rest|
  {
    if rest != [] {
      var key := Stripped(rest[0].key);
      StripIntoKeys(Set(done, key, rest[0].value), rest[1..], k);
      SetKeepsOthers(done, key, rest[0].value, k);
      if i :| 0 <= i < |rest| && Stripped(rest[i].key) == k {
        if i > 0 { assert rest[1..][i - 1] == rest[i]; }
      }
      if i :| 0 <= i < |rest[1..]| && Stripped(rest[1..][i].key) == k {
        assert rest[i + 1] == rest[1..][i];
      }
    }
  }

  lemma StrippedTrail(k: string, n: nat)
    ensures Trail(Stripped(k)) <= n <==> Trail(k) <= n + 1
    ensures Suffixed(k) <==> Trail(k) > 0
  {
  }

  lemma StripEntryStep(n: nat, j: Json)
    ensures EntryWithin(n, StripEntry(j)) <==> EntryWithin(n + 1, j)
  {
    if j.Obj? {
      if AnySuffixed(j.fields) {
        StripIntoStep(n, j.fields);
      } else {
        forall i | 0 <= i < |j.fields| ensures Trail(j.fields[i].key) == 0 {
          assert !Suffixed(j.fields[i].key);
        }
      }
    }
  }

  lemma StripIntoStep(n: nat, e: Dict)
    ensures EntryWithin(n, Obj(StripInto([], e))) <==> EntryWithin(n + 1, Obj(e))
  {
    var e' := StripInto([], e);
    if EntryWithin(n, Obj(e')) {
      forall i | 0 <= i < |e| ensures Trail(e[i].key) <= n + 1 {
        StripIntoKeys([], e, Stripped(e[i].key));
        StrippedTrail(e[i].key, n);
        var m :| 0 <= m < |e'| && e'[m].key == Stripped(e[i].key);
      }
    }
    if EntryWithin(n + 1, Obj(e)) {
      forall m | 0 <= m < |e'| ensures Trail(e'[m].key) <= n {
        StripIntoKeys([], e, e'[m].key);
        assert Has(e', e'[m].key);
        var i :| 0 <= i < |e| && Stripped(e[i].key) == e'[m].key;
        StrippedTrail(e[i].key, n);
      }
    }
  }

  /** An entry is left alone exactly when no key ends in `_s`. */
  lemma StripEntryFixed(j: Json)
    ensures StripEntry(j) == j <==> EntryWithin(0, j)
  {
    if j.Obj? {
      var e := j.fields;
      forall k { StrippedTrail(k, 0); }
      if AnySuffixed(e) {
        var i :| 0 <= i < |e| && Suffixed(e[i].key);
        LongestKeyGone(e);
      }
    }
  }

  /** Stripping changes any entry with a suffixed key: the longest such key disappears. */
  lemma LongestKeyGone(e: Dict)
    requires AnySuffixed(e)
    ensures StripInto([], e) != e
  {
    var m := LongestSuffixed(e);
    StripIntoKeys([], e, e[m].key);
    assert Has(e, e[m].key);
    forall j | 0 <= j < |e| ensures Stripped(e[j].key) != e[m].key {
      if Suffixed(e[j].key) { assert |Stripped(e[j].key)| == |e[j].key| - 2; }
    }
  }

  lemma {:induction false} LongestSuffixed(e: Dict) returns (m: nat)
    requires AnySuffixed(e)
    ensures m < |e| && Suffixed(e[m].key)
    ensures forall j :: 0 <= j < |e| && Suffixed(e[j].key) ==> |e[j].key| <= |e[m].key|
    decreases |e|
  {
    var front, last := e[..|e| - 1], |e| - 1;
    if AnySuffixed(front) {
      m := LongestSuffixed(front);
      assert forall j :: 0 <= j < |front| ==> front[j] == e[j];
      if Suffixed(e[last].key) && |e[last].key| > |e[m].key| {
        m := last;
      }
    } else {
      assert forall j :: 0 <= j < |front| ==> front[j] == e[j];
      m := last;
    }
  }

  lemma StripLatencyStep(n: nat, j: Json)
    ensures LatencyWithin(n, StripLatency(j)) <==> LatencyWithin(n + 1, j)
    ensures StripLatency(j) == j <==> LatencyWithin(0, j)
  {
    if j.Obj? {
      var m, m' := j.fields, StripMap(j.fields);
      forall i | 0 <= i < |m|
        ensures EntryWithin(n, m'[i].value) <==> EntryWithin(n + 1, m[i].value)
        ensures m'[i] == m[i] <==> EntryWithin(0, m[i].value)
      {
        StripEntryStep(n, m[i].value);
        StripEntryFixed(m[i].value);
      }
      if StripLatency(j) == j {
        assert forall i :: 0 <= i < |m| ==> m'[i] == m[i];
      }
    }
  }

  lemma StripUnderStep(n: nat, d: Dict, k: string)
    ensures LatencyWithin(n, Get(StripUnder(d, k), k)) <==> LatencyWithin(n + 1, Get(d, k))
    ensures StripUnder(d, k) == d <==> LatencyWithin(0, Get(d, k))
    ensures forall o :: o != k ==> Get(StripUnder(d, k), o) == Get(d, o)
    ensures Truthy(Get(StripUnder(d, k), k)) <==> Truthy(Get(d, k))
  {
    StripLatencyStep(n, Get(d, k));
    if Get(d, k).Obj? {
      forall o { GetSet(d, k, StripLatency(Get(d, k)), o); }
      SetSame(d, k, StripLatency(Get(d, k)));
      GetOfAbsent(d, k);
    }
  }

  // ---------------------------------------------------------------- speedups

  lemma FlattenStep(n: nat, d: Dict)
    ensures SpeedupWithin(n, Obj(FlattenSpeedup(d))) <==> SpeedupWithin(n + 1, Obj(d))
    ensures FlattenSpeedup(d) == d <==> SpeedupWithin(0, Obj(d))
    ensures forall o :: o != "e2e_speedup" ==> Get(FlattenSpeedup(d), o) == Get(d, o)
  {
    var es := Get(d, "e2e_speedup");
    if es.Obj? {
      forall o { GetSet(d, "e2e_speedup", Selected(es.fields), o); }
      SetSame(d, "e2e_speedup", Selected(es.fields));
      SelectedIsPart(es.fields);
    }
  }

  lemma {:induction false} MaxIsNumber(ks: Dict)
    ensures MaxVariant(ks).Some? ==> IsNumber(MaxVariant(ks).value)
  {
    if ks != [] {
      MaxIsNumber(ks[..|ks| - 1]);
    }
  }

  /** The scalar kept for a kernel is one of the counted variants and none exceeds it; it is
      None exactly when no variant counts. */
  lemma {:induction false} MaxVariantIs(ks: Dict)
    ensures MaxVariant(ks).None? <==> forall f :: f in ks ==> !Counts(f)
    ensures MaxVariant(ks).Some? ==>
      && IsNumber(MaxVariant(ks).value)
      && (exists f :: f in ks && Counts(f) && f.value == MaxVariant(ks).value)
      && (forall f :: f in ks && Counts(f) ==> AsReal(f.value) <= AsReal(MaxVariant(ks).value))
  {
    if ks != [] {
      var front, last := ks[..|ks| - 1], ks[|ks| - 1];
      MaxVariantIs(front);
      assert forall f :: f in ks <==> f in front || f == last;
    }
  }

  lemma SplitKernelSettles(t: Dict)
    ensures Get(SplitKernel(t), "e2e_speedup") == Get(t, "e2e_speedup")
    ensures !Get(SplitKernel(t), "kernel_speedup").Obj?
  {
    var ks := Get(t, "kernel_speedup");
    if ks.Obj? {
      MaxIsNumber(ks.fields);
      var v := OrNull(MaxVariant(ks.fields));
      var t1 := Set(t, "kernel_speedup", v);
      GetSet(t, "kernel_speedup", v, "e2e_speedup");
      GetSet(t1, "kernel_speedup_variants", ks, "e2e_speedup");
      GetSet(t1, "kernel_speedup_variants", ks, "kernel_speedup");
    }
  }

  /** A track whose kernel speedup is already a scalar. */
  ghost predicate KernelSettled(j: Json) {
    j.Obj? ==> !Get(j.fields, "kernel_speedup").Obj?
  }

  lemma TrackStep(n: nat, j: Json)
    ensures SpeedupWithin(n, NormalTrack(j)) <==> SpeedupWithin(n + 1, j)
    ensures KernelSettled(NormalTrack(j))
    ensures KernelSettled(j) ==> (NormalTrack(j) == j <==> SpeedupWithin(0, j))
  {
    if j.Obj? {
      SplitKernelSettles(j.fields);
      FlattenStep(n, SplitKernel(j.fields));
    }
  }

  ghost predicate TracksSettled(pt: Json) {
    pt.Obj? && Get(pt.fields, "tracks").Obj? ==>
      var m := Get(pt.fields, "tracks").fields;
      forall i :: 0 <= i < |m| ==> KernelSettled(m[i].value)
  }

  lemma TracksStep(n: nat, pt: Json)
    ensures TracksWithin(n, NormalParallel(pt)) <==> TracksWithin(n + 1, pt)
    ensures TracksSettled(NormalParallel(pt))
    ensures TracksSettled(pt) ==> (NormalParallel(pt) == pt <==> TracksWithin(0, pt))
  {
    if pt.Obj? && Get(pt.fields, "tracks").Obj? {
      var m := Get(pt.fields, "tracks").fields;
      var m' := NormalTracks(m);
      GetSet(pt.fields, "tracks", Obj(m'), "");
      SetSame(pt.fields, "tracks", Obj(m'));
      GetOfAbsent(pt.fields, "tracks");
      forall i | 0 <= i < |m|
        ensures SpeedupWithin(n, m'[i].value) <==> SpeedupWithin(n + 1, m[i].value)
        ensures KernelSettled(m'[i].value)
        ensures KernelSettled(m[i].value) ==> (m'[i] == m[i] <==> SpeedupWithin(0, m[i].value))
      {
        TrackStep(n, m[i].value);
      }
      if TracksSettled(pt) && m' == m {
        assert forall i :: 0 <= i < |m| ==> m'[i] == m[i];
      }
    }
  }

  lemma CandidatesStep(n: nat, d: Dict)
    ensures CandidatesWithin(n, Get(FlattenCandidates(d), "passing_candidates")) <==>
        CandidatesWithin(n + 1, Get(d, "passing_candidates"))
    ensures FlattenCandidates(d) == d <==> CandidatesWithin(0, Get(d, "passing_candidates"))
    ensures forall o :: o != "passing_candidates" ==> Get(FlattenCandidates(d), o) == Get(d, o)
  {
    var cs := Get(d, "passing_candidates");
    if cs.Arr? {
      var xs, xs' := cs.items, NormalCandidates(cs.items);
      forall o { GetSet(d, "passing_candidates", Arr(xs'), o); }
      SetSame(d, "passing_candidates", Arr(xs'));
      GetOfAbsent(d, "passing_candidates");
      forall i | 0 <= i < |xs|
        ensures SpeedupWithin(n, xs'[i]) <==> SpeedupWithin(n + 1, xs[i])
        ensures xs'[i] == xs[i] <==> SpeedupWithin(0, xs[i])
      {
        if xs[i].Obj? { FlattenStep(n, xs[i].fields); }
      }
      if xs' == xs {
        assert forall i :: 0 <= i < |xs| ==> xs'[i] == xs[i];
      }
    }
  }

  // ---------------------------------------------------------------- backfills

  lemma FillLatencyIs(d: Dict, k: string, tag: string, v: Json, n: nat)
    ensures LatencyWithin(n + 1, Get(FillLatency(d, k, tag, v), k)) <==> LatencyWithin(n + 1, Get(d, k))
    ensures !Truthy(Get(FillLatency(d, k, tag, v), k)) ==> !IsPositive(v)
    ensures forall o :: o != k ==> Get(FillLatency(d, k, tag, v), o) == Get(d, o)
  {
    if !Truthy(Get(d, k)) && IsPositive(v) {
      forall o { GetSet(d, k, OneBucket(tag, v), o); }
      FilledIsPlain(tag, v, n + 1);
    }
  }

  lemma FilledIsPlain(tag: string, v: Json, n: nat)
    ensures LatencyWithin(n, OneBucket(tag, v)) && Truthy(OneBucket(tag, v))
  {
    var e := OneBucket(tag, v).fields[0].value;
    assert e.fields[0].key == "avg" && e.fields[1].key == "p50";
    assert !Suffixed("avg") && !Suffixed("p50");
    assert EntryWithin(n, e);
  }

  lemma FillVerdictIs(d: Dict, verdict: Json)
    ensures !Truthy(Get(FillVerdict(d, verdict), "per_bs_verdict")) ==> !(verdict.Obj? && verdict.fields != [])
    ensures forall o :: o != "per_bs_verdict" ==> Get(FillVerdict(d, verdict), o) == Get(d, o)
  {
    forall o { GetSet(d, "per_bs_verdict", verdict, o); }
  }

  /** Nothing left to backfill in a baseline. */
  ghost predicate BaselineFilled(b: Dict, cer: Dict) {
    && (Truthy(Get(b, "e2e_latency")) || !IsPositive(Get(cer, "latency_baseline_s")))
    && (Truthy(Get(b, "per_bs_verdict")) ||
        !(Get(cer, "per_bs_verdict").Obj? && Get(cer, "per_bs_verdict").fields != []))
  }

  lemma BaselineStep(n: nat, b: Dict, cer: Dict)
    ensures BaselineWithin(n, NormalBaseline(b, cer)) <==> BaselineWithin(n + 1, b)
    ensures BaselineFilled(NormalBaseline(b, cer), cer)
    ensures BaselineFilled(b, cer) ==> (NormalBaseline(b, cer) == b <==> BaselineWithin(0, b))
  {
    BaselineKeysDiffer();
    BaselineChain(n, b, LegacyTag(cer), Get(cer, "latency_baseline_s"), Get(cer, "per_bs_verdict"),
                  "e2e_latency", "per_bs_verdict", NormalBaseline(b, cer));
    if BaselineFilled(b, cer) {
      FilledBaseline(n, b, LegacyTag(cer), Get(cer, "latency_baseline_s"), Get(cer, "per_bs_verdict"), "e2e_latency");
    }
  }

  /** With nothing left to fill, only stripping changes a baseline. */
  lemma FilledBaseline(n: nat, b: Dict, tag: string, lat: Json, verdict: Json, k: string)
    requires Truthy(Get(b, k)) || !IsPositive(lat)
    requires Truthy(Get(b, "per_bs_verdict")) || !(verdict.Obj? && verdict.fields != [])
    ensures StripUnder(FillVerdict(FillLatency(b, k, tag, lat), verdict), k) == b <==> LatencyWithin(0, Get(b, k))
  {
    assert FillLatency(b, k, tag, lat) == b && FillVerdict(b, verdict) == b;
    StripUnderStep(n, b, k);
  }

  lemma BaselineKeysDiffer()
    ensures "e2e_latency" != "per_bs_verdict"
  {
    assert "e2e_latency"[0] != "per_bs_verdict"[0];
  }

  /** The same with the two keys standing apart, so that no literals are compared. */
  lemma BaselineChain(n: nat, b: Dict, tag: string, lat: Json, verdict: Json, k: string, v: string, b': Dict)
    requires v == "per_bs_verdict" && k != v && b' == StripUnder(FillVerdict(FillLatency(b, k, tag, lat), verdict), k)
    ensures LatencyWithin(n, Get(b', k)) <==> LatencyWithin(n + 1, Get(b, k))
    ensures Truthy(Get(b', k)) || !IsPositive(lat)
    ensures Truthy(Get(b', v)) || !(verdict.Obj? && verdict.fields != [])
  {
    var b1 := FillLatency(b, k, tag, lat);
    var b2 := FillVerdict(b1, verdict);
    FillLatencyIs(b, k, tag, lat, n);
    FillVerdictIs(b1, verdict);
    StripUnderStep(n, b2, k);
  }

  ghost predicate IntegrationFilled(d: Dict) {
    Truthy(Get(d, "e2e_latency_combined")) || !IsPositive(OptS(AsDict(Get(d, "combined_e2e_result")), d))
  }

  /** What one pass puts under the integration keys it looks at; the keys stand apart here so
      that the proof need not compare literals. */
  lemma IntegrationChain(n: nat, d: Dict, tag: string, v: Json, k: string, c: string, other: string, d': Dict)
    requires d' == StripUnder(FlattenCandidates(FillLatency(d, k, tag, v)), k)
    requires c == "passing_candidates" && k != c && other != k && other != c
    ensures LatencyWithin(n, Get(d', k)) <==> LatencyWithin(n + 1, Get(d, k))
    ensures CandidatesWithin(n, Get(d', c)) <==> CandidatesWithin(n + 1, Get(d, c))
    ensures !Truthy(Get(d', k)) ==> !IsPositive(v)
    ensures Get(d', other) == Get(d, other)
    ensures Truthy(Get(d, k)) || !IsPositive(v) ==>
              (d' == d <==> LatencyWithin(0, Get(d, k)) && CandidatesWithin(0, Get(d, c)))
  {
    var d1 := FillLatency(d, k, tag, v);
    var d2 := FlattenCandidates(d1);
    FillLatencyIs(d, k, tag, v, n);
    CandidatesStep(n, d1);
    StripUnderStep(n, d2, k);
    CandidatesShow(d);
  }

  lemma IntegrationKeysDiffer()
    ensures "e2e_latency_combined" != "passing_candidates"
    ensures "combined_e2e_result" != "passing_candidates" && "combined_e2e_result" != "e2e_latency_combined"
    ensures "opt_s" != "passing_candidates" && "opt_s" != "e2e_latency_combined"
  {
  }

  lemma IntegrationReads(n: nat, d: Dict, tag: string, v: Json, d': Dict)
    requires d' == FilledIntegration(d, tag, v)
    ensures IntegrationWithin(n, d') <==> IntegrationWithin(n + 1, d)
    ensures !Truthy(Get(d', "e2e_latency_combined")) ==> !IsPositive(v)
    ensures Get(d', "combined_e2e_result") == Get(d, "combined_e2e_result") && Get(d', "opt_s") == Get(d, "opt_s")
    ensures Truthy(Get(d, "e2e_latency_combined")) || !IsPositive(v) ==> (d' == d <==> IntegrationWithin(0, d))
  {
    IntegrationKeysDiffer();
    IntegrationChain(n, d, tag, v, "e2e_latency_combined", "passing_candidates", "combined_e2e_result", d');
    IntegrationChain(n, d, tag, v, "e2e_latency_combined", "passing_candidates", "opt_s", d');
  }

  lemma IntegrationStep(n: nat, d: Dict)
    ensures IntegrationWithin(n, NormalIntegration(d)) <==> IntegrationWithin(n + 1, d)
    ensures IntegrationFilled(NormalIntegration(d))
    ensures IntegrationFilled(d) ==> (NormalIntegration(d) == d <==> IntegrationWithin(0, d))
    ensures Get(NormalIntegration(d), "combined_e2e_result") == Get(d, "combined_e2e_result")
  {
    var cer := AsDict(Get(d, "combined_e2e_result"));
    IntegrationReads(n, d, LegacyTag(cer), OptS(cer, d), NormalIntegration(d));
  }

  /** If flattening changes a dictionary at all, it shows under its one key. */
  lemma CandidatesShow(d: Dict)
    ensures FlattenCandidates(d) == d <==>
        Get(FlattenCandidates(d), "passing_candidates") == Get(d, "passing_candidates")
  {
    var cs := Get(d, "passing_candidates");
    if cs.Arr? {
      var v := Arr(NormalCandidates(cs.items));
      SetSame(d, "passing_candidates", v);
      GetSet(d, "passing_candidates", v, "");
      GetOfAbsent(d, "passing_candidates");
    }
  }

  // ---------------------------------------------------------------- rounds and states

  /** A round as one pass leaves it. */
  ghost predicate RoundSettled(r: Dict) {
    && Get(r, "baseline").Obj? && Get(r, "integration").Obj?
    && BaselineFilled(Get(r, "baseline").fields, AsDict(Get(Get(r, "integration").fields, "combined_e2e_result")))
    && IntegrationFilled(Get(r, "integration").fields)
    && TracksSettled(Get(r, "parallel_tracks"))
  }

  /** What one pass puts under the three keys it writes. */
  lemma RoundReads(r: Dict)
    ensures var b, i := AsDict(Get(r, "baseline")), AsDict(Get(r, "integration"));
      && Get(NormalRound(r), "baseline") == Obj(NormalBaseline(b, AsDict(Get(i, "combined_e2e_result"))))
      && Get(NormalRound(r), "integration") == Obj(NormalIntegration(i))
      && Get(NormalRound(r), "parallel_tracks") == NormalParallel(Get(r, "parallel_tracks"))
  {
    var b, i := AsDict(Get(r, "baseline")), AsDict(Get(r, "integration"));
    var b', i' := Obj(NormalBaseline(b, AsDict(Get(i, "combined_e2e_result")))), Obj(NormalIntegration(i));
    var r1 := Set(r, "baseline", b');
    var r2 := Set(r1, "integration", i');
    GetSet(r, "baseline", b', "parallel_tracks");
    GetSet(r1, "integration", i', "baseline");
    GetSet(r1, "integration", i', "parallel_tracks");
    if Get(r, "parallel_tracks").Obj? {
      GetSet(r2, "parallel_tracks", NormalParallel(Get(r, "parallel_tracks")), "baseline");
      GetSet(r2, "parallel_tracks", NormalParallel(Get(r, "parallel_tracks")), "integration");
    }
  }

  lemma RoundStep(n: nat, j: Json)
    ensures RoundWithin(n, NormalRoundJson(j)) <==> RoundWithin(n + 1, j)
    ensures j.Obj? ==> RoundSettled(NormalRound(j.fields))
  {
    if j.Obj? {
      var r := j.fields;
      var b, i := AsDict(Get(r, "baseline")), AsDict(Get(r, "integration"));
      RoundReads(r);
      BaselineStep(n, b, AsDict(Get(i, "combined_e2e_result")));
      IntegrationStep(n, i);
      TracksStep(n, Get(r, "parallel_tracks"));
    }
  }

  lemma RoundFixed(r: Dict)
    requires RoundSettled(r)
    ensures NormalRound(r) == r <==> RoundWithin(0, Obj(r))
  {
    var b, i, pt := Get(r, "baseline"), Get(r, "integration"), Get(r, "parallel_tracks");
    var cer := AsDict(Get(i.fields, "combined_e2e_result"));
    RoundReads(r);
    BaselineStep(0, b.fields, cer);
    IntegrationStep(0, i.fields);
    TracksStep(0, pt);
    if RoundWithin(0, Obj(r)) {
      SetSame(r, "baseline", b);
      GetOfAbsent(r, "baseline");
      SetSame(r, "integration", i);
      GetOfAbsent(r, "integration");
      SetSame(r, "parallel_tracks", pt);
      GetOfAbsent(r, "parallel_tracks");
    }
  }

  lemma RoundsStep(n: nat, rs: seq<Json>)
    ensures (forall i :: 0 <= i < |rs| ==> RoundWithin(n, NormalRounds(rs)[i])) <==>
        forall i :: 0 <= i < |rs| ==> RoundWithin(n + 1, rs[i])
  {
    forall i | 0 <= i < |rs| ensures RoundWithin(n, NormalRounds(rs)[i]) <==> RoundWithin(n + 1, rs[i]) {
      RoundStep(n, rs[i]);
    }
  }

  /** Rewriting the rewritten rounds changes nothing exactly when nothing is left to do. */
  lemma RoundsFixed(rs: seq<Json>)
    ensures NormalRounds(NormalRounds(rs)) == NormalRounds(rs) <==>
        forall i :: 0 <= i < |rs| ==> RoundWithin(0, NormalRounds(rs)[i])
  {
    var once := NormalRounds(rs);
    var twice := NormalRounds(once);
    forall i | 0 <= i < |rs| ensures twice[i] == once[i] <==> RoundWithin(0, once[i]) {
      RoundStep(0, rs[i]);
      if rs[i].Obj? { RoundFixed(NormalRound(rs[i].fields)); }
    }
    if twice == once {
      assert forall i :: 0 <= i < |rs| ==> twice[i] == once[i];
    }
  }

  function RoundsOf(state: Json): seq<Json>
    requires HasRounds(state)
  {
    Get(Get(state.fields, "campaign").fields, "rounds").items
  }

  /** One pass keeps the shape and rewrites the rounds; the rest depends on them alone. */
  lemma NormalReads(state: Json)
    requires HasRounds(state)
    ensures HasRounds(Normal(state)) && RoundsOf(Normal(state)) == NormalRounds(RoundsOf(state))
  {
    var c := Get(state.fields, "campaign").fields;
    var c1 := Set(c, "rounds", Arr(NormalRounds(RoundsOf(state))));
    GetSet(c, "rounds", Arr(NormalRounds(RoundsOf(state))), "rounds");
    GetSet(c1, "cumulative_e2e_speedup", Num(Speedup.Cumulative(c1)), "rounds");
    GetSet(state.fields, "campaign", Obj(NormalCampaign(c)), "campaign");
  }

  /** One pass takes one level off, everywhere. */
  lemma OnePassOneLevel(n: nat, state: Json)
    ensures Within(n, Normal(state)) <==> Within(n + 1, state)
  {
    if HasRounds(state) {
      NormalReads(state);
      RoundsStep(n, RoundsOf(state));
    }
  }

  lemma CumulativeReadsRounds(c: Dict, c': Dict)
    requires Get(c, "rounds") == Get(c', "rounds")
    ensures Speedup.Cumulative(c) == Speedup.Cumulative(c')
  {
  }

  /** The second pass is the identity exactly when nothing is left after the first. */
  lemma SecondPass(state: Json)
    ensures Normal(Normal(state)) == Normal(state) <==> Within(0, Normal(state))
  {
    if HasRounds(state) {
      var s := Normal(state);
      NormalReads(state);
      NormalReads(s);
      var rs := RoundsOf(state);
      RoundsFixed(rs);
      var c := Get(s.fields, "campaign").fields;
      if NormalRounds(RoundsOf(s)) == RoundsOf(s) {
        RewrittenCampaignIsFixed(state);
        SetSame(s.fields, "campaign", Obj(c));
        GetOfAbsent(s.fields, "campaign");
      }
    }
  }

  lemma RewrittenCampaignIsFixed(state: Json)
    requires HasRounds(state) && HasRounds(Normal(state))
    requires NormalRounds(RoundsOf(Normal(state))) == RoundsOf(Normal(state))
    ensures NormalCampaign(Get(Normal(state).fields, "campaign").fields) == Get(Normal(state).fields, "campaign").fields
  {
    var c0 := Get(state.fields, "campaign").fields;
    GetSet(state.fields, "campaign", Obj(NormalCampaign(c0)), "campaign");
    var c := NormalCampaign(c0);
    var rs := Get(c, "rounds");
    SetSame(c, "rounds", rs);
    GetOfAbsent(c, "rounds");
    var c1 := Set(c0, "rounds", Arr(NormalRounds(Get(c0, "rounds").items)));
    GetSet(c1, "cumulative_e2e_speedup", Num(Speedup.Cumulative(c1)), "rounds");
    CumulativeReadsRounds(c, c1);
    SetSame(c, "cumulative_e2e_speedup", Num(Speedup.Cumulative(c)));
  }

  /** The idempotence claim, exactly: it holds if and only if no latency key ends `_s_s` and
      no speedup dictionary selects another dictionary. */
  lemma IdempotentIff(state: Json)
    ensures Normal(Normal(state)) == Normal(state) <==> Within(1, state)
  {
    SecondPass(state);
    OnePassOneLevel(0, state);
  }

  /** "At most one level" in the words of the claim. */
  lemma OneLevelMeans(k: string, es: Json)
    ensures Trail(k) <= 1 <==> !(Suffixed(k) && Suffixed(Stripped(k)))
    ensures Nesting(es) <= 1 <==> !(es.Obj? && Selected(es.fields).Obj?)
  {
  }

  /** A state whose first round has this baseline entry or this track in it. */
  function OneRound(round: Json): Json {
    Only("campaign", Only("rounds", Arr([round])))
  }

  function OneEntry(entry: Json): Json {
    OneRound(Only("baseline", Only("e2e_latency", Only("1", entry))))
  }

  function OneTrack(track: Json): Json {
    OneRound(Only("parallel_tracks", Only("tracks", Only("op", track))))
  }

  lemma OneRoundReads(round: Json)
    ensures RoundsOf(OneRound(round)) == [round] && HasRounds(OneRound(round))
  {
    GetOnly("rounds", Arr([round]));
    GetOnly("campaign", Only("rounds", Arr([round])));
  }

  /** A state on which the claim fails: a latency key that ends in `_s_s`. */
  lemma DoublySuffixedKeyFails()
    ensures var state := OneEntry(Only("avg_s_s", Num(1.0))); Normal(Normal(state)) != Normal(state)
  {
    var entry := Only("avg_s_s", Num(1.0));
    var latency := Only("1", entry);
    var baseline := Only("e2e_latency", latency);
    var round := Only("baseline", baseline);
    GetOnly("e2e_latency", latency);
    GetOnly("baseline", baseline);
    OneRoundReads(round);
    assert "avg_s_s"[..5] == "avg_s";
    assert Suffixed("avg_s_s") && Suffixed("avg_s");
    assert Trail("avg_s") >= 1;
    assert Trail("avg_s_s") == 1 + Trail("avg_s");
    assert Trail(entry.fields[0].key) >= 2;
    assert !EntryWithin(1, latency.fields[0].value);
    assert !LatencyWithin(1, latency);
    assert !RoundWithin(1, round);
    IdempotentIff(OneEntry(entry));
  }

  /** Another: a speedup whose selected value is a dictionary again. */
  lemma NestedSpeedupFails()
    ensures var state := OneTrack(Only("e2e_speedup", Only("value", Only("value", Num(2.0)))));
      Normal(Normal(state)) != Normal(state)
  {
    var inner := Only("value", Num(2.0));
    var speedup := Only("value", inner);
    var track := Only("e2e_speedup", speedup);
    var tracks := Only("op", track);
    var parallel := Only("tracks", tracks);
    var round := Only("parallel_tracks", parallel);
    GetOnly("e2e_speedup", speedup);
    GetOnly("tracks", tracks);
    GetOnly("parallel_tracks", parallel);
    OneRoundReads(round);
    SelectsValue(inner);
    SelectsValue(Num(2.0));
    assert Nesting(speedup) >= 2;
    assert !SpeedupWithin(1, tracks.fields[0].value);
    assert !TracksWithin(1, Get(round.fields, "parallel_tracks"));
    assert !RoundWithin(1, round);
    IdempotentIff(OneTrack(track));
  }

  lemma SelectsValue(v: Json)
    ensures Selected(Only("value", v).fields) == v
  {
    assert "value" != "speedup_x" && "value" != "measured" by {
      assert |"value"| == 5 && |"speedup_x"| == 9 && |"measured"| == 8;
    }
    GetOnly("value", v);
  }

  function Iterate<T>(f: T -> T, k: nat, x: T): T {
    if k == 0 then x else f(Iterate(f, k - 1, x))
  }

  /** Whatever one application lowers by one, k applications lower by k. */
  lemma {:induction false} IterateLowers<T(!new)>(f: T -> T, p: (nat, T) -> bool, n: nat, k: nat, x: T)
    requires forall m: nat, y: T :: p(m, f(y)) <==> p(m + 1, y)
    ensures p(n, Iterate(f, k, x)) <==> p(n + k, x)
    decreases k
  {
    if k > 0 {
      IterateLowers(f, p, n + 1, k - 1, x);
    }
  }

  function Passes(k: nat, state: Json): Json {
    Iterate(Normal, k, state)
  }

  lemma ManyPasses(n: nat, k: nat, state: Json)
    ensures Within(n, Passes(k, state)) <==> Within(n + k, state)
  {
    forall m: nat, s: Json ensures Within(m, Normal(s)) <==> Within(m + 1, s) {
      OnePassOneLevel(m, s);
    }
    IterateLowers(Normal, Within, n, k, state);
  }

  /** Convergence, exactly: after k passes (at least one) the state is a fixed point if and
      only if nothing in the input is more than k levels deep. */
  lemma FixedAfterIff(k: nat, state: Json)
    requires k > 0
    ensures Normal(Passes(k, state)) == Passes(k, state) <==> Within(k, state)
  {
    SecondPass(Passes(k - 1, state));
    ManyPasses(0, k, state);
  }

  // ---------------------------------------------------------------- every state is finite

  lemma {:induction false} DeepestEntry(d: Dict) returns (n: nat)
    ensures EntryWithin(n, Obj(d))
  {
    if d == [] {
      n := 0;
    } else {
      var m := DeepestEntry(d[1..]);
      n := if Trail(d[0].key) > m then Trail(d[0].key) else m;
      forall i | 0 <= i < |d| ensures Trail(d[i].key) <= n {
        if i > 0 { assert d[1..][i - 1] == d[i]; }
      }
    }
  }

  lemma {:induction false} DeepestLatency(d: Dict) returns (n: nat)
    ensures LatencyWithin(n, Obj(d))
  {
    if d == [] {
      n := 0;
    } else {
      var m := DeepestLatency(d[1..]);
      var e := 0;
      if d[0].value.Obj? { e := DeepestEntry(d[0].value.fields); }
      n := if e > m then e else m;
      forall i | 0 <= i < |d| ensures EntryWithin(n, d[i].value) {
        if i > 0 { assert d[1..][i - 1] == d[i]; }
      }
    }
  }

  lemma {:induction false} DeepestSpeedup(js: seq<Json>) returns (n: nat)
    ensures forall i :: 0 <= i < |js| ==> SpeedupWithin(n, js[i])
  {
    if js == [] {
      n := 0;
    } else {
      var m := DeepestSpeedup(js[1..]);
      var e := if js[0].Obj? then Nesting(Get(js[0].fields, "e2e_speedup")) else 0;
      n := if e > m then e else m;
      forall i | 0 <= i < |js| ensures SpeedupWithin(n, js[i]) {
        if i > 0 { assert js[1..][i - 1] == js[i]; }
      }
    }
  }

  lemma DeepestRound(j: Json) returns (n: nat)
    ensures RoundWithin(n, j)
  {
    n := 0;
    if j.Obj? {
      var b, i, pt := AsDict(Get(j.fields, "baseline")), AsDict(Get(j.fields, "integration")),
          Get(j.fields, "parallel_tracks");
      var n1 := DeepestLatency(AsDict(Get(b, "e2e_latency")));
      var n2 := DeepestLatency(AsDict(Get(i, "e2e_latency_combined")));
      var cs := Get(i, "passing_candidates");
      var n3 := DeepestSpeedup(if cs.Arr? then cs.items else []);
      var m := if pt.Obj? then AsDict(Get(pt.fields, "tracks")) else [];
      var js := seq(|m|, i requires 0 <= i < |m| => m[i].value);
      var n4 := DeepestSpeedup(js);
      assert forall i :: 0 <= i < |m| ==> js[i] == m[i].value;
      n := n1 + n2 + n3 + n4;
    }
  }

  lemma {:induction false} DeepestRounds(rs: seq<Json>) returns (n: nat)
    ensures forall i :: 0 <= i < |rs| ==> RoundWithin(n, rs[i])
  {
    if rs == [] {
      n := 0;
    } else {
      var m := DeepestRounds(rs[1..]);
      var e := DeepestRound(rs[0]);
      n := e + m;
      forall i | 0 <= i < |rs| ensures RoundWithin(n, rs[i]) {
        if i > 0 {
          assert rs[1..][i - 1] == rs[i];
          RoundWithinGrows(m, n, rs[i]);
        } else {
          RoundWithinGrows(e, n, rs[i]);
        }
      }
    }
  }

  lemma RoundWithinGrows(m: nat, n: nat, j: Json)
    requires RoundWithin(m, j) && m <= n
    ensures RoundWithin(n, j)
  {
  }

  /** On every JSON state, repeating the rewrite reaches a fixed point. */
  lemma EveryStateSettles(state: Json)
    ensures exists k: nat :: Normal(Passes(k, state)) == Passes(k, state)
  {
    var n: nat := 0;
    if HasRounds(state) {
      n := DeepestRounds(RoundsOf(state));
    }
    assert Within(n + 1, state) by {
      if HasRounds(state) {
        forall i | 0 <= i < |RoundsOf(state)| ensures RoundWithin(n + 1, RoundsOf(state)[i]) {
          RoundWithinGrows(n, n + 1, RoundsOf(state)[i]);
        }
      }
    }
    FixedAfterIff(n + 1, state);
  }
}
