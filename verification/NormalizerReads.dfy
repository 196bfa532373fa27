/** What somebody who reads a rewritten state finds under each key: where each backfilled or
    flattened value comes from, and that everything else is as it was. */
module NormalizerReads {
  import opened Options
  import opened Json
  import opened Normalizer
  import opened NormalizerProof
  import Buckets
  import Speedup

  // ---------------------------------------------------------------- latency maps

  /** A latency map with one bucket, whose average and median are both `v`. */
  ghost predicate OneAverage(j: Json, tag: string, v: Json) {
    && j.Obj? && KeysOf(j.fields) == [tag] && Get(j.fields, tag).Obj?
    && KeysOf(Get(j.fields, tag).fields) == ["avg", "p50"]
    && Get(Get(j.fields, tag).fields, "avg") == v && Get(Get(j.fields, tag).fields, "p50") == v
  }

  lemma OneBucketIs(tag: string, v: Json)
    ensures OneAverage(OneBucket(tag, v), tag, v) && StripLatency(OneBucket(tag, v)) == OneBucket(tag, v)
  {
    FilledIsPlain(tag, v, 0);
    StripLatencyStep(0, OneBucket(tag, v));
    var m := OneBucket(tag, v).fields;
    assert Get(m, tag) == m[0].value;
    var e := m[0].value.fields;
    assert "avg" != "p50" by { assert "avg"[0] != "p50"[0]; }
    assert Get(e, "avg") == v && Get(e[1..], "p50") == v;
    assert KeysOf(e) == ["avg", "p50"] && KeysOf(m) == [tag];
  }

  /** The same map but for `_s` suffixes: the same buckets in the same order; what is no
      dictionary is untouched; and under each key of an entry stands the value of the last key
      that strips to it. */
  ghost predicate SameButStripped(now: Json, was: Json) {
    if !was.Obj? then now == was
    else now.Obj? && KeysOf(now.fields) == KeysOf(was.fields)
         && forall i :: 0 <= i < |was.fields| ==> EntryStripped(now.fields[i].value, was.fields[i].value)
  }

  ghost predicate EntryStripped(now: Json, was: Json) {
    if !was.Obj? then now == was
    else now.Obj? && forall k :: Under(now.fields, was.fields, k)
  }

  ghost predicate Under(now: Dict, was: Dict, k: string) {
    && (Has(now, k) <==> exists i :: 0 <= i < |was| && Stripped(was[i].key) == k)
    && forall i :: IsLastFor(was, i, k) ==> Get(now, k) == was[i].value
  }

  ghost predicate IsLastFor(was: Dict, i: int, k: string) {
    0 <= i < |was| && Stripped(was[i].key) == k && forall j :: i < j < |was| ==> Stripped(was[j].key) != k
  }

  /** Rebuilding keeps, for each stripped key, the value that came last. */
  lemma {:induction false} LastStays(done: Dict, rest: Dict, k: string)
    ensures forall i :: IsLastFor(rest, i, k) ==> Get(StripInto(done, rest), k) == rest[i].value
    ensures (forall i :: 0 <= i < |rest| ==> Stripped(rest[i].key) != k) ==>
        Get(StripInto(done, rest), k) == Get(done, k)
    decreases |rest|
  {
    if rest != [] {
      var key, v := Stripped(rest[0].key), rest[0].value;
      LastStays(Set(done, key, v), rest[1..], k);
      GetSet(done, key, v, k);
      forall i | IsLastFor(rest, i, k) ensures Get(StripInto(done, rest), k) == rest[i].value {
        if i > 0 {
          assert rest[1..][i - 1] == rest[i];
          assert IsLastFor(rest[1..], i - 1, k) by {
            forall j | i - 1 < j < |rest[1..]| ensures Stripped(rest[1..][j].key) != k {
              assert rest[1..][j] == rest[j + 1];
            }
          }
        } else {
          forall j | 0 <= j < |rest[1..]| ensures Stripped(rest[1..][j].key) != k {
            assert rest[1..][j] == rest[j + 1];
          }
        }
      }
    }
  }

  lemma EntryIsStripped(j: Json)
    requires j.Obj? ==> UniqueKeys(j.fields)
    ensures EntryStripped(StripEntry(j), j)
  {
    if j.Obj? {
      var was, now := j.fields, StripEntry(j).fields;
      forall k ensures Under(now, was, k) {
        if AnySuffixed(was) {
          StripIntoKeys([], was, k);
          LastStays([], was, k);
        } else {
          assert forall i :: 0 <= i < |was| ==> Stripped(was[i].key) == was[i].key;
          forall i | IsLastFor(was, i, k) ensures Get(now, k) == was[i].value {
            GetAt(was, i);
          }
        }
      }
    }
  }

  /** No entry of a map repeats a key. */
  ghost predicate EntriesUnique(j: Json) {
    j.Obj? ==> forall i :: 0 <= i < |j.fields| && j.fields[i].value.Obj? ==> UniqueKeys(j.fields[i].value.fields)
  }

  lemma LatencyIsStripped(j: Json)
    requires EntriesUnique(j)
    ensures SameButStripped(StripLatency(j), j)
  {
    if j.Obj? {
      forall i | 0 <= i < |j.fields| ensures EntryStripped(StripMap(j.fields)[i].value, j.fields[i].value) {
        EntryIsStripped(j.fields[i].value);
      }
      assert KeysOf(StripMap(j.fields)) == KeysOf(j.fields);
    }
  }

  lemma StripUnderReads(d: Dict, k: string)
    ensures Get(StripUnder(d, k), k) == StripLatency(Get(d, k))
    ensures forall o :: o != k ==> Get(StripUnder(d, k), o) == Get(d, o)
  {
    StripUnderStep(0, d, k);
    GetSet(d, k, StripLatency(Get(d, k)), k);
  }

  // ---------------------------------------------------------------- backfills

  /** The tag of a backfilled bucket: of the verdict map's keys that parse, the first in bucket
      order; "1" where there is none. */
  lemma LegacyTagIs(cer: Dict)
    requires Get(cer, "per_bs_verdict").Obj? ==> UniqueKeys(Get(cer, "per_bs_verdict").fields)
    ensures var verdict := AsDict(Get(cer, "per_bs_verdict"));
      if exists t :: Has(verdict, t) && Buckets.Parse(t).Some? then
        && Has(verdict, LegacyTag(cer)) && Buckets.Parse(LegacyTag(cer)).Some?
        && forall t :: Has(verdict, t) && Buckets.Parse(t).Some? ==>
             t == LegacyTag(cer) || Buckets.Before(Buckets.Parse(LegacyTag(cer)).value, Buckets.Parse(t).value)
      else LegacyTag(cer) == "1"
  {
    if Get(cer, "per_bs_verdict").Obj? {
      var verdict := Get(cer, "per_bs_verdict").fields;
      var rs := Buckets.Records(KeysOf(verdict));
      Speedup.KeysAreDistinct(verdict);
      Buckets.RecordsAre(KeysOf(verdict));
      forall t | Has(verdict, t) && Buckets.Parse(t).Some?
          ensures Buckets.Parse(t).value in rs && Buckets.Parse(t).value.tag == t {
        Buckets.ParseKeepsTag(t);
        Speedup.InKeys(verdict, t);
      }
      if rs != [] {
        assert rs[0] in rs;
        Speedup.InKeys(verdict, rs[0].tag);
        forall t | Has(verdict, t) && Buckets.Parse(t).Some?
          ensures t == rs[0].tag || Buckets.Before(rs[0], Buckets.Parse(t).value)
        {
          var i :| 0 <= i < |rs| && rs[i] == Buckets.Parse(t).value;
        }
      }
    }
  }

  lemma FillLatencyReads(d: Dict, k: string, tag: string, v: Json)
    ensures Get(FillLatency(d, k, tag, v), k) ==
            if !Truthy(Get(d, k)) && IsPositive(v) then OneBucket(tag, v) else Get(d, k)
    ensures forall o :: o != k ==> Get(FillLatency(d, k, tag, v), o) == Get(d, o)
  {
    if !Truthy(Get(d, k)) && IsPositive(v) {
      GetSet(d, k, OneBucket(tag, v), k);
      forall o ensures o != k ==> Get(FillLatency(d, k, tag, v), o) == Get(d, o) {
        GetSet(d, k, OneBucket(tag, v), o);
      }
    }
  }

  lemma FalsyStays(j: Json)
    requires !Truthy(j)
    ensures StripLatency(j) == j
  {
    if j.Obj? { assert StripMap(j.fields) == []; }
  }

  /** Which value a backfilled map carries: the first of the two candidates that is a positive
      number, and none where the map had something already or neither candidate is one. */
  ghost predicate Backfilled(now: Json, was: Json, tag: string, first: Json, second: Json) {
    && (!Truthy(was) && IsPositive(first) ==> OneAverage(now, tag, first))
    && (!Truthy(was) && !IsPositive(first) && IsPositive(second) ==> OneAverage(now, tag, second))
    && (!Truthy(was) && !IsPositive(first) && !IsPositive(second) ==> now == was)
    && (Truthy(was) && EntriesUnique(was) ==> SameButStripped(now, was))
  }

  lemma FilledAndStripped(was: Json, tag: string, first: Json, second: Json, v: Json)
    requires v == if IsPositive(first) then first else second
    ensures Backfilled(StripLatency(if !Truthy(was) && IsPositive(v) then OneBucket(tag, v) else was), was, tag,
        first, second)
  {
    if Truthy(was) {
      if EntriesUnique(was) { LatencyIsStripped(was); }
    } else if IsPositive(v) {
      OneBucketIs(tag, v);
    } else {
      FalsyStays(was);
    }
  }

  /** An integration's combined latency comes from the legacy result's opt_s, else from its own
      opt_s; its candidates are flattened; nothing else in it changes. */
  lemma IntegrationIsBackfilled(d: Dict)
    ensures var d', cer := NormalIntegration(d), AsDict(Get(d, "combined_e2e_result"));
      && Backfilled(Get(d', "e2e_latency_combined"), Get(d, "e2e_latency_combined"), LegacyTag(cer),
                    Get(cer, "opt_s"), Get(d, "opt_s"))
      && Get(d', "passing_candidates") == Get(FlattenCandidates(d), "passing_candidates")
      && forall o :: o != "e2e_latency_combined" && o != "passing_candidates" ==> Get(d', o) == Get(d, o)
  {
    var cer := AsDict(Get(d, "combined_e2e_result"));
    IntegrationKeysDiffer();
    FilledAndStripped(Get(d, "e2e_latency_combined"), LegacyTag(cer), Get(cer, "opt_s"), Get(d, "opt_s"), OptS(cer, d));
    FilledReads(d, LegacyTag(cer), OptS(cer, d), "e2e_latency_combined", "passing_candidates", NormalIntegration(d));
  }

  /** The keys stand apart, so that no literals are compared. */
  lemma FilledReads(d: Dict, tag: string, v: Json, k: string, c: string, d': Dict)
    requires c == "passing_candidates" && k != c && d' == StripUnder(FlattenCandidates(FillLatency(d, k, tag, v)), k)
    ensures Get(d', k) == StripLatency(if !Truthy(Get(d, k)) && IsPositive(v) then OneBucket(tag, v) else Get(d, k))
    ensures Get(d', c) == Get(FlattenCandidates(d), c)
    ensures forall o :: o != k && o != c ==> Get(d', o) == Get(d, o)
  {
    var d1 := FillLatency(d, k, tag, v);
    var d2 := FlattenCandidates(d1);
    FillLatencyReads(d, k, tag, v);
    CandidatesRead(d1);
    CandidatesRead(d);
    StripUnderReads(d2, k);
  }

  lemma CandidatesRead(d: Dict)
    ensures var cs := Get(d, "passing_candidates");
      Get(FlattenCandidates(d), "passing_candidates") == if cs.Arr? then Arr(NormalCandidates(cs.items)) else cs
    ensures forall o :: o != "passing_candidates" ==> Get(FlattenCandidates(d), o) == Get(d, o)
  {
    var cs := Get(d, "passing_candidates");
    if cs.Arr? {
      var v := Arr(NormalCandidates(cs.items));
      GetSet(d, "passing_candidates", v, "passing_candidates");
      forall o ensures o != "passing_candidates" ==> Get(FlattenCandidates(d), o) == Get(d, o) {
        GetSet(d, "passing_candidates", v, o);
      }
    }
  }

  /** A baseline's latency comes from the legacy result's latency_baseline_s, and its verdicts
      from the legacy result's, where it had none; nothing else in it changes. */
  lemma BaselineIsBackfilled(b: Dict, cer: Dict)
    ensures var b', verdict := NormalBaseline(b, cer), Get(cer, "per_bs_verdict");
      && Backfilled(Get(b', "e2e_latency"), Get(b, "e2e_latency"), LegacyTag(cer), Get(cer, "latency_baseline_s"), Null)
      && (Get(b', "per_bs_verdict") ==
            if !Truthy(Get(b, "per_bs_verdict")) && verdict.Obj? && Truthy(verdict) then verdict
                else Get(b, "per_bs_verdict"))
      && forall o :: o != "e2e_latency" && o != "per_bs_verdict" ==> Get(b', o) == Get(b, o)
  {
    var lat := Get(cer, "latency_baseline_s");
    BaselineKeysDiffer();
    FilledAndStripped(Get(b, "e2e_latency"), LegacyTag(cer), lat, Null, if IsPositive(lat) then lat else Null);
    FillLatencyReads(b, "e2e_latency", LegacyTag(cer), lat);
    VerdictThenStrip(b, FillLatency(b, "e2e_latency", LegacyTag(cer), lat), Get(cer, "per_bs_verdict"), "e2e_latency",
        "per_bs_verdict", NormalBaseline(b, cer));
  }

  lemma VerdictThenStrip(b: Dict, b1: Dict, verdict: Json, k: string, v: string, b': Dict)
    requires v == "per_bs_verdict" && k != v && b' == StripUnder(FillVerdict(b1, verdict), k)
    requires forall o :: o != k ==> Get(b1, o) == Get(b, o)
    ensures Get(b', k) == StripLatency(Get(b1, k)) && Get(b', v) == Chosen(Get(b, v), verdict)
    ensures forall o :: o != k && o != v ==> Get(b', o) == Get(b, o)
  {
    VerdictReads(b1, verdict, v);
    StripUnderReads(FillVerdict(b1, verdict), k);
    ThreeSteps(b, b1, FillVerdict(b1, verdict), b', k, v, verdict);
  }

  /** Changes under one key, under another, and under the first again. */
  lemma ThreeSteps(b: Dict, b1: Dict, b2: Dict, b3: Dict, k: string, v: string, verdict: Json)
    requires k != v && Get(b2, v) == Chosen(Get(b1, v), verdict) && Get(b3, k) == StripLatency(Get(b2, k))
    requires forall o :: o != k ==> Get(b1, o) == Get(b, o)
    requires forall o :: o != v ==> Get(b2, o) == Get(b1, o)
    requires forall o :: o != k ==> Get(b3, o) == Get(b2, o)
    ensures Get(b3, k) == StripLatency(Get(b1, k)) && Get(b3, v) == Chosen(Get(b, v), verdict)
    ensures forall o :: o != k && o != v ==> Get(b3, o) == Get(b, o)
  {
    assert Get(b3, v) == Get(b2, v) && Get(b1, v) == Get(b, v) && Get(b2, k) == Get(b1, k);
    forall o | o != k && o != v ensures Get(b3, o) == Get(b, o) {
      assert Get(b3, o) == Get(b2, o) && Get(b2, o) == Get(b1, o) && Get(b1, o) == Get(b, o);
    }
  }

  /** A non-empty verdict map stands in for something falsy. */
  function Chosen(was: Json, verdict: Json): Json {
    if !Truthy(was) && verdict.Obj? && verdict.fields != [] then verdict else was
  }

  lemma VerdictReads(d: Dict, verdict: Json, v: string)
    requires v == "per_bs_verdict"
    ensures Get(FillVerdict(d, verdict), v) == Chosen(Get(d, v), verdict)
    ensures forall o :: o != v ==> Get(FillVerdict(d, verdict), o) == Get(d, o)
  {
    FillVerdictIs(d, verdict);
    GetSet(d, v, verdict, v);
  }

  // ---------------------------------------------------------------- speedups

  /** A speedup dictionary gives way to its first truthy candidate; anything else stays. */
  ghost predicate Flattened(now: Json, was: Json) {
    && (!was.Obj? ==> now == was)
    && (was.Obj? && Truthy(Get(was.fields, "speedup_x")) ==> now == Get(was.fields, "speedup_x"))
    && (was.Obj? && !Truthy(Get(was.fields, "speedup_x")) && Truthy(Get(was.fields, "measured")) ==>
          now == Get(was.fields, "measured"))
    && (was.Obj? && !Truthy(Get(was.fields, "speedup_x")) && !Truthy(Get(was.fields, "measured")) ==>
          now == Get(was.fields, "value"))
  }

  lemma FlattenReads(d: Dict)
    ensures Flattened(Get(FlattenSpeedup(d), "e2e_speedup"), Get(d, "e2e_speedup"))
    ensures forall o :: o != "e2e_speedup" ==> Get(FlattenSpeedup(d), o) == Get(d, o)
  {
    FlattenStep(0, d);
    var es := Get(d, "e2e_speedup");
    if es.Obj? {
      GetSet(d, "e2e_speedup", Selected(es.fields), "e2e_speedup");
    }
  }

  /** The keys that are no variants. */
  lemma MetaKeysDoNotCount(f: Field)
    ensures Counts(f) <==> IsPositive(f.value) && f.key != "target" && f.key != "floor" && f.key != "ship_gate"
                           && f.key != "threshold" && f.key != "ceiling"
  {
  }

  /** A kernel's variants give way to the greatest one that counts, or null, and are kept aside;
      a scalar stays. */
  ghost predicate KernelSplit(now: Dict, was: Dict, kernel: string, variants: string) {
    var ks := Get(was, kernel);
    && (!ks.Obj? ==> Get(now, kernel) == ks && Get(now, variants) == Get(was, variants))
    && (ks.Obj? ==> Get(now, variants) == ks)
    && (ks.Obj? && (forall f :: f in ks.fields ==> !Counts(f)) ==> Get(now, kernel) == Null)
    && (ks.Obj? && (exists f :: f in ks.fields && Counts(f)) ==>
          && IsNumber(Get(now, kernel))
          && (exists f :: f in ks.fields && Counts(f) && f.value == Get(now, kernel))
          && (forall f :: f in ks.fields && Counts(f) ==> AsReal(f.value) <= AsReal(Get(now, kernel))))
  }

  lemma KernelIsSplit(t: Dict)
    ensures KernelSplit(SplitKernel(t), t, "kernel_speedup", "kernel_speedup_variants")
    ensures forall o :: o != "kernel_speedup" && o != "kernel_speedup_variants" ==> Get(SplitKernel(t), o) == Get(t, o)
  {
    assert |"kernel_speedup"| == 14 && |"kernel_speedup_variants"| == 23;
    SplitReads(t, "kernel_speedup", "kernel_speedup_variants", SplitKernel(t));
  }

  lemma SplitReads(t: Dict, kernel: string, variants: string, t': Dict)
    requires kernel != variants
    requires t' == if Get(t, kernel).Obj?
                   then Set(Set(t, kernel, OrNull(MaxVariant(Get(t, kernel).fields))), variants, Get(t, kernel)) else t
    ensures KernelSplit(t', t, kernel, variants)
    ensures forall o :: o != kernel && o != variants ==> Get(t', o) == Get(t, o)
  {
    var ks := Get(t, kernel);
    if ks.Obj? {
      var v := OrNull(MaxVariant(ks.fields));
      var t1 := Set(t, kernel, v);
      GetSet(t, kernel, v, kernel);
      GetSet(t1, variants, ks, kernel);
      forall o ensures o != kernel && o != variants ==> Get(t', o) == Get(t, o) {
        GetSet(t, kernel, v, o);
        GetSet(t1, variants, ks, o);
      }
      MaxVariantIs(ks.fields);
    }
  }

  /** A candidate keeps everything but a speedup dictionary; what is no dictionary stays. */
  ghost predicate CandidateFlattened(now: Json, was: Json) {
    if !was.Obj? then now == was
    else now.Obj? && Flattened(Get(now.fields, "e2e_speedup"), Get(was.fields, "e2e_speedup"))
         && forall o :: o != "e2e_speedup" ==> Get(now.fields, o) == Get(was.fields, o)
  }

  /** Every candidate of an integration, in place. */
  lemma CandidatesAreFlattened(d: Dict)
    ensures var cs, cs' := Get(d, "passing_candidates"), Get(NormalIntegration(d), "passing_candidates");
      if !cs.Arr? then cs' == cs
      else cs'.Arr? && |cs'.items| == |cs.items|
           && forall i :: 0 <= i < |cs.items| ==> CandidateFlattened(cs'.items[i], cs.items[i])
  {
    IntegrationIsBackfilled(d);
    CandidatesRead(d);
    var cs := Get(d, "passing_candidates");
    if cs.Arr? {
      forall i | 0 <= i < |cs.items| ensures CandidateFlattened(NormalCandidates(cs.items)[i], cs.items[i]) {
        if cs.items[i].Obj? { FlattenReads(cs.items[i].fields); }
      }
    }
  }

  /** A track keeps everything but its kernel and end-to-end speedups; what is no dictionary
      stays. */
  ghost predicate TrackRewritten(now: Json, was: Json) {
    if !was.Obj? then now == was
    else
      && now.Obj? && KernelSplit(now.fields, was.fields, "kernel_speedup", "kernel_speedup_variants")
      && Flattened(Get(now.fields, "e2e_speedup"), Get(was.fields, "e2e_speedup"))
      && forall o :: o != "kernel_speedup" && o != "kernel_speedup_variants" && o != "e2e_speedup" ==>
           Get(now.fields, o) == Get(was.fields, o)
  }

  lemma TrackReads(t: Dict)
    ensures var t' := FlattenSpeedup(SplitKernel(t));
      && KernelSplit(t', t, "kernel_speedup", "kernel_speedup_variants")
      && Flattened(Get(t', "e2e_speedup"), Get(t, "e2e_speedup"))
      && forall o :: o != "kernel_speedup" && o != "kernel_speedup_variants" && o != "e2e_speedup" ==>
          Get(t', o) == Get(t, o)
  {
    KernelIsSplit(t);
    FlattenReads(SplitKernel(t));
    assert "e2e_speedup"[0] != "kernel_speedup"[0] && "e2e_speedup"[0] != "kernel_speedup_variants"[0];
  }

  // ---------------------------------------------------------------- rounds and states

  /** A rewritten round: baseline and integration rewritten from what stood there, or from
      nothing, with the legacy result of the integration; the tracks rewritten; and nothing
      else touched. */
  ghost predicate RoundRewritten(r': Dict, r: Dict) {
    var i := AsDict(Get(r, "integration"));
    && Get(r', "baseline") == Obj(NormalBaseline(AsDict(Get(r, "baseline")), AsDict(Get(i, "combined_e2e_result"))))
    && Get(r', "integration") == Obj(NormalIntegration(i))
    && Get(r', "parallel_tracks") == NormalParallel(Get(r, "parallel_tracks"))
    && forall o :: o != "baseline" && o != "integration" && o != "parallel_tracks" ==> Get(r', o) == Get(r, o)
  }

  lemma RoundIsRewritten(r: Dict)
    ensures RoundRewritten(NormalRound(r), r)
  {
    RoundReads(r);
    var b, i := AsDict(Get(r, "baseline")), AsDict(Get(r, "integration"));
    var b', i' := Obj(NormalBaseline(b, AsDict(Get(i, "combined_e2e_result")))), Obj(NormalIntegration(i));
    ThreeSets(r, "baseline", b', "integration", i', "parallel_tracks", NormalParallel(Get(r, "parallel_tracks")),
        NormalRound(r));
  }

  lemma ThreeSets(r: Dict, x: string, vx: Json, y: string, vy: Json, z: string, vz: Json, r': Dict)
    requires var r2 := Set(Set(r, x, vx), y, vy); r' == if Get(r, z).Obj? then Set(r2, z, vz) else r2
    ensures forall o :: o != x && o != y && o != z ==> Get(r', o) == Get(r, o)
  {
    forall o ensures o != x && o != y && o != z ==> Get(r', o) == Get(r, o) {
      GetSet(r, x, vx, o);
      GetSet(Set(r, x, vx), y, vy, o);
      GetSet(Set(Set(r, x, vx), y, vy), z, vz, o);
    }
  }

  /** The tracks: the same ids in the same order, each dictionary among them rewritten. */
  lemma TracksAreRewritten(pt: Json)
    requires pt.Obj? && Get(pt.fields, "tracks").Obj?
    ensures var tracks, pt' := Get(pt.fields, "tracks").fields, NormalParallel(pt);
      && pt'.Obj? && Get(pt'.fields, "tracks").Obj?
      && var tracks' := Get(pt'.fields, "tracks").fields;
        && KeysOf(tracks') == KeysOf(tracks)
        && (forall i :: 0 <= i < |tracks| ==> TrackRewritten(tracks'[i].value, tracks[i].value))
        && forall o :: o != "tracks" ==> Get(pt'.fields, o) == Get(pt.fields, o)
  {
    var tracks := Get(pt.fields, "tracks").fields;
    forall o ensures o != "tracks" ==> Get(NormalParallel(pt).fields, o) == Get(pt.fields, o) {
      GetSet(pt.fields, "tracks", Obj(NormalTracks(tracks)), o);
    }
    GetSet(pt.fields, "tracks", Obj(NormalTracks(tracks)), "tracks");
    assert KeysOf(NormalTracks(tracks)) == KeysOf(tracks);
    forall i | 0 <= i < |tracks| ensures TrackRewritten(NormalTracks(tracks)[i].value, tracks[i].value) {
      if tracks[i].value.Obj? { TrackReads(tracks[i].value.fields); }
    }
  }

  /** The rewritten state: every round rewritten, the cumulative speedup of the rewritten rounds
      put beside them, and nothing else touched. */
  lemma StateIsRewritten(state: Json)
    ensures !HasRounds(state) ==> Normal(state) == state
    ensures HasRounds(state) ==>
              var c, state' := Get(state.fields, "campaign").fields, Normal(state);
              && state'.Obj? && Get(state'.fields, "campaign").Obj?
              && (forall o :: o != "campaign" ==> Get(state'.fields, o) == Get(state.fields, o))
              && var c' := Get(state'.fields, "campaign").fields;
                && Get(c', "rounds").Arr? && RoundsRewritten(Get(c', "rounds").items, Get(c, "rounds").items)
                && Get(c', "cumulative_e2e_speedup") == Num(Speedup.Cumulative(c'))
                && forall o :: o != "rounds" && o != "cumulative_e2e_speedup" ==> Get(c', o) == Get(c, o)
  {
    if HasRounds(state) {
      var c := Get(state.fields, "campaign").fields;
      forall o ensures o != "campaign" ==> Get(Normal(state).fields, o) == Get(state.fields, o) {
        GetSet(state.fields, "campaign", Obj(NormalCampaign(c)), o);
      }
      GetSet(state.fields, "campaign", Obj(NormalCampaign(c)), "campaign");
      assert "rounds"[0] != "cumulative_e2e_speedup"[0];
      RoundsAreRewritten(Get(c, "rounds").items);
      CampaignReads(c, "rounds", "cumulative_e2e_speedup", NormalCampaign(c));
    }
  }

  /** Every dictionary among the rounds, in place. */
  ghost predicate RoundsRewritten(now: seq<Json>, was: seq<Json>) {
    && |now| == |was|
    && forall i :: 0 <= i < |was| ==>
         if was[i].Obj? then now[i].Obj? && RoundRewritten(now[i].fields, was[i].fields) else now[i] == was[i]
  }

  lemma RoundsAreRewritten(rs: seq<Json>)
    ensures RoundsRewritten(NormalRounds(rs), rs)
  {
    forall i | 0 <= i < |rs| && rs[i].Obj? ensures RoundRewritten(NormalRounds(rs)[i].fields, rs[i].fields) {
      RoundIsRewritten(rs[i].fields);
    }
  }

  lemma CampaignReads(c: Dict, rounds: string, total: string, c': Dict)
    requires rounds == "rounds" && rounds != total && Get(c, rounds).Arr?
    requires var c1 := Set(c, rounds, Arr(NormalRounds(Get(c, rounds).items)));
      c' == Set(c1, total, Num(Speedup.Cumulative(c1)))
    ensures Get(c', rounds) == Arr(NormalRounds(Get(c, rounds).items))
    ensures Get(c', total) == Num(Speedup.Cumulative(c'))
    ensures forall o :: o != rounds && o != total ==> Get(c', o) == Get(c, o)
  {
    var v := Arr(NormalRounds(Get(c, rounds).items));
    var c1 := Set(c, rounds, v);
    GetSet(c, rounds, v, rounds);
    GetSet(c1, total, Num(Speedup.Cumulative(c1)), rounds);
    CumulativeReadsRounds(c1, c');
    forall o ensures o != rounds && o != total ==> Get(c', o) == Get(c, o) {
      GetSet(c, rounds, v, o);
      GetSet(c1, total, Num(Speedup.Cumulative(c1)), o);
    }
  }
}
