/** The read-path rewrite of campaign state: backfills from legacy fields, flattening of
    speedup dictionaries, stripping of `_s` suffixes, and the injected cumulative speedup.
    The rewrite claims to be idempotent; it is so exactly when nothing is nested or
    suffixed twice, and repeating it reaches a fixed point on every state. */
module Normalizer {
  import opened Options
  import opened Json
  import Buckets
  import Speedup

  // ---------------------------------------------------------------- `_s` suffixes

  predicate Suffixed(k: string) {
    |k| >= 2 && k[|k| - 2..] == "_s"
  }

  function Stripped(k: string): string {
    if Suffixed(k) then k[..|k| - 2] else k
  }

  /** How many `_s` a key ends in. */
  function Trail(k: string): nat {
    if Suffixed(k) then 1 + Trail(k[..|k| - 2]) else 0
  }

  predicate AnySuffixed(d: Dict) {
    exists i :: 0 <= i < |d| && Suffixed(d[i].key)
  }

  /** Rebuild an entry key by key; when two keys collide the later value stays. */
  function StripInto(done: Dict, rest: Dict): Dict
    decreases |rest|
  {
    if rest == [] then done else StripInto(Set(done, Stripped(rest[0].key), rest[0].value), rest[1..])
  }

  function StripEntry(j: Json): Json {
    if j.Obj? && AnySuffixed(j.fields) then Obj(StripInto([], j.fields)) else j
  }

  function StripMap(m: Dict): (r: Dict)
    ensures |r| == |m|
  {
    seq(|m|, i requires 0 <= i < |m| => Field(m[i].key, StripEntry(m[i].value)))
  }

  function StripLatency(j: Json): Json {
    if j.Obj? then Obj(StripMap(j.fields)) else j
  }

  function StripUnder(d: Dict, k: string): Dict {
    if Get(d, k).Obj? then Set(d, k, StripLatency(Get(d, k))) else d
  }

  // ---------------------------------------------------------------- speedups

  /** The first truthy candidate, and the last one whatever it is. */
  function Selected(es: Dict): Json {
    if Truthy(Get(es, "speedup_x")) then Get(es, "speedup_x")
    else if Truthy(Get(es, "measured")) then Get(es, "measured")
    else Get(es, "value")
  }

  function FlattenSpeedup(d: Dict): Dict {
    if Get(d, "e2e_speedup").Obj? then Set(d, "e2e_speedup", Selected(Get(d, "e2e_speedup").fields)) else d
  }

  const META := {"target", "floor", "ship_gate", "threshold", "ceiling"}

  predicate Counts(f: Field) {
    f.key !in META && IsPositive(f.value)
  }

  /** max() over the non-meta positive numbers: the first one that nothing exceeds. */
  function MaxVariant(ks: Dict): Option<Json> {
    if ks == [] then None
    else
      var front, last := MaxVariant(ks[..|ks| - 1]), ks[|ks| - 1];
      if !Counts(last) || (front.Some? && IsNumber(front.value) && AsReal(front.value) >= AsReal(last.value)) then front
      else Some(last.value)
  }

  function OrNull(o: Option<Json>): Json {
    match o case None => Null case Some(j) => j
  }

  function SplitKernel(t: Dict): Dict {
    var ks := Get(t, "kernel_speedup");
    if ks.Obj? then Set(Set(t, "kernel_speedup", OrNull(MaxVariant(ks.fields))), "kernel_speedup_variants", ks) else t
  }

  function NormalTrack(j: Json): Json {
    if j.Obj? then Obj(FlattenSpeedup(SplitKernel(j.fields))) else j
  }

  function NormalTracks(m: Dict): (r: Dict)
    ensures |r| == |m|
  {
    seq(|m|, i requires 0 <= i < |m| => Field(m[i].key, NormalTrack(m[i].value)))
  }

  function NormalParallel(pt: Json): Json {
    if pt.Obj? && Get(pt.fields, "tracks").Obj?
    then Obj(Set(pt.fields, "tracks", Obj(NormalTracks(Get(pt.fields, "tracks").fields)))) else pt
  }

  function NormalCandidate(j: Json): Json {
    if j.Obj? then Obj(FlattenSpeedup(j.fields)) else j
  }

  function NormalCandidates(xs: seq<Json>): (r: seq<Json>)
    ensures |r| == |xs|
  {
    seq(|xs|, i requires 0 <= i < |xs| => NormalCandidate(xs[i]))
  }

  function FlattenCandidates(d: Dict): Dict {
    var cs := Get(d, "passing_candidates");
    if cs.Arr? then Set(d, "passing_candidates", Arr(NormalCandidates(cs.items))) else d
  }

  // ---------------------------------------------------------------- backfills

  /** The first verdict bucket's tag, or the historical numeric key. */
  function LegacyTag(cer: Dict): string {
    var verdict := Get(cer, "per_bs_verdict");
    if !verdict.Obj? then "1"
    else
      var rs := Buckets.Records(KeysOf(verdict.fields));
      if rs == [] then "1" else rs[0].tag
  }

  function OneBucket(tag: string, v: Json): Json {
    Obj([Field(tag, Obj([Field("avg", v), Field("p50", v)]))])
  }

  function FillLatency(d: Dict, k: string, tag: string, v: Json): Dict {
    if !Truthy(Get(d, k)) && IsPositive(v) then Set(d, k, OneBucket(tag, v)) else d
  }

  function FillVerdict(d: Dict, verdict: Json): Dict {
    if !Truthy(Get(d, "per_bs_verdict")) && verdict.Obj? && verdict.fields != []
        then Set(d, "per_bs_verdict", verdict) else d
  }

  /** opt_s of the legacy result when it is a positive number, else the standalone one. */
  function OptS(cer: Dict, integ: Dict): Json {
    if IsPositive(Get(cer, "opt_s")) then Get(cer, "opt_s") else Get(integ, "opt_s")
  }

  function NormalBaseline(b: Dict, cer: Dict): Dict {
    StripUnder(FillVerdict(FillLatency(b, "e2e_latency", LegacyTag(cer), Get(cer, "latency_baseline_s")),
                           Get(cer, "per_bs_verdict")), "e2e_latency")
  }

  function NormalIntegration(d: Dict): Dict {
    var cer := AsDict(Get(d, "combined_e2e_result"));
    FilledIntegration(d, LegacyTag(cer), OptS(cer, d))
  }

  function FilledIntegration(d: Dict, tag: string, v: Json): Dict {
    StripUnder(FlattenCandidates(FillLatency(d, "e2e_latency_combined", tag, v)), "e2e_latency_combined")
  }

  function NormalRound(r: Dict): Dict {
    var b, i := AsDict(Get(r, "baseline")), AsDict(Get(r, "integration"));
    var cer := AsDict(Get(i, "combined_e2e_result"));
    var filled := Set(Set(r, "baseline", Obj(NormalBaseline(b, cer))), "integration", Obj(NormalIntegration(i)));
    if Get(r, "parallel_tracks").Obj? then Set(filled, "parallel_tracks", NormalParallel(Get(r, "parallel_tracks")))
        else filled
  }

  function NormalRoundJson(j: Json): Json {
    if j.Obj? then Obj(NormalRound(j.fields)) else j
  }

  function NormalRounds(rs: seq<Json>): (r: seq<Json>)
    ensures |r| == |rs|
  {
    seq(|rs|, i requires 0 <= i < |rs| => NormalRoundJson(rs[i]))
  }

  function NormalCampaign(c: Dict): Dict
    requires Get(c, "rounds").Arr?
  {
    var c' := Set(c, "rounds", Arr(NormalRounds(Get(c, "rounds").items)));
    Set(c', "cumulative_e2e_speedup", Num(Speedup.Cumulative(c')))
  }

  predicate HasRounds(state: Json) {
    && state.Obj? && Get(state.fields, "campaign").Obj?
    && Get(Get(state.fields, "campaign").fields, "rounds").Arr?
  }

  function Normal(state: Json): Json {
    if !HasRounds(state) then state
    else Obj(Set(state.fields, "campaign", Obj(NormalCampaign(Get(state.fields, "campaign").fields))))
  }

  // ---------------------------------------------------------------- how nested is it

  /** How often a speedup must be flattened before it is no dictionary. */
  function Nesting(j: Json): nat
    decreases j
  {
    if !j.Obj? then 0
    else
      SelectedIsPart(j.fields);
      if Selected(j.fields).Obj? then 1 + Nesting(Selected(j.fields)) else 1
  }

  lemma SelectedIsPart(d: Dict)
    ensures Selected(d).Obj? ==> (Obj(d) decreases to Selected(d))
    ensures Selected(d) != Obj(d)
  {
    GetIsPart(d, "speedup_x");
    GetIsPart(d, "measured");
    GetIsPart(d, "value");
  }

  // Every measure below is at most `n` wherever the rewrite looks.

  ghost predicate EntryWithin(n: nat, j: Json) {
    j.Obj? ==> forall i :: 0 <= i < |j.fields| ==> Trail(j.fields[i].key) <= n
  }

  ghost predicate LatencyWithin(n: nat, j: Json) {
    j.Obj? ==> forall i :: 0 <= i < |j.fields| ==> EntryWithin(n, j.fields[i].value)
  }

  ghost predicate SpeedupWithin(n: nat, j: Json) {
    j.Obj? ==> Nesting(Get(j.fields, "e2e_speedup")) <= n
  }

  ghost predicate TracksWithin(n: nat, pt: Json) {
    pt.Obj? && Get(pt.fields, "tracks").Obj? ==>
      var m := Get(pt.fields, "tracks").fields;
      forall i :: 0 <= i < |m| ==> SpeedupWithin(n, m[i].value)
  }

  ghost predicate CandidatesWithin(n: nat, cs: Json) {
    cs.Arr? ==> forall i :: 0 <= i < |cs.items| ==> SpeedupWithin(n, cs.items[i])
  }

  ghost predicate BaselineWithin(n: nat, b: Dict) {
    LatencyWithin(n, Get(b, "e2e_latency"))
  }

  ghost predicate IntegrationWithin(n: nat, d: Dict) {
    LatencyWithin(n, Get(d, "e2e_latency_combined")) && CandidatesWithin(n, Get(d, "passing_candidates"))
  }

  ghost predicate RoundWithin(n: nat, j: Json) {
    j.Obj? ==>
      && BaselineWithin(n, AsDict(Get(j.fields, "baseline")))
      && IntegrationWithin(n, AsDict(Get(j.fields, "integration")))
      && TracksWithin(n, Get(j.fields, "parallel_tracks"))
  }

  ghost predicate Within(n: nat, state: Json) {
    HasRounds(state) ==>
      var rs := Get(Get(state.fields, "campaign").fields, "rounds").items;
      forall i :: 0 <= i < |rs| ==> RoundWithin(n, rs[i])
  }
}
