/** The rewrite as it runs: dictionaries changed in place, key by key. Every method is tied
    to the function that says what the dictionary becomes. */
module NormalizerInPlace {
  import opened Options
  import opened Json
  import opened Normalizer
  import Speedup

  /** No dictionary anywhere repeats a key, as in any parsed JSON document. */
  ghost predicate WellFormed(j: Json)
    decreases j
  {
    match j
    case Obj(fields) => UniqueKeys(fields) && forall i :: 0 <= i < |fields| ==> WellFormed(fields[i].value)
    case Arr(items) => forall i :: 0 <= i < |items| ==> WellFormed(items[i])
    case _ => true
  }

  lemma PartIsWellFormed(d: Dict, k: string)
    requires WellFormed(Obj(d))
    ensures WellFormed(Get(d, k))
  {
    GetIsPart(d, k);
  }

  method StripKeys(entry: Dict) returns (cleaned: Dict)
    ensures cleaned == StripInto([], entry)
  {
    cleaned := [];
    var i := 0;
    while i < |entry|
      invariant 0 <= i <= |entry|
      invariant StripInto(cleaned, entry[i..]) == StripInto([], entry)
    {
      assert entry[i..][1..] == entry[i + 1..];
      if Suffixed(entry[i].key) {
        cleaned := Set(cleaned, entry[i].key[..|entry[i].key| - 2], entry[i].value);
      } else {
        cleaned := Set(cleaned, entry[i].key, entry[i].value);
      }
      i := i + 1;
    }
  }

  /** Stripped up to `i`: the keys are still the same, and the next entry is untouched. */
  lemma NextStripped(d: Dict, i: nat)
    requires UniqueKeys(d) && i < |d|
    ensures var now := PartlyStripped(d, i);
      && UniqueKeys(now) && |now| == |d| && now[i] == d[i]
      && now[i := Field(d[i].key, StripEntry(d[i].value))] == PartlyStripped(d, i + 1)
  {
  }

  lemma StrippedEnds(d: Dict)
    ensures PartlyStripped(d, 0) == d && PartlyStripped(d, |d|) == StripMap(d)
  {
  }

  function PartlyStripped(d: Dict, i: nat): Dict
    requires i <= |d|
  {
    StripMap(d)[..i] + d[i..]
  }

  /** A dictionary object. */
  class JsonDict {
    var fields: Dict

    constructor (d: Dict)
      ensures fields == d
    {
      fields := d;
    }

    /** Strip the suffixes of one entry. */
    method StripEntryAt(key: string, ghost i: nat)
      requires UniqueKeys(fields) && i < |fields| && fields[i].key == key
      modifies this
      ensures fields == old(fields)[i := Field(key, StripEntry(old(fields)[i].value))]
    {
      GetAt(fields, i);
      var entry := Get(fields, key);
      if entry.Obj? && AnySuffixed(entry.fields) {
        var cleaned := StripKeys(entry.fields);
        SetAt(fields, i, Obj(cleaned));
        fields := Set(fields, key, Obj(cleaned));
      }
    }

    /** Strip the suffixes of every entry of a latency map. */
    method StripLatencyMap()
      requires UniqueKeys(fields)
      modifies this
      ensures fields == StripMap(old(fields))
    {
      ghost var before := fields;
      var keys := KeysOf(fields);
      StrippedEnds(before);
      var i := 0;
      while i < |keys|
        invariant 0 <= i <= |keys|
        invariant fields == PartlyStripped(before, i)
      {
        NextStripped(before, i);
        StripEntryAt(keys[i], i);
        i := i + 1;
      }
    }

    /** Split a track's kernel speedup and flatten its end-to-end speedup. */
    method NormalizeTrack()
      modifies this
      ensures fields == FlattenSpeedup(SplitKernel(old(fields)))
    {
      var ks := Get(fields, "kernel_speedup");
      if ks.Obj? {
        var best: Option<Json> := None;
        var i := 0;
        while i < |ks.fields|
          invariant 0 <= i <= |ks.fields|
          invariant best == MaxVariant(ks.fields[..i])
          invariant fields == old(fields)
        {
          assert ks.fields[..i + 1][..i] == ks.fields[..i];
          var f := ks.fields[i];
          if Counts(f) && !(best.Some? && IsNumber(best.value) && AsReal(best.value) >= AsReal(f.value)) {
            best := Some(f.value);
          }
          i := i + 1;
        }
        assert ks.fields[..|ks.fields|] == ks.fields;
        fields := Set(fields, "kernel_speedup", OrNull(best));
        fields := Set(fields, "kernel_speedup_variants", ks);
      }
      Flatten();
    }

    method Flatten()
      modifies this
      ensures fields == FlattenSpeedup(old(fields))
    {
      var es := Get(fields, "e2e_speedup");
      if es.Obj? {
        fields := Set(fields, "e2e_speedup", Selected(es.fields));
      }
    }

    method StripUnderKey(k: string)
      requires WellFormed(Get(fields, k))
      modifies this
      ensures fields == StripUnder(old(fields), k)
    {
      var m := Get(fields, k);
      if m.Obj? {
        var latency := new JsonDict(m.fields);
        latency.StripLatencyMap();
        fields := Set(fields, k, Obj(latency.fields));
      }
    }
  }

  method NormalizeTracks(m: Dict) returns (r: Dict)
    ensures r == NormalTracks(m)
  {
    r := [];
    var i := 0;
    while i < |m|
      invariant 0 <= i <= |m|
      invariant r == NormalTracks(m)[..i]
    {
      var value := m[i].value;
      if value.Obj? {
        var track := new JsonDict(value.fields);
        track.NormalizeTrack();
        value := Obj(track.fields);
      }
      r := r + [Field(m[i].key, value)];
      i := i + 1;
    }
  }

  method NormalizeCandidates(xs: seq<Json>) returns (r: seq<Json>)
    ensures r == NormalCandidates(xs)
  {
    r := [];
    var i := 0;
    while i < |xs|
      invariant 0 <= i <= |xs|
      invariant r == NormalCandidates(xs)[..i]
    {
      var value := xs[i];
      if value.Obj? {
        var cand := new JsonDict(value.fields);
        cand.Flatten();
        value := Obj(cand.fields);
      }
      r := r + [value];
      i := i + 1;
    }
  }

  method NormalizeBaseline(baseline: JsonDict, cer: Dict)
    requires WellFormed(Obj(baseline.fields)) && WellFormed(Obj(cer))
    modifies baseline
    ensures baseline.fields == NormalBaseline(old(baseline.fields), cer)
  {
    var tag, lat, verdict := LegacyTag(cer), Get(cer, "latency_baseline_s"), Get(cer, "per_bs_verdict");
    ghost var b := baseline.fields;
    PartIsWellFormed(b, "e2e_latency");
    LatencyStaysWellFormed(b, "e2e_latency", tag, lat);
    if !Truthy(Get(baseline.fields, "e2e_latency")) && IsPositive(lat) {
      baseline.fields := Set(baseline.fields, "e2e_latency", OneBucket(tag, lat));
    }
    assert baseline.fields == FillLatency(b, "e2e_latency", tag, lat);
    GetSet(baseline.fields, "per_bs_verdict", verdict, "e2e_latency");
    if !Truthy(Get(baseline.fields, "per_bs_verdict")) && verdict.Obj? && verdict.fields != [] {
      baseline.fields := Set(baseline.fields, "per_bs_verdict", verdict);
    }
    baseline.StripUnderKey("e2e_latency");
  }

  lemma LatencyStaysWellFormed(d: Dict, k: string, tag: string, v: Json)
    requires WellFormed(Get(d, k))
    ensures WellFormed(Get(FillLatency(d, k, tag, v), k))
  {
    GetSet(d, k, OneBucket(tag, v), k);
    if IsPositive(v) {
      var e := Obj([Field("avg", v), Field("p50", v)]);
      assert WellFormed(v) && WellFormed(e);
    }
  }

  method NormalizeIntegration(integration: JsonDict)
    requires WellFormed(Obj(integration.fields))
    modifies integration
    ensures integration.fields == NormalIntegration(old(integration.fields))
  {
    var d := integration.fields;
    var cer := AsDict(Get(d, "combined_e2e_result"));
    var tag, opt := LegacyTag(cer), OptS(cer, d);
    PartIsWellFormed(d, "e2e_latency_combined");
    LatencyStaysWellFormed(d, "e2e_latency_combined", tag, opt);
    if !Truthy(Get(integration.fields, "e2e_latency_combined")) && IsPositive(opt) {
      integration.fields := Set(integration.fields, "e2e_latency_combined", OneBucket(tag, opt));
    }
    ghost var d1 := integration.fields;
    assert d1 == FillLatency(d, "e2e_latency_combined", tag, opt);
    var cs := Get(integration.fields, "passing_candidates");
    if cs.Arr? {
      var xs := NormalizeCandidates(cs.items);
      GetSet(integration.fields, "passing_candidates", Arr(xs), "e2e_latency_combined");
      integration.fields := Set(integration.fields, "passing_candidates", Arr(xs));
    }
    integration.StripUnderKey("e2e_latency_combined");
  }

  method NormalizeRound(rnd: JsonDict)
    requires WellFormed(Obj(rnd.fields))
    modifies rnd
    ensures rnd.fields == NormalRound(old(rnd.fields))
  {
    ghost var r := rnd.fields;
    PartIsWellFormed(r, "baseline");
    PartIsWellFormed(r, "integration");
    var baseline := new JsonDict(AsDict(Get(rnd.fields, "baseline")));
    var integration := new JsonDict(AsDict(Get(rnd.fields, "integration")));
    var cer := AsDict(Get(integration.fields, "combined_e2e_result"));
    PartIsWellFormed(integration.fields, "combined_e2e_result");
    NormalizeBaseline(baseline, cer);
    NormalizeIntegration(integration);
    var pt := Get(rnd.fields, "parallel_tracks");
    rnd.fields := Set(rnd.fields, "baseline", Obj(baseline.fields));
    rnd.fields := Set(rnd.fields, "integration", Obj(integration.fields));
    if pt.Obj? {
      if Get(pt.fields, "tracks").Obj? {
        var tracks := NormalizeTracks(Get(pt.fields, "tracks").fields);
        pt := Obj(Set(pt.fields, "tracks", Obj(tracks)));
      }
      rnd.fields := Set(rnd.fields, "parallel_tracks", pt);
    }
  }

  method NormalizeRounds(rounds: seq<Json>) returns (out: seq<Json>)
    requires WellFormed(Arr(rounds))
    ensures out == NormalRounds(rounds)
  {
    out := [];
    var i := 0;
    while i < |rounds|
      invariant 0 <= i <= |rounds|
      invariant out == NormalRounds(rounds)[..i]
    {
      var value := rounds[i];
      assert WellFormed(value);
      if value.Obj? {
        var rnd := new JsonDict(value.fields);
        NormalizeRound(rnd);
        value := Obj(rnd.fields);
      }
      out := out + [value];
      i := i + 1;
    }
  }

  method NormalizeCampaign(campaign: JsonDict)
    requires WellFormed(Obj(campaign.fields)) && Get(campaign.fields, "rounds").Arr?
    modifies campaign
    ensures campaign.fields == NormalCampaign(old(campaign.fields))
  {
    PartIsWellFormed(campaign.fields, "rounds");
    var rounds := NormalizeRounds(Get(campaign.fields, "rounds").items);
    campaign.fields := Set(campaign.fields, "rounds", Arr(rounds));
    var x := Speedup.ComputeCumulativeSpeedup(campaign.fields);
    campaign.fields := Set(campaign.fields, "cumulative_e2e_speedup", Num(x));
  }

  method NormalizeE2eLatency(state: Json) returns (r: Json)
    requires WellFormed(state)
    ensures r == Normal(state)
  {
    if !HasRounds(state) {
      return state;
    }
    PartIsWellFormed(state.fields, "campaign");
    var campaign := new JsonDict(Get(state.fields, "campaign").fields);
    NormalizeCampaign(campaign);
    r := Obj(Set(state.fields, "campaign", Obj(campaign.fields)));
  }
}
