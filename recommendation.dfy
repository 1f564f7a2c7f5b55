/** The parameters of a recommendation request (spotifind/state.py:59-95,
    256-271): seeds and a limit passed through, and five audio-feature
    targets, each sent with its slider value when enabled and as `None`
    otherwise. Slider values are the integer UI values (0 to 100). */
module Recommendation {
  import opened Records

  datatype Feature = Acousticness | Energy | Liveness | Danceability | Instrumentalness

  /** The keyword argument that carries a feature's target. */
  function ParamName(f: Feature): (name: string)
    ensures |name| > 9 && name[..7] == "target_"
  {
    match f
    case Acousticness => "target_acousticness"
    case Energy => "target_energy"
    case Liveness => "target_liveness"
    case Danceability => "target_danceability"
    case Instrumentalness => "target_instrumentalness"
  }

  /** Different features are sent under different keys, none of them a seed or the limit. */
  lemma ParamNamesDistinct(f: Feature, g: Feature)
    ensures ParamName(f) == ParamName(g) <==> f == g
    ensures ParamName(f) !in {"seed_artists", "seed_tracks", "limit"}
  {
    var a, b := ParamName(f), ParamName(g);
    if a == b {
      assert a[7] == b[7] && a[8] == b[8];
    }
    assert ParamName(f)[0] != "seed_artists"[0] && ParamName(f)[0] != "limit"[0];
  }

  /** One slider: `recc_target_<feature>_value` and `recc_target_<feature>_enabled`. */
  datatype Target = Target(value: int, enabled: bool)

  const DisabledTarget := Target(0, false)

  /** The five sliders of the recommendation panel. */
  datatype Targets = Targets(acousticness: Target, energy: Target, liveness: Target,
                             danceability: Target, instrumentalness: Target)
  {
    function Get(f: Feature): Target
    {
      match f
      case Acousticness => acousticness
      case Energy => energy
      case Liveness => liveness
      case Danceability => danceability
      case Instrumentalness => instrumentalness
    }

    /** The sliders with the one for `f` replaced. */
    function With(f: Feature, t: Target): (r: Targets)
      ensures r.Get(f) == t
      ensures forall g :: g != f ==> r.Get(g) == Get(g)
    {
      match f
      case Acousticness => this.(acousticness := t)
      case Energy => this.(energy := t)
      case Liveness => this.(liveness := t)
      case Danceability => this.(danceability := t)
      case Instrumentalness => this.(instrumentalness := t)
    }
  }

  /** Every slider starts at 0 and disabled. */
  const InitialTargets := Targets(DisabledTarget, DisabledTarget, DisabledTarget, DisabledTarget, DisabledTarget)

  /** A value of the keyword-argument dict. */
  datatype ParamValue = UriList(uris: seq<Uri>) | Limit(n: int) | TargetValue(v: Option<int>)

  type Params = map<string, ParamValue>

  /** `value if enabled else None`. */
  function TargetParam(t: Target): (v: Option<int>)
    ensures v.Some? <==> t.enabled
    ensures v.Some? ==> v.value == t.value
  {
    if t.enabled then Some(t.value) else None
  }

  /** `generation_params_dict`. */
  function GenerationParams(artistUris: seq<Uri>, trackUris: seq<Uri>, limit: int, targets: Targets): Params
  {
    map[
      "seed_artists" := UriList(artistUris),
      "seed_tracks" := UriList(trackUris),
      "limit" := Limit(limit),
      ParamName(Acousticness) := TargetValue(TargetParam(targets.acousticness)),
      ParamName(Energy) := TargetValue(TargetParam(targets.energy)),
      ParamName(Liveness) := TargetValue(TargetParam(targets.liveness)),
      ParamName(Danceability) := TargetValue(TargetParam(targets.danceability)),
      ParamName(Instrumentalness) := TargetValue(TargetParam(targets.instrumentalness))
    ]
  }

  /** The request always carries the eight keys and no other. */
  lemma GenerationParamsKeys(artistUris: seq<Uri>, trackUris: seq<Uri>, limit: int, targets: Targets)
    ensures var p := GenerationParams(artistUris, trackUris, limit, targets);
      p.Keys == {"seed_artists", "seed_tracks", "limit"} + TargetNames
  {
  }

  /** The seeds and the limit are passed unchanged, and under each feature's
      key stands its slider value exactly when the slider is enabled (a
      disabled target is sent as `None`, not left out). */
  lemma GenerationParamsValues(artistUris: seq<Uri>, trackUris: seq<Uri>, limit: int, targets: Targets)
    ensures var p := GenerationParams(artistUris, trackUris, limit, targets);
      "seed_artists" in p && "seed_tracks" in p && "limit" in p
      && p["seed_artists"] == UriList(artistUris)
      && p["seed_tracks"] == UriList(trackUris)
      && p["limit"] == Limit(limit)
      && forall f: Feature :: ParamName(f) in p && p[ParamName(f)].TargetValue?
           && (p[ParamName(f)].v.Some? <==> targets.Get(f).enabled)
           && (targets.Get(f).enabled ==> p[ParamName(f)].v == Some(targets.Get(f).value))
  {
    KeysDistinct();
  }

  /** The eight keyword names differ pairwise. */
  lemma KeysDistinct()
    ensures "seed_artists" != "seed_tracks" && "seed_artists" != "limit" && "seed_tracks" != "limit"
    ensures forall f: Feature :: ParamName(f) !in {"seed_artists", "seed_tracks", "limit"}
    ensures forall f: Feature, g: Feature :: ParamName(f) == ParamName(g) ==> f == g
  {
    assert "seed_artists"[5] != "seed_tracks"[5];
    forall f: Feature, g: Feature ensures ParamName(f) == ParamName(g) ==> f == g {
      ParamNamesDistinct(f, g);
    }
    forall f: Feature ensures ParamName(f) !in {"seed_artists", "seed_tracks", "limit"} {
      ParamNamesDistinct(f, f);
    }
  }

  /** The five target keys. */
  const TargetNames: set<string> := {ParamName(Acousticness), ParamName(Energy), ParamName(Liveness),
                                     ParamName(Danceability), ParamName(Instrumentalness)}

  /** The value of a disabled slider never reaches the request. */
  lemma DisabledValueIgnored(artistUris: seq<Uri>, trackUris: seq<Uri>, limit: int,
                             targets: Targets, f: Feature, v: int)
    requires !targets.Get(f).enabled
    ensures GenerationParams(artistUris, trackUris, limit, targets.With(f, Target(v, false)))
         == GenerationParams(artistUris, trackUris, limit, targets)
  {
    var t' := targets.With(f, Target(v, false));
    assert forall g :: TargetParam(t'.Get(g)) == TargetParam(targets.Get(g));
  }

  /** Five seed tracks, a limit of 20 and only danceability enabled at 70:
      danceability is sent as 70, every other target as `None`. */
  lemma DanceabilityOnlyExample(tracks: seq<Uri>)
    requires |tracks| == 5
    ensures var p := GenerationParams([], tracks, 20, InitialTargets.With(Danceability, Target(70, true)));
      p["seed_artists"] == UriList([]) && p["seed_tracks"] == UriList(tracks) && p["limit"] == Limit(20)
      && p["target_danceability"] == TargetValue(Some(70))
      && p["target_energy"] == TargetValue(None)
      && p["target_acousticness"] == TargetValue(None)
      && p["target_liveness"] == TargetValue(None)
      && p["target_instrumentalness"] == TargetValue(None)
  {
  }
}
