/** The model catalog and the hard capability filter that runs before any routing choice. */
module Capabilities {
  import opened Sequences

  type ModelId = string

  datatype ModelInfo = ModelInfo(
    modelId: ModelId,
    costPerMillionInput: real,
    defaultTier: int,
    active: bool,
    supportsToolUse: bool,
    supportsJsonMode: bool,
    supportsVision: bool,
    supportsVideo: bool,
    latencyClass: string,
    strengths: seq<string>)

  type Catalog = map<ModelId, ModelInfo>

  datatype Needs = Needs(json: bool, tools: bool, vision: bool, video: bool) {
    predicate None() { !json && !tools && !vision && !video }

    predicate Media() { vision || video }
  }

  predicate Supports(info: ModelInfo, needs: Needs) {
    && (needs.json ==> info.supportsJsonMode)
    && (needs.tools ==> info.supportsToolUse)
    && (needs.vision ==> info.supportsVision)
    && (needs.video ==> info.supportsVideo)
  }

  /** The media flags alone, which is what a media request must never be routed without. */
  predicate SupportsMedia(catalog: Catalog, m: ModelId, needs: Needs) {
    && m in catalog
    && (needs.vision ==> catalog[m].supportsVision)
    && (needs.video ==> catalog[m].supportsVideo)
  }

  /** A model outside the catalog passes unless vision or video is needed. */
  predicate Keeps(catalog: Catalog, needs: Needs, m: ModelId) {
    if m in catalog then Supports(catalog[m], needs) else !needs.Media()
  }

  function KeepTest(catalog: Catalog, needs: Needs): ModelId -> bool {
    (m: ModelId) => Keeps(catalog, needs, m)
  }

  function CapableModels(catalog: Catalog, models: seq<ModelId>, needs: Needs): seq<ModelId> {
    if needs.None() then models else
    var kept := Filter(models, KeepTest(catalog, needs));
    if kept == [] && !needs.Media() then models else kept
  }

  method FilterForCapabilities(catalog: Catalog, models: seq<ModelId>, needs: Needs) returns (result: seq<ModelId>)
    ensures result == CapableModels(catalog, models, needs)
  {
    if needs.None() {
      return models;
    }
    result := [];
    for i := 0 to |models|
      invariant result == Filter(models[..i], KeepTest(catalog, needs))
    {
      FilterPrefix(models, i, KeepTest(catalog, needs));
      var m := models[i];
      if m !in catalog {
        if !needs.video && !needs.vision {
          result := result + [m];
        }
        continue;
      }
      var info := catalog[m];
      if needs.json && !info.supportsJsonMode {
        continue;
      }
      if needs.tools && !info.supportsToolUse {
        continue;
      }
      if needs.vision && !info.supportsVision {
        continue;
      }
      if needs.video && !info.supportsVideo {
        continue;
      }
      result := result + [m];
    }
    assert models[..|models|] == models;
    if result == [] && !needs.video && !needs.vision {
      return models;
    }
  }

  /** The filter invents nothing and repeats nothing. It is closed for vision and video (every survivor is
      in the catalog with every needed flag, and it is empty exactly when no model qualifies) and open
      otherwise (it empties only an empty pool). */
  lemma FilterSoundness(catalog: Catalog, models: seq<ModelId>, needs: Needs)
    ensures var r := CapableModels(catalog, models, needs);
      && (forall m :: m in r ==> m in models)
      && (NoDup(models) ==> NoDup(r))
      && |r| <= |models|
      && (needs.Media() ==> forall m :: m in r <==> m in models && m in catalog && Supports(catalog[m], needs))
      && (r == [] <==> forall m :: m in models ==> needs.Media() && !Keeps(catalog, needs, m))
  {
    var test := KeepTest(catalog, needs);
    FilterMembers(models, test);
    if NoDup(models) {
      FilterKeepsNoDup(models, test);
    }
    var kept := Filter(models, test);
    assert kept == [] <==> forall m :: m in kept ==> false by {
      if kept != [] {
        assert kept[0] in kept;
      }
    }
    if models != [] {
      assert models[0] in models;
    }
  }

  /** The listed models that are known with every flag that is needed, or are unknown where neither vision nor video
      is needed. */
  ghost function Fitting(catalog: Catalog, models: seq<ModelId>, needs: Needs): set<ModelId> {
    set m | m in models &&
      if m in catalog then
        && (needs.json ==> catalog[m].supportsJsonMode) && (needs.tools ==> catalog[m].supportsToolUse)
        && (needs.vision ==> catalog[m].supportsVision) && (needs.video ==> catalog[m].supportsVideo)
      else !needs.vision && !needs.video
  }

  lemma FittingAreKept(catalog: Catalog, models: seq<ModelId>, needs: Needs)
    ensures forall m :: m in models ==> (m in Fitting(catalog, models, needs) <==> Keeps(catalog, needs, m))
    ensures needs.None() ==> forall m :: Keeps(catalog, needs, m)
  {
  }

  /** The filter answers the fitting models, as often and in the order in which they are listed. If there are none, it
      answers nothing for vision and video, and the whole list otherwise. */
  lemma FilterByFlags(catalog: Catalog, models: seq<ModelId>, needs: Needs)
    ensures var r, fitting := CapableModels(catalog, models, needs), Fitting(catalog, models, needs);
      if fitting == {} then r == if needs.vision || needs.video then [] else models
      else InOrderOf(r, models) && forall m :: multiset(r)[m] == if m in fitting then multiset(models)[m] else 0
  {
    var test := KeepTest(catalog, needs);
    FittingAreKept(catalog, models, needs);
    FilterMembers(models, test);
    FilterKeepsOrder(models, test);
    if needs.None() {
      FilterAll(models, test);
    }
    hide Filter, Keeps, InOrderOf;
    var kept, fitting := Filter(models, test), Fitting(catalog, models, needs);
    if kept != [] {
      assert kept[0] in kept;
      assert kept[0] in fitting;
    } else {
      assert forall m :: m in fitting ==> m in kept;
    }
    if models != [] {
      assert models[0] in models;
    }
  }
}
