/**
  The common shader-variant stripping predicate of the HDRP shader
  preprocessor. Given the render pipeline settings, the name of the pass a
  variant belongs to and the set of keywords the variant enables, it decides
  whether the variant is stripped from the build (true) or kept (false),
  testing a fixed sequence of conditions and answering true at the first one
  that holds.
*/
module ShaderPreprocessor {
  import opened Keywords

  /** The part of the render pipeline asset's settings that stripping reads:
      the shadow tiers of the shadow init parameters, the feature support
      flags and the per-channel mask of the decal settings. */
  datatype RenderPipelineSettings = RenderPipelineSettings(
    punctualShadowQuality: HDShadowQuality,
    directionalShadowQuality: HDShadowQuality,
    supportMotionVectors: bool,
    supportRuntimeDebugDisplay: bool,
    supportDitheringCrossFade: bool,
    supportDecals: bool,
    perChannelMask: bool,
    supportLightLayers: bool)

  const SceneSelectionPassName: string := "SceneSelectionPass"
  const MotionVectorsPassName: string := "Motion Vectors"

  /** The configured tier of one light family. */
  function ConfiguredTier(settings: RenderPipelineSettings, family: LightFamily): HDShadowQuality
  {
    match family
    case Punctual => settings.punctualShadowQuality
    case Directional => settings.directionalShadowQuality
  }

  /** One `foreach` over a tier table: walks `tiers` in order and answers true
      at the first tier other than `configured` whose keyword is enabled. */
  function OtherTierEnabled(family: LightFamily, tiers: seq<HDShadowQuality>,
                            configured: HDShadowQuality, keywords: set<ShaderKeyword>): (found: bool)
    ensures found <==> exists i :: 0 <= i < |tiers| && tiers[i] != configured && ShadowVariant(family, tiers[i]) in keywords
  {
    if tiers == [] then false
    else if tiers[0] != configured && ShadowVariant(family, tiers[0]) in keywords then true
    else
      var rest := OtherTierEnabled(family, tiers[1..], configured, keywords);
      assert forall i :: 1 <= i < |tiers| ==> tiers[i] == tiers[1..][i - 1];
      rest
  }

  /** Walking a table in any order that visits every tier finds an enabled
      keyword of a tier other than `configured` iff one exists, so the
      enumeration order of the tier table never changes the answer. */
  lemma TableWalkAnyOrder(family: LightFamily, tiers: seq<HDShadowQuality>,
                          configured: HDShadowQuality, keywords: set<ShaderKeyword>)
    requires forall q :: q in tiers
    ensures OtherTierEnabled(family, tiers, configured, keywords)
      <==> exists q :: q != configured && ShadowVariant(family, q) in keywords
    ensures OtherTierEnabled(family, tiers, configured, keywords)
      == OtherTierEnabled(family, Tiers, configured, keywords)
  {
    TiersEnumerateEveryTierOnce();
    forall q | q != configured && ShadowVariant(family, q) in keywords
      ensures OtherTierEnabled(family, tiers, configured, keywords)
      ensures OtherTierEnabled(family, Tiers, configured, keywords)
    {
      assert q in tiers && q in Tiers;
      var i :| 0 <= i < |tiers| && tiers[i] == q;
      var j :| 0 <= j < |Tiers| && Tiers[j] == q;
    }
  }

  /** Whether the variant with the given pass name and enabled keywords is
      stripped under `settings`. A variant that is kept matches the
      configuration in every keyword family the stripper knows. */
  function CommonShaderStripper(settings: RenderPipelineSettings, passName: string,
                                keywords: set<ShaderKeyword>): (strip: bool)
    ensures !strip ==> forall q :: ShadowVariant(Punctual, q) in keywords ==> q == settings.punctualShadowQuality
    ensures !strip ==> forall q :: ShadowVariant(Directional, q) in keywords ==> q == settings.directionalShadowQuality
    ensures !strip ==> passName != SceneSelectionPassName
    ensures !strip && passName == MotionVectorsPassName ==> settings.supportMotionVectors
    ensures !strip && Transparent in keywords ==> TileLighting !in keywords
    ensures !strip && DebugDisplay in keywords ==> settings.supportRuntimeDebugDisplay
    ensures !strip && LodFadeCrossFade in keywords ==> settings.supportDitheringCrossFade
    ensures !strip && DecalsOff in keywords ==> !settings.supportDecals
    ensures !strip && Decals3RT in keywords ==> settings.supportDecals && !settings.perChannelMask
    ensures !strip && Decals4RT in keywords ==> settings.supportDecals && settings.perChannelMask
    ensures !strip && LightLayers in keywords ==> settings.supportLightLayers
  {
    TiersEnumerateEveryTierOnce();
    TableWalkAnyOrder(Punctual, Tiers, settings.punctualShadowQuality, keywords);
    TableWalkAnyOrder(Directional, Tiers, settings.directionalShadowQuality, keywords);
    // Strip every variant compiled for a shadow tier that is not configured
    if OtherTierEnabled(Punctual, Tiers, settings.punctualShadowQuality, keywords) then true
    else if OtherTierEnabled(Directional, Tiers, settings.directionalShadowQuality, keywords) then true
    // The scene selection pass is editor-only
    else if passName == SceneSelectionPassName then true
    else if !settings.supportMotionVectors && passName == MotionVectorsPassName then true
    // Transparent variants use cluster lighting, never tile lighting;
    // nothing is assumed about tile or cluster for opaque variants
    else if Transparent in keywords && TileLighting in keywords then true
    else if !settings.supportRuntimeDebugDisplay && DebugDisplay in keywords then true
    else if LodFadeCrossFade in keywords && !settings.supportDitheringCrossFade then true
    else
      var decalStrip :=
        if settings.supportDecals then
          // With decals: drop the no-decal variant and the render-target
          // layout that the per-channel mask does not select
          if DecalsOff in keywords then true
          else if Decals3RT in keywords && settings.perChannelMask then true
          else Decals4RT in keywords && !settings.perChannelMask
        else
          // Without decals: drop every decal variant
          Decals3RT in keywords || Decals4RT in keywords;
      if decalStrip then true
      else if LightLayers in keywords && !settings.supportLightLayers then true
      else false
  }
}
