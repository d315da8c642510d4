/**
  Properties of the common stripper, one per keyword family or pass, proved
  from the rule decomposition independently of the order of the rules.
  Most are exact: they say how the verdict on a variant that enables a
  keyword relates to the verdict on the same variant without it.
*/
module StrippingProperties {
  import opened Keywords
  import opened ShaderPreprocessor
  import opened StripRules

  /** The keywords a rule tests. */
  function Reads(rule: StripRule): set<ShaderKeyword>
  {
    match rule
    case PunctualShadowMismatch => {PunctualLow, PunctualMedium, PunctualHigh}
    case DirectionalShadowMismatch => {DirectionalLow, DirectionalMedium, DirectionalHigh}
    case SceneSelection => {}
    case DisabledMotionVectors => {}
    case TransparentTileLighting => {Transparent, TileLighting}
    case DisabledDebugDisplay => {DebugDisplay}
    case DisabledCrossFade => {LodFadeCrossFade}
    case RedundantDecalsOff => {DecalsOff}
    case UnselectedDecals3RT => {Decals3RT}
    case UnselectedDecals4RT => {Decals4RT}
    case DisabledLightLayers => {LightLayers}
  }

  /** A rule sees only the keywords it reads. */
  lemma FiresReadsOnly(rule: StripRule, settings: RenderPipelineSettings, passName: string,
                       k1: set<ShaderKeyword>, k2: set<ShaderKeyword>)
    requires k1 * Reads(rule) == k2 * Reads(rule)
    ensures Fires(rule, settings, passName, k1) == Fires(rule, settings, passName, k2)
  {
    match rule
    case PunctualShadowMismatch =>
      forall q ensures ShadowVariant(Punctual, q) in k1 <==> ShadowVariant(Punctual, q) in k2 {
        var k := ShadowVariant(Punctual, q);
        assert k in Reads(rule);
        assert k in k1 <==> k in k1 * Reads(rule);
        assert k in k2 <==> k in k2 * Reads(rule);
      }
    case DirectionalShadowMismatch =>
      forall q ensures ShadowVariant(Directional, q) in k1 <==> ShadowVariant(Directional, q) in k2 {
        var k := ShadowVariant(Directional, q);
        assert k in Reads(rule);
        assert k in k1 <==> k in k1 * Reads(rule);
        assert k in k2 <==> k in k2 * Reads(rule);
      }
    case SceneSelection | DisabledMotionVectors =>
    case _ =>
      forall k | k in Reads(rule) ensures k in k1 <==> k in k2 {
        assert k in k1 <==> k in k1 * Reads(rule);
      }
  }

  /** Every rule only asks whether keywords are enabled, never whether they
      are disabled, so enabling more keywords never un-fires a rule. */
  lemma FiresMonotone(rule: StripRule, settings: RenderPipelineSettings, passName: string,
                      k1: set<ShaderKeyword>, k2: set<ShaderKeyword>)
    requires k1 <= k2
    requires Fires(rule, settings, passName, k1)
    ensures Fires(rule, settings, passName, k2)
  {
    match rule
    case PunctualShadowMismatch =>
      var q :| q != settings.punctualShadowQuality && ShadowVariant(Punctual, q) in k1;
      assert ShadowVariant(Punctual, q) in k2;
    case DirectionalShadowMismatch =>
      var q :| q != settings.directionalShadowQuality && ShadowVariant(Directional, q) in k1;
      assert ShadowVariant(Directional, q) in k2;
    case _ =>
  }

  /** A variant that is stripped stays stripped when it enables more keywords. */
  lemma StripMonotone(settings: RenderPipelineSettings, passName: string, k1: set<ShaderKeyword>, k2: set<ShaderKeyword>)
    requires k1 <= k2
    requires CommonShaderStripper(settings, passName, k1)
    ensures CommonShaderStripper(settings, passName, k2)
  {
    StripIffSomeRuleFires(settings, passName, k1);
    StripIffSomeRuleFires(settings, passName, k2);
    var r :| Fires(r, settings, passName, k1);
    FiresMonotone(r, settings, passName, k1, k2);
  }

  /** Enabling keyword `k` strips a variant exactly when a rule that reads `k`
      fires, or the variant without `k` is stripped anyway. */
  lemma EnablingKeyword(settings: RenderPipelineSettings, passName: string, keywords: set<ShaderKeyword>, k: ShaderKeyword)
    ensures CommonShaderStripper(settings, passName, keywords)
      <==> CommonShaderStripper(settings, passName, keywords - {k})
           || exists r :: k in Reads(r) && Fires(r, settings, passName, keywords)
  {
    StripIffSomeRuleFires(settings, passName, keywords);
    StripIffSomeRuleFires(settings, passName, keywords - {k});
    if CommonShaderStripper(settings, passName, keywords) {
      var r :| Fires(r, settings, passName, keywords);
      if k !in Reads(r) {
        assert keywords * Reads(r) == (keywords - {k}) * Reads(r);
        FiresReadsOnly(r, settings, passName, keywords, keywords - {k});
      }
    }
    if CommonShaderStripper(settings, passName, keywords - {k}) {
      StripMonotone(settings, passName, keywords - {k}, keywords);
    }
  }

  /** Keywords outside the catalogue never influence the verdict. */
  lemma OtherKeywordsIrrelevant(settings: RenderPipelineSettings, passName: string, keywords: set<ShaderKeyword>)
    ensures CommonShaderStripper(settings, passName, keywords)
      == CommonShaderStripper(settings, passName, set k | k in keywords && !k.Other?)
  {
    var catalogue := set k | k in keywords && !k.Other?;
    StripIffSomeRuleFires(settings, passName, keywords);
    StripIffSomeRuleFires(settings, passName, catalogue);
    forall r ensures Fires(r, settings, passName, keywords) == Fires(r, settings, passName, catalogue) {
      assert keywords * Reads(r) == catalogue * Reads(r);
      FiresReadsOnly(r, settings, passName, keywords, catalogue);
    }
  }

  // ---------------------------------------------------------------------
  // Shadow quality tiers

  /** A variant enabling the keyword of a tier other than the configured one
      of that light family is stripped. */
  lemma ShadowMismatchStrips(settings: RenderPipelineSettings, passName: string, keywords: set<ShaderKeyword>,
                             family: LightFamily, tier: HDShadowQuality)
    requires tier != ConfiguredTier(settings, family)
    requires ShadowVariant(family, tier) in keywords
    ensures CommonShaderStripper(settings, passName, keywords)
  {
    var rule := if family == Punctual then PunctualShadowMismatch else DirectionalShadowMismatch;
    assert Fires(rule, settings, passName, keywords);
    EachRuleSuffices(rule, settings, passName, keywords);
  }

  /** Enabling the keyword of the configured tier of either family is never
      a reason to strip. */
  lemma ConfiguredTierHarmless(settings: RenderPipelineSettings, passName: string, keywords: set<ShaderKeyword>,
                               family: LightFamily)
    ensures CommonShaderStripper(settings, passName, keywords + {ShadowVariant(family, ConfiguredTier(settings, family))})
      == CommonShaderStripper(settings, passName, keywords - {ShadowVariant(family, ConfiguredTier(settings, family))})
  {
    var configured := ConfiguredTier(settings, family);
    var k := ShadowVariant(family, configured);
    var with := keywords + {k};
    var without := keywords - {k};
    assert with - {k} == without;
    StripIffSomeRuleFires(settings, passName, with);
    StripIffSomeRuleFires(settings, passName, without);
    forall r | Fires(r, settings, passName, with) ensures Fires(r, settings, passName, without) {
      if r == PunctualShadowMismatch {
        var q :| q != settings.punctualShadowQuality && ShadowVariant(Punctual, q) in with;
        ShadowVariantInjective(Punctual, q, family, configured);
        assert ShadowVariant(Punctual, q) in without;
      } else if r == DirectionalShadowMismatch {
        var q :| q != settings.directionalShadowQuality && ShadowVariant(Directional, q) in with;
        ShadowVariantInjective(Directional, q, family, configured);
        assert ShadowVariant(Directional, q) in without;
      } else {
        assert with * Reads(r) == without * Reads(r);
        FiresReadsOnly(r, settings, passName, with, without);
      }
    }
    if CommonShaderStripper(settings, passName, without) {
      StripMonotone(settings, passName, without, with);
    }
  }

  // ---------------------------------------------------------------------
  // Passes

  /** The scene selection pass is stripped for every configuration and
      every keyword set. */
  lemma SceneSelectionAlwaysStripped(settings: RenderPipelineSettings, keywords: set<ShaderKeyword>)
    ensures CommonShaderStripper(settings, SceneSelectionPassName, keywords)
  {
    EachRuleSuffices(SceneSelection, settings, SceneSelectionPassName, keywords);
  }

  /** Apart from the scene selection and motion vector passes, the pass name
      does not affect the verdict. */
  lemma OrdinaryPassNamesAgree(settings: RenderPipelineSettings, pass1: string, pass2: string,
                               keywords: set<ShaderKeyword>)
    requires pass1 != SceneSelectionPassName && pass1 != MotionVectorsPassName
    requires pass2 != SceneSelectionPassName && pass2 != MotionVectorsPassName
    ensures CommonShaderStripper(settings, pass1, keywords) == CommonShaderStripper(settings, pass2, keywords)
  {
    StripIffSomeRuleFires(settings, pass1, keywords);
    StripIffSomeRuleFires(settings, pass2, keywords);
    assert forall r :: Fires(r, settings, pass1, keywords) == Fires(r, settings, pass2, keywords);
  }

  /** The motion vector pass is stripped when motion vectors are not
      supported; when they are, it is judged like any ordinary pass. */
  lemma MotionVectorsPassExact(settings: RenderPipelineSettings, ordinaryPass: string, keywords: set<ShaderKeyword>)
    requires ordinaryPass != SceneSelectionPassName && ordinaryPass != MotionVectorsPassName
    ensures CommonShaderStripper(settings, MotionVectorsPassName, keywords)
      <==> !settings.supportMotionVectors || CommonShaderStripper(settings, ordinaryPass, keywords)
  {
    StripIffSomeRuleFires(settings, MotionVectorsPassName, keywords);
    StripIffSomeRuleFires(settings, ordinaryPass, keywords);
    if !settings.supportMotionVectors {
      assert Fires(DisabledMotionVectors, settings, MotionVectorsPassName, keywords);
    }
    assert forall r :: r != DisabledMotionVectors ==>
      Fires(r, settings, MotionVectorsPassName, keywords) == Fires(r, settings, ordinaryPass, keywords);
  }

  // ---------------------------------------------------------------------
  // Tile and cluster lighting

  /** A transparent variant using tile lighting is stripped. */
  lemma TransparentTileStripped(settings: RenderPipelineSettings, passName: string, keywords: set<ShaderKeyword>)
    requires Transparent in keywords && TileLighting in keywords
    ensures CommonShaderStripper(settings, passName, keywords)
  {
    EachRuleSuffices(TransparentTileLighting, settings, passName, keywords);
  }

  /** No tile or cluster condition applies to an opaque variant. */
  lemma OpaqueLightListIrrelevant(settings: RenderPipelineSettings, passName: string, keywords: set<ShaderKeyword>)
    requires Transparent !in keywords
    ensures CommonShaderStripper(settings, passName, keywords)
      == CommonShaderStripper(settings, passName, keywords - {TileLighting, ClusterLighting})
  {
    EnablingKeyword(settings, passName, keywords, TileLighting);
    EnablingKeyword(settings, passName, keywords - {TileLighting}, ClusterLighting);
    assert keywords - {TileLighting} - {ClusterLighting} == keywords - {TileLighting, ClusterLighting};
    forall r | TileLighting in Reads(r) ensures !Fires(r, settings, passName, keywords) {
      assert r == TransparentTileLighting;
    }
  }

  /** Cluster lighting is never a reason to strip, for transparent and opaque
      variants alike. */
  lemma ClusterLightingIrrelevant(settings: RenderPipelineSettings, passName: string, keywords: set<ShaderKeyword>)
    ensures CommonShaderStripper(settings, passName, keywords)
      == CommonShaderStripper(settings, passName, keywords - {ClusterLighting})
  {
    EnablingKeyword(settings, passName, keywords, ClusterLighting);
  }

  // ---------------------------------------------------------------------
  // Feature keywords

  /** The debug display variant is stripped exactly when runtime debug
      display is not supported; otherwise it is judged like the variant
      without debug display. */
  lemma DebugDisplayExact(settings: RenderPipelineSettings, passName: string, keywords: set<ShaderKeyword>)
    requires DebugDisplay in keywords
    ensures CommonShaderStripper(settings, passName, keywords)
      <==> !settings.supportRuntimeDebugDisplay || CommonShaderStripper(settings, passName, keywords - {DebugDisplay})
  {
    EnablingKeyword(settings, passName, keywords, DebugDisplay);
    if !settings.supportRuntimeDebugDisplay {
      assert DebugDisplay in Reads(DisabledDebugDisplay) && Fires(DisabledDebugDisplay, settings, passName, keywords);
    }
  }

  /** The same for the dithered LOD cross-fade variant. */
  lemma CrossFadeExact(settings: RenderPipelineSettings, passName: string, keywords: set<ShaderKeyword>)
    requires LodFadeCrossFade in keywords
    ensures CommonShaderStripper(settings, passName, keywords)
      <==> !settings.supportDitheringCrossFade || CommonShaderStripper(settings, passName, keywords - {LodFadeCrossFade})
  {
    EnablingKeyword(settings, passName, keywords, LodFadeCrossFade);
    if !settings.supportDitheringCrossFade {
      assert LodFadeCrossFade in Reads(DisabledCrossFade) && Fires(DisabledCrossFade, settings, passName, keywords);
    }
  }

  /** The same for the light layers variant. */
  lemma LightLayersExact(settings: RenderPipelineSettings, passName: string, keywords: set<ShaderKeyword>)
    requires LightLayers in keywords
    ensures CommonShaderStripper(settings, passName, keywords)
      <==> !settings.supportLightLayers || CommonShaderStripper(settings, passName, keywords - {LightLayers})
  {
    EnablingKeyword(settings, passName, keywords, LightLayers);
    if !settings.supportLightLayers {
      assert LightLayers in Reads(DisabledLightLayers) && Fires(DisabledLightLayers, settings, passName, keywords);
    }
  }

  // ---------------------------------------------------------------------
  // Decals

  /** The no-decal variant is stripped exactly when decals are supported. */
  lemma DecalsOffExact(settings: RenderPipelineSettings, passName: string, keywords: set<ShaderKeyword>)
    requires DecalsOff in keywords
    ensures CommonShaderStripper(settings, passName, keywords)
      <==> settings.supportDecals || CommonShaderStripper(settings, passName, keywords - {DecalsOff})
  {
    EnablingKeyword(settings, passName, keywords, DecalsOff);
    if settings.supportDecals {
      assert DecalsOff in Reads(RedundantDecalsOff) && Fires(RedundantDecalsOff, settings, passName, keywords);
    }
  }

  /** The three-render-target decal variant is stripped exactly when decals
      are unsupported or the per-channel mask selects four render targets. */
  lemma Decals3RTExact(settings: RenderPipelineSettings, passName: string, keywords: set<ShaderKeyword>)
    requires Decals3RT in keywords
    ensures CommonShaderStripper(settings, passName, keywords)
      <==> !settings.supportDecals || settings.perChannelMask
           || CommonShaderStripper(settings, passName, keywords - {Decals3RT})
  {
    EnablingKeyword(settings, passName, keywords, Decals3RT);
    if !settings.supportDecals || settings.perChannelMask {
      assert Decals3RT in Reads(UnselectedDecals3RT) && Fires(UnselectedDecals3RT, settings, passName, keywords);
    }
  }

  /** The four-render-target decal variant is stripped exactly when decals
      are unsupported or the per-channel mask is off. */
  lemma Decals4RTExact(settings: RenderPipelineSettings, passName: string, keywords: set<ShaderKeyword>)
    requires Decals4RT in keywords
    ensures CommonShaderStripper(settings, passName, keywords)
      <==> !settings.supportDecals || !settings.perChannelMask
           || CommonShaderStripper(settings, passName, keywords - {Decals4RT})
  {
    EnablingKeyword(settings, passName, keywords, Decals4RT);
    if !settings.supportDecals || !settings.perChannelMask {
      assert Decals4RT in Reads(UnselectedDecals4RT) && Fires(UnselectedDecals4RT, settings, passName, keywords);
    }
  }
}
