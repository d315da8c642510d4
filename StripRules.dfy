/**
  The conditions of the common stripper, stated one by one as independent
  rules, and the properties of the stripper proved through them: a variant is
  stripped exactly when some rule fires, so the order in which the rules are
  tested decides only which one is reported, never the verdict.
*/
module StripRules {
  import opened Wrappers
  import opened Keywords
  import opened ShaderPreprocessor

  /** One reason to strip a variant. The decal conditions are stated per
      decal keyword rather than per decal configuration. */
  datatype StripRule =
    | PunctualShadowMismatch
    | DirectionalShadowMismatch
    | SceneSelection
    | DisabledMotionVectors
    | TransparentTileLighting
    | DisabledDebugDisplay
    | DisabledCrossFade
    | RedundantDecalsOff
    | UnselectedDecals3RT
    | UnselectedDecals4RT
    | DisabledLightLayers

  /** Whether `rule` alone is a reason to strip the variant. */
  predicate Fires(rule: StripRule, settings: RenderPipelineSettings, passName: string, keywords: set<ShaderKeyword>)
  {
    match rule
    case PunctualShadowMismatch =>
      exists q :: q != settings.punctualShadowQuality && ShadowVariant(Punctual, q) in keywords
    case DirectionalShadowMismatch =>
      exists q :: q != settings.directionalShadowQuality && ShadowVariant(Directional, q) in keywords
    case SceneSelection => passName == SceneSelectionPassName
    case DisabledMotionVectors => passName == MotionVectorsPassName && !settings.supportMotionVectors
    case TransparentTileLighting => Transparent in keywords && TileLighting in keywords
    case DisabledDebugDisplay => DebugDisplay in keywords && !settings.supportRuntimeDebugDisplay
    case DisabledCrossFade => LodFadeCrossFade in keywords && !settings.supportDitheringCrossFade
    case RedundantDecalsOff => DecalsOff in keywords && settings.supportDecals
    case UnselectedDecals3RT => Decals3RT in keywords && (!settings.supportDecals || settings.perChannelMask)
    case UnselectedDecals4RT => Decals4RT in keywords && (!settings.supportDecals || !settings.perChannelMask)
    case DisabledLightLayers => LightLayers in keywords && !settings.supportLightLayers
  }

  /** The rules in the order the stripper tests them. */
  const SourceOrder: seq<StripRule> := [
    PunctualShadowMismatch, DirectionalShadowMismatch, SceneSelection,
    DisabledMotionVectors, TransparentTileLighting, DisabledDebugDisplay,
    DisabledCrossFade, RedundantDecalsOff, UnselectedDecals3RT,
    UnselectedDecals4RT, DisabledLightLayers
  ]

  /** The first rule of `rules` that fires, or None when none does. */
  function StripReason(rules: seq<StripRule>, settings: RenderPipelineSettings, passName: string,
                       keywords: set<ShaderKeyword>): (reason: Option<StripRule>)
    ensures reason.None? <==> forall r :: r in rules ==> !Fires(r, settings, passName, keywords)
    ensures reason.Some? ==>
      exists i :: 0 <= i < |rules| && rules[i] == reason.value && Fires(rules[i], settings, passName, keywords) &&
        forall j :: 0 <= j < i ==> !Fires(rules[j], settings, passName, keywords)
  {
    if rules == [] then None
    else if Fires(rules[0], settings, passName, keywords) then Some(rules[0])
    else
      var rest := StripReason(rules[1..], settings, passName, keywords);
      assert forall i :: 1 <= i < |rules| ==> rules[i] == rules[1..][i - 1];
      assert forall r :: r in rules[1..] ==> r in rules;
      rest
  }

  /** The shadow rules read the tier tables through the same keywords as the
      stripper's `foreach`, so they agree with it. */
  lemma ShadowRuleMatchesTableWalk(settings: RenderPipelineSettings, passName: string,
                                   keywords: set<ShaderKeyword>, family: LightFamily)
    ensures OtherTierEnabled(family, Tiers, ConfiguredTier(settings, family), keywords)
      <==> Fires(if family == Punctual then PunctualShadowMismatch else DirectionalShadowMismatch,
                 settings, passName, keywords)
  {
    TiersEnumerateEveryTierOnce();
    TableWalkAnyOrder(family, Tiers, ConfiguredTier(settings, family), keywords);
  }

  /** The stripper answers true exactly when some rule fires: its result is
      the disjunction of the rules. */
  lemma StripIffSomeRuleFires(settings: RenderPipelineSettings, passName: string, keywords: set<ShaderKeyword>)
    ensures CommonShaderStripper(settings, passName, keywords)
      <==> exists r :: Fires(r, settings, passName, keywords)
  {
    ShadowRuleMatchesTableWalk(settings, passName, keywords, Punctual);
    ShadowRuleMatchesTableWalk(settings, passName, keywords, Directional);
    if CommonShaderStripper(settings, passName, keywords) {
      var rule :=
        if Fires(PunctualShadowMismatch, settings, passName, keywords) then PunctualShadowMismatch
        else if Fires(DirectionalShadowMismatch, settings, passName, keywords) then DirectionalShadowMismatch
        else if Fires(SceneSelection, settings, passName, keywords) then SceneSelection
        else if Fires(DisabledMotionVectors, settings, passName, keywords) then DisabledMotionVectors
        else if Fires(TransparentTileLighting, settings, passName, keywords) then TransparentTileLighting
        else if Fires(DisabledDebugDisplay, settings, passName, keywords) then DisabledDebugDisplay
        else if Fires(DisabledCrossFade, settings, passName, keywords) then DisabledCrossFade
        else if Fires(RedundantDecalsOff, settings, passName, keywords) then RedundantDecalsOff
        else if Fires(UnselectedDecals3RT, settings, passName, keywords) then UnselectedDecals3RT
        else if Fires(UnselectedDecals4RT, settings, passName, keywords) then UnselectedDecals4RT
        else DisabledLightLayers;
      assert Fires(rule, settings, passName, keywords);
    }
  }

  /** Testing the rules in any order that includes all of them reaches the
      stripper's verdict. */
  lemma AnyOrderAgrees(rules: seq<StripRule>, settings: RenderPipelineSettings, passName: string,
                       keywords: set<ShaderKeyword>)
    requires forall r :: r in rules
    ensures StripReason(rules, settings, passName, keywords).Some?
      == CommonShaderStripper(settings, passName, keywords)
  {
    StripIffSomeRuleFires(settings, passName, keywords);
  }

  /** Testing the rules in the stripper's own order reaches its verdict. */
  lemma SourceOrderAgrees(settings: RenderPipelineSettings, passName: string, keywords: set<ShaderKeyword>)
    ensures StripReason(SourceOrder, settings, passName, keywords).Some?
      == CommonShaderStripper(settings, passName, keywords)
  {
    forall r ensures r in SourceOrder {
      match r
      case PunctualShadowMismatch => assert SourceOrder[0] == r;
      case DirectionalShadowMismatch => assert SourceOrder[1] == r;
      case SceneSelection => assert SourceOrder[2] == r;
      case DisabledMotionVectors => assert SourceOrder[3] == r;
      case TransparentTileLighting => assert SourceOrder[4] == r;
      case DisabledDebugDisplay => assert SourceOrder[5] == r;
      case DisabledCrossFade => assert SourceOrder[6] == r;
      case RedundantDecalsOff => assert SourceOrder[7] == r;
      case UnselectedDecals3RT => assert SourceOrder[8] == r;
      case UnselectedDecals4RT => assert SourceOrder[9] == r;
      case DisabledLightLayers => assert SourceOrder[10] == r;
    }
    AnyOrderAgrees(SourceOrder, settings, passName, keywords);
  }

  /** Each rule firing is on its own sufficient to strip the variant,
      whatever the other rules say. */
  lemma EachRuleSuffices(rule: StripRule, settings: RenderPipelineSettings, passName: string,
                         keywords: set<ShaderKeyword>)
    requires Fires(rule, settings, passName, keywords)
    ensures CommonShaderStripper(settings, passName, keywords)
  {
    StripIffSomeRuleFires(settings, passName, keywords);
  }
}
