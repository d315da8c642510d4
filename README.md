# HDRP common shader-variant stripping, in Dafny

This project models the common stripping predicate of the High Definition
Render Pipeline's shader preprocessor (`BaseShaderPreprocessor`). When a
shader is built, each candidate variant (a pass name plus a set of enabled
shader keywords) is shown to the preprocessor. The preprocessor decides from
the render pipeline asset's settings whether the variant is stripped from
the build. The model has three parts:

- `Keywords` (Keywords.dfy): the keyword catalogue the constructor creates by
  name, and the two shadow-quality tier tables. Each table maps a tier (Low,
  Medium, High) to the keyword of its compiled variant, one table for
  punctual lights and one for directional lights. The tables are total
  functions, and `Tiers` gives the order in which they are enumerated.
- `ShaderPreprocessor` (ShaderPreprocessor.dfy): the settings the stripper
  reads, and `CommonShaderStripper` itself. Its conditions are tested in the
  source's order, and it answers `true` at the first one that holds. The two
  `foreach` loops over the tier tables become the recursive search
  `OtherTierEnabled`.
- `StripRules` and `StrippingProperties` (StripRules.dfy,
  StrippingProperties.dfy): every condition stated as an independent rule
  (`Fires`), with proofs of the following:
  - the stripper strips exactly when some rule fires, so any order of the
    rules reaches the same verdict;
  - `StripReason` returns the first rule that fires in a given order;
  - exact per-family properties for shadow tiers, passes, tile/cluster
    lighting, debug display, LOD cross-fade, decals and light layers.

Every rule only asks whether a keyword is enabled, never whether it is
disabled. So enabling more keywords never rescues a stripped variant
(`StripMonotone`), and keywords outside the catalogue never matter.

## Model

| member | source | states |
|---|---|---|
| `Keywords.Name` | com.unity.render-pipelines.high-definition/HDRP/Editor/Material/BaseShaderPreprocessor.cs:39-53 | the preprocessor symbol of each catalogue keyword, as the constructor spells it; every catalogue keyword carries a catalogue name, and a keyword variants can enable (a `ShaderKeyword`) carries one exactly when it is a catalogue keyword |
| `Keywords.FromName` | com.unity.render-pipelines.high-definition/HDRP/Editor/Material/BaseShaderPreprocessor.cs:39-53 | creating a keyword from a name gives the one shader keyword with that name; it is a catalogue keyword exactly when the name is one of the fifteen catalogue names |
| `Keywords.NameRoundTrip` | com.unity.render-pipelines.high-definition/HDRP/Editor/Material/BaseShaderPreprocessor.cs:39-53 | creating a keyword from the name of a shader keyword gives that keyword back |
| `Keywords.NameInjective` | com.unity.render-pipelines.high-definition/HDRP/Editor/Material/BaseShaderPreprocessor.cs:39-53 | distinct shader keywords have distinct names, so identity by name is sound |
| `Keywords.ShadowVariant` | com.unity.render-pipelines.high-definition/HDRP/Editor/Material/BaseShaderPreprocessor.cs:55-66 | the tier tables: each entry maps back through the inverse table `ShadowTier` to its own family and tier; `ShadowVariantInjective`, `ShadowTierInverse` and `ShadowVariantNames` state the rest of their meaning |
| `Keywords.ShadowTierInverse` | com.unity.render-pipelines.high-definition/HDRP/Editor/Material/BaseShaderPreprocessor.cs:55-66 | the other half of the round trip: a keyword `ShadowTier` places in a table is that table entry, and a keyword it places nowhere is no table entry |
| `Keywords.ShadowVariantNames` | com.unity.render-pipelines.high-definition/HDRP/Editor/Material/BaseShaderPreprocessor.cs:48-53 | the table entry for a family and tier is the keyword spelled "<FAMILY>_SHADOW_<TIER>" |
| `Keywords.ShadowVariantInjective` | com.unity.render-pipelines.high-definition/HDRP/Editor/Material/BaseShaderPreprocessor.cs:48-66 | two table entries hold the same keyword iff they are the same family and tier: each table is a bijection and the punctual and directional families are disjoint |
| `Keywords.TiersEnumerateEveryTierOnce` | com.unity.render-pipelines.high-definition/HDRP/Editor/Material/BaseShaderPreprocessor.cs:55-66 | every tier is a key of each table, exactly once |
| `ShaderPreprocessor.OtherTierEnabled` | com.unity.render-pipelines.high-definition/HDRP/Editor/Material/BaseShaderPreprocessor.cs:88-99 | the early-return search over a tier table answers true iff some enumerated tier other than the configured one has its keyword enabled |
| `ShaderPreprocessor.TableWalkAnyOrder` | com.unity.render-pipelines.high-definition/HDRP/Editor/Material/BaseShaderPreprocessor.cs:88-99 | walking a tier table in any order that visits every tier answers true iff some tier other than the configured one has its keyword enabled, so it gives the same answer as the insertion order `Tiers` |
| `ShaderPreprocessor.CommonShaderStripper` | com.unity.render-pipelines.high-definition/HDRP/Editor/Material/BaseShaderPreprocessor.cs:83-160 | a kept variant matches the configuration in every family: only configured shadow tiers, not the scene selection pass, motion vectors only when supported, no tile lighting when transparent, debug display, cross-fade and light layers only when supported, no DECALS_OFF with decal support, DECALS_3RT only with decals and no per-channel mask, DECALS_4RT only with decals and the mask; the converse is `StripIffSomeRuleFires`, and the per-keyword `...Exact` lemmas give the exact verdicts |
| `StripRules.StripReason` | com.unity.render-pipelines.high-definition/HDRP/Editor/Material/BaseShaderPreprocessor.cs:83-159 | returns None iff no rule of the chain fires; otherwise returns a rule that fires and that no earlier rule of the chain precedes while firing |
| `StripRules.ShadowRuleMatchesTableWalk` | com.unity.render-pipelines.high-definition/HDRP/Editor/Material/BaseShaderPreprocessor.cs:88-99 | the table search for a family agrees with "some tier other than the configured one has its keyword enabled" |
| `StripRules.StripIffSomeRuleFires` | com.unity.render-pipelines.high-definition/HDRP/Editor/Material/BaseShaderPreprocessor.cs:83-159 | the stripper returns true iff at least one rule fires: stripping is the OR of the rules |
| `StripRules.AnyOrderAgrees` | com.unity.render-pipelines.high-definition/HDRP/Editor/Material/BaseShaderPreprocessor.cs:83-159 | testing all the rules in any order reaches the stripper's verdict; order only picks which rule is reported |
| `StripRules.SourceOrderAgrees` | com.unity.render-pipelines.high-definition/HDRP/Editor/Material/BaseShaderPreprocessor.cs:83-159 | testing the rules in the order the stripper tests them reaches its verdict |
| `StripRules.EachRuleSuffices` | com.unity.render-pipelines.high-definition/HDRP/Editor/Material/BaseShaderPreprocessor.cs:83-159 | any single rule that fires strips the variant, whatever the other rules say |
| `StrippingProperties.FiresReadsOnly` | com.unity.render-pipelines.high-definition/HDRP/Editor/Material/BaseShaderPreprocessor.cs:83-159 | each rule depends only on whether the keywords it tests are enabled |
| `StrippingProperties.FiresMonotone` | com.unity.render-pipelines.high-definition/HDRP/Editor/Material/BaseShaderPreprocessor.cs:83-159 | a rule that fires still fires when more keywords are enabled |
| `StrippingProperties.StripMonotone` | com.unity.render-pipelines.high-definition/HDRP/Editor/Material/BaseShaderPreprocessor.cs:83-159 | a stripped variant stays stripped when it enables more keywords |
| `StrippingProperties.EnablingKeyword` | com.unity.render-pipelines.high-definition/HDRP/Editor/Material/BaseShaderPreprocessor.cs:83-159 | enabling a keyword strips a variant iff a rule testing that keyword fires or the variant without it is already stripped |
| `StrippingProperties.OtherKeywordsIrrelevant` | com.unity.render-pipelines.high-definition/HDRP/Editor/Material/BaseShaderPreprocessor.cs:83-159 | shader keywords outside the catalogue (whose names are not catalogue names) never change the verdict |
| `StrippingProperties.ShadowMismatchStrips` | com.unity.render-pipelines.high-definition/HDRP/Editor/Material/BaseShaderPreprocessor.cs:88-99 | a variant enabling the keyword of a tier other than its family's configured tier is stripped, for punctual and directional lights alike |
| `StrippingProperties.ConfiguredTierHarmless` | com.unity.render-pipelines.high-definition/HDRP/Editor/Material/BaseShaderPreprocessor.cs:88-99 | enabling the configured tier's keyword of either family never changes the verdict |
| `StrippingProperties.SceneSelectionAlwaysStripped` | com.unity.render-pipelines.high-definition/HDRP/Editor/Material/BaseShaderPreprocessor.cs:101-103 | a "SceneSelectionPass" variant is stripped for every configuration and keyword set |
| `StrippingProperties.OrdinaryPassNamesAgree` | com.unity.render-pipelines.high-definition/HDRP/Editor/Material/BaseShaderPreprocessor.cs:101-107 | apart from the scene selection and motion vector passes, the pass name never changes the verdict |
| `StrippingProperties.MotionVectorsPassExact` | com.unity.render-pipelines.high-definition/HDRP/Editor/Material/BaseShaderPreprocessor.cs:105-107 | a "Motion Vectors" variant is stripped iff motion vectors are unsupported or the same keywords would be stripped in an ordinary pass |
| `StrippingProperties.TransparentTileStripped` | com.unity.render-pipelines.high-definition/HDRP/Editor/Material/BaseShaderPreprocessor.cs:111-116 | a variant enabling both the transparent surface type and the tile (FPTL) light list is stripped |
| `StrippingProperties.OpaqueLightListIrrelevant` | com.unity.render-pipelines.high-definition/HDRP/Editor/Material/BaseShaderPreprocessor.cs:111-120 | for an opaque variant, enabling the tile or the cluster light list never changes the verdict |
| `StrippingProperties.ClusterLightingIrrelevant` | com.unity.render-pipelines.high-definition/HDRP/Editor/Material/BaseShaderPreprocessor.cs:111-120 | enabling the cluster light list never changes the verdict, for transparent and opaque variants |
| `StrippingProperties.DebugDisplayExact` | com.unity.render-pipelines.high-definition/HDRP/Editor/Material/BaseShaderPreprocessor.cs:124-127 | a DEBUG_DISPLAY variant is stripped iff runtime debug display is unsupported or the variant without it is stripped |
| `StrippingProperties.CrossFadeExact` | com.unity.render-pipelines.high-definition/HDRP/Editor/Material/BaseShaderPreprocessor.cs:129-130 | a LOD_FADE_CROSSFADE variant is stripped iff dithering cross-fade is unsupported or the variant without it is stripped |
| `StrippingProperties.LightLayersExact` | com.unity.render-pipelines.high-definition/HDRP/Editor/Material/BaseShaderPreprocessor.cs:156-157 | a LIGHT_LAYERS variant is stripped iff light layers are unsupported or the variant without it is stripped |
| `StrippingProperties.DecalsOffExact` | com.unity.render-pipelines.high-definition/HDRP/Editor/Material/BaseShaderPreprocessor.cs:135-153 | a DECALS_OFF variant is stripped iff decals are supported or the variant without it is stripped; without decal support the decal rules never strip it |
| `StrippingProperties.Decals3RTExact` | com.unity.render-pipelines.high-definition/HDRP/Editor/Material/BaseShaderPreprocessor.cs:135-153 | a DECALS_3RT variant is stripped iff decals are unsupported, or the per-channel mask is set, or the variant without it is stripped |
| `StrippingProperties.Decals4RTExact` | com.unity.render-pipelines.high-definition/HDRP/Editor/Material/BaseShaderPreprocessor.cs:135-153 | a DECALS_4RT variant is stripped iff decals are unsupported, or the per-channel mask is off, or the variant without it is stripped |

## Left out

- The `shader` argument of the stripper: it is never read, so the model drops it. The snippet is reduced to its pass name and the compiler data to its keyword set.
- `m_ShadowMask`: declared at BaseShaderPreprocessor.cs:17 but never created or read.
- `AddStripperFuncs` (BaseShaderPreprocessor.cs:69) is an empty virtual hook. The registry of stripping functions per shader and the loop that applies them to the variant list are not part of this model: their code is not among the modelled files.
- Unity's `ShaderKeyword` and `ShaderKeywordSet` are foreign types. A keyword is an enumerated value. Variants enable only `ShaderKeyword` values, in which an `Other` keyword never carries a catalogue name, so a keyword is identified by its name (`Name`, `FromName`, `NameInjective`). `IsEnabled` is set membership.
- The commented-out release-build test on the debug display rule (BaseShaderPreprocessor.cs:126) is not modelled. Only the settings flag decides, as in the executed code.
- `Dictionary` enumeration order is taken to be insertion order (`Tiers`). The verdict does not depend on it (`TableWalkAnyOrder`).
- The code has no error path for a malformed shadow tier; in the model the tier is an enumeration, so it cannot be malformed.
- Decal configuration is read as two booleans, decal support and the per-channel mask, not as one three-way mode; the model follows the code.
- HDRenderPipelineUI.cs, HDLitUI.cs and NodeDelete.cs are editor inspector and canvas code, not part of this model.
