/**
  The keyword catalogue of the HDRP shader preprocessor: the shader keywords
  that the common stripping rules test, created by name once in the
  preprocessor's constructor, and the two shadow-quality tier tables that map
  each tier to the keyword of its compiled variant, one table per light family.
*/
module Keywords {
  import opened Wrappers

  /** One shader keyword. The catalogue keywords get their own constructor;
      every other keyword a variant may enable is `Other`, carrying its name. */
  datatype Keyword =
    | Transparent
    | DebugDisplay
    | TileLighting
    | ClusterLighting
    | LodFadeCrossFade
    | DecalsOff
    | Decals3RT
    | Decals4RT
    | LightLayers
    | PunctualLow
    | PunctualMedium
    | PunctualHigh
    | DirectionalLow
    | DirectionalMedium
    | DirectionalHigh
    | Other(name: string)

  /** The preprocessor symbol each keyword is created from. */
  function Name(k: Keyword): (n: string)
    ensures !k.Other? ==> n in CatalogueNames
    ensures Canonical(k) ==> (n in CatalogueNames <==> !k.Other?)
  {
    match k
    case Transparent => "_SURFACE_TYPE_TRANSPARENT"
    case DebugDisplay => "DEBUG_DISPLAY"
    case TileLighting => "USE_FPTL_LIGHTLIST"
    case ClusterLighting => "USE_CLUSTERED_LIGHTLIST"
    case LodFadeCrossFade => "LOD_FADE_CROSSFADE"
    case DecalsOff => "DECALS_OFF"
    case Decals3RT => "DECALS_3RT"
    case Decals4RT => "DECALS_4RT"
    case LightLayers => "LIGHT_LAYERS"
    case PunctualLow => "PUNCTUAL_SHADOW_LOW"
    case PunctualMedium => "PUNCTUAL_SHADOW_MEDIUM"
    case PunctualHigh => "PUNCTUAL_SHADOW_HIGH"
    case DirectionalLow => "DIRECTIONAL_SHADOW_LOW"
    case DirectionalMedium => "DIRECTIONAL_SHADOW_MEDIUM"
    case DirectionalHigh => "DIRECTIONAL_SHADOW_HIGH"
    case Other(name) => name
  }

  /** The names of the fifteen catalogue keywords. */
  const CatalogueNames: set<string> := {
    "_SURFACE_TYPE_TRANSPARENT", "DEBUG_DISPLAY", "USE_FPTL_LIGHTLIST",
    "USE_CLUSTERED_LIGHTLIST", "LOD_FADE_CROSSFADE", "DECALS_OFF", "DECALS_3RT",
    "DECALS_4RT", "LIGHT_LAYERS", "PUNCTUAL_SHADOW_LOW", "PUNCTUAL_SHADOW_MEDIUM",
    "PUNCTUAL_SHADOW_HIGH", "DIRECTIONAL_SHADOW_LOW", "DIRECTIONAL_SHADOW_MEDIUM",
    "DIRECTIONAL_SHADOW_HIGH"
  }

  /** A keyword value is canonical when an `Other` never carries a catalogue
      name: a keyword is identified by its name, so "DEBUG_DISPLAY" is always
      `DebugDisplay`. */
  predicate Canonical(k: Keyword)
  {
    k.Other? ==> k.name !in CatalogueNames
  }

  /** A shader keyword as a variant enables it: the one keyword value of its
      name. */
  type ShaderKeyword = k: Keyword | Canonical(k) witness Transparent

  /** Creating a keyword from its name, as the constructor does for each
      catalogue entry. */
  function FromName(s: string): (k: ShaderKeyword)
    ensures Name(k) == s
    ensures k.Other? <==> s !in CatalogueNames
  {
    if s == "_SURFACE_TYPE_TRANSPARENT" then Transparent
    else if s == "DEBUG_DISPLAY" then DebugDisplay
    else if s == "USE_FPTL_LIGHTLIST" then TileLighting
    else if s == "USE_CLUSTERED_LIGHTLIST" then ClusterLighting
    else if s == "LOD_FADE_CROSSFADE" then LodFadeCrossFade
    else if s == "DECALS_OFF" then DecalsOff
    else if s == "DECALS_3RT" then Decals3RT
    else if s == "DECALS_4RT" then Decals4RT
    else if s == "LIGHT_LAYERS" then LightLayers
    else if s == "PUNCTUAL_SHADOW_LOW" then PunctualLow
    else if s == "PUNCTUAL_SHADOW_MEDIUM" then PunctualMedium
    else if s == "PUNCTUAL_SHADOW_HIGH" then PunctualHigh
    else if s == "DIRECTIONAL_SHADOW_LOW" then DirectionalLow
    else if s == "DIRECTIONAL_SHADOW_MEDIUM" then DirectionalMedium
    else if s == "DIRECTIONAL_SHADOW_HIGH" then DirectionalHigh
    else Other(s)
  }

  /** Naming a canonical keyword and creating it again from that name gives
      the same keyword: names identify keywords. */
  lemma NameRoundTrip(k: ShaderKeyword)
    ensures FromName(Name(k)) == k
  {
  }

  /** Distinct canonical keywords have distinct names. */
  lemma NameInjective(k1: ShaderKeyword, k2: ShaderKeyword)
    requires Name(k1) == Name(k2)
    ensures k1 == k2
  {
    NameRoundTrip(k1);
    NameRoundTrip(k2);
  }

  /** The shadow filtering quality of one light family. */
  datatype HDShadowQuality = Low | Medium | High

  /** The two light families that carry their own shadow-quality tier. */
  datatype LightFamily = Punctual | Directional

  /** The upper-case names the tier keywords are spelled with. */
  function FamilyName(family: LightFamily): string
  {
    match family
    case Punctual => "PUNCTUAL"
    case Directional => "DIRECTIONAL"
  }

  function TierName(tier: HDShadowQuality): string
  {
    match tier
    case Low => "LOW"
    case Medium => "MEDIUM"
    case High => "HIGH"
  }

  /** The tier tables: the keyword that marks the variant compiled for a
      tier, in the punctual table or the directional table. */
  function ShadowVariant(family: LightFamily, tier: HDShadowQuality): (k: ShaderKeyword)
    ensures ShadowTier(k) == Some((family, tier))
  {
    match (family, tier)
    case (Punctual, Low) => PunctualLow
    case (Punctual, Medium) => PunctualMedium
    case (Punctual, High) => PunctualHigh
    case (Directional, Low) => DirectionalLow
    case (Directional, Medium) => DirectionalMedium
    case (Directional, High) => DirectionalHigh
  }

  /** Each table entry is the keyword spelled "<FAMILY>_SHADOW_<TIER>". */
  lemma ShadowVariantNames(family: LightFamily, tier: HDShadowQuality)
    ensures Name(ShadowVariant(family, tier)) == FamilyName(family) + "_SHADOW_" + TierName(tier)
  {
    var n := Name(ShadowVariant(family, tier));
    var spelled := FamilyName(family) + "_SHADOW_" + TierName(tier);
    assert |n| == |spelled|;
    forall i | 0 <= i < |n| ensures n[i] == spelled[i] {
    }
  }

  /** The keys of each tier table in the order they were inserted, which is
      the order the stripper enumerates them in. */
  const Tiers: seq<HDShadowQuality> := [Low, Medium, High]

  /** The inverse of the tier tables: the family and tier a shadow keyword
      stands for, or None for a keyword outside both tables. */
  function ShadowTier(k: Keyword): Option<(LightFamily, HDShadowQuality)>
  {
    match k
    case PunctualLow => Some((Punctual, Low))
    case PunctualMedium => Some((Punctual, Medium))
    case PunctualHigh => Some((Punctual, High))
    case DirectionalLow => Some((Directional, Low))
    case DirectionalMedium => Some((Directional, Medium))
    case DirectionalHigh => Some((Directional, High))
    case _ => None
  }

  /** The other half of the round trip: a keyword that `ShadowTier` places
      in a table is that table entry, and a keyword it places nowhere is no
      table entry. */
  lemma ShadowTierInverse(k: Keyword)
    ensures ShadowTier(k).Some? ==> ShadowVariant(ShadowTier(k).value.0, ShadowTier(k).value.1) == k
    ensures ShadowTier(k).None? ==> forall f, q :: ShadowVariant(f, q) != k
  {
    if ShadowTier(k).None? {
      forall f, q ensures ShadowVariant(f, q) != k {
        assert ShadowTier(ShadowVariant(f, q)).Some?;
      }
    }
  }

  /** Each table is a bijection from tiers onto its family's three keywords,
      and the two families share no keyword. */
  lemma ShadowVariantInjective(f1: LightFamily, q1: HDShadowQuality, f2: LightFamily, q2: HDShadowQuality)
    ensures ShadowVariant(f1, q1) == ShadowVariant(f2, q2) <==> f1 == f2 && q1 == q2
  {
  }

  /** Every tier is a key of the tables exactly once. */
  lemma TiersEnumerateEveryTierOnce()
    ensures forall q :: q in Tiers
    ensures |Tiers| == 3 && forall i, j :: 0 <= i < j < |Tiers| ==> Tiers[i] != Tiers[j]
  {
    forall q ensures q in Tiers {
      match q
      case Low => assert Tiers[0] == q;
      case Medium => assert Tiers[1] == q;
      case High => assert Tiers[2] == q;
    }
  }
}
