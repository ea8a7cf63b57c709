/** The multiplicative labor modifiers: their factors and display labels,
    listed in the order the modifier engine applies them. */
module Modifiers {

  datatype InteriorModifier = HeavilyFurnished | EmptyHouse | InteriorExtensivePrep | InteriorAdditionalCoat | InteriorOneCoat

  datatype ExteriorModifier = ThreeStory | ExteriorExtensivePrep | HardTerrain | ExteriorAdditionalCoat | ExteriorOneCoat

  /** Declaration order, which is also the order of application. */
  const InteriorOrder: seq<InteriorModifier> :=
    [HeavilyFurnished, EmptyHouse, InteriorExtensivePrep, InteriorAdditionalCoat, InteriorOneCoat]

  const ExteriorOrder: seq<ExteriorModifier> :=
    [ThreeStory, ExteriorExtensivePrep, HardTerrain, ExteriorAdditionalCoat, ExteriorOneCoat]

  function InteriorFactor(k: InteriorModifier): real
  {
    match k
    case HeavilyFurnished => 1.25
    case EmptyHouse => 0.85
    case InteriorExtensivePrep => 1.15
    case InteriorAdditionalCoat => 1.25
    case InteriorOneCoat => 0.85
  }

  function ExteriorFactor(k: ExteriorModifier): real
  {
    match k
    case ThreeStory => 1.15
    case ExteriorExtensivePrep => 1.2
    case HardTerrain => 1.15
    case ExteriorAdditionalCoat => 1.25
    case ExteriorOneCoat => 0.85
  }

  function InteriorLabel(k: InteriorModifier): string
  {
    match k
    case HeavilyFurnished => "Heavily Furnished (×1.25)"
    case EmptyHouse => "Empty House (×0.85)"
    case InteriorExtensivePrep => "Extensive Prep (×1.15)"
    case InteriorAdditionalCoat => "Additional Coat (×1.25)"
    case InteriorOneCoat => "Reduce to 1 Coat (×0.85)"
  }

  function ExteriorLabel(k: ExteriorModifier): string
  {
    match k
    case ThreeStory => "3 Story (×1.15)"
    case ExteriorExtensivePrep => "Extensive Prep (×1.2)"
    case HardTerrain => "Hard Terrain (×1.15)"
    case ExteriorAdditionalCoat => "Additional Coat (×1.25)"
    case ExteriorOneCoat => "Reduce to 1 Coat (×0.85)"
  }

  /** Every interior factor is positive, and only the empty-house and
      one-coat modifiers lower the labor. */
  lemma InteriorFactorsSigns(k: InteriorModifier)
    ensures InteriorFactor(k) > 0.0
    ensures InteriorFactor(k) < 1.0 <==> k == EmptyHouse || k == InteriorOneCoat
  {
  }

  /** Every exterior factor is positive, and only the one-coat modifier lowers the labor. */
  lemma ExteriorFactorsSigns(k: ExteriorModifier)
    ensures ExteriorFactor(k) > 0.0
    ensures ExteriorFactor(k) < 1.0 <==> k == ExteriorOneCoat
  {
  }

  /** The order lists every modifier exactly once. */
  lemma OrdersAreComplete(i: InteriorModifier, e: ExteriorModifier)
    ensures i in InteriorOrder && e in ExteriorOrder
    ensures |InteriorOrder| == 5 && |ExteriorOrder| == 5
  {
  }

  /** Distinct modifiers have distinct labels, so a label identifies its modifier. */
  lemma LabelsDistinct(a: InteriorModifier, b: InteriorModifier, c: ExteriorModifier, d: ExteriorModifier)
    ensures a != b ==> InteriorLabel(a) != InteriorLabel(b)
    ensures c != d ==> ExteriorLabel(c) != ExteriorLabel(d)
  {
  }
}
