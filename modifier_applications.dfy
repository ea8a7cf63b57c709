/** The modifier engine: walks the fixed modifier order, multiplying the
    running labor by each enabled modifier's factor and recording its label. */
module ModifierApplications {
  import opened CalculatorTypes
  import opened Modifiers

  /** One gated modifier: whether its flag is on, its factor and its label. */
  datatype Gate = Gate(enabled: bool, factor: real, name: string)

  function InteriorEnabled(m: InteriorModifiers, k: InteriorModifier): bool
  {
    match k
    case HeavilyFurnished => m.heavilyFurnished
    case EmptyHouse => m.emptyHouse
    case InteriorExtensivePrep => m.extensivePrep
    case InteriorAdditionalCoat => m.additionalCoat
    case InteriorOneCoat => m.oneCoat
  }

  function ExteriorEnabled(m: ExteriorModifiers, k: ExteriorModifier): bool
  {
    match k
    case ThreeStory => m.threeStory
    case ExteriorExtensivePrep => m.extensivePrep
    case HardTerrain => m.hardTerrain
    case ExteriorAdditionalCoat => m.additionalCoat
    case ExteriorOneCoat => m.oneCoat
  }

  function InteriorGate(m: InteriorModifiers, k: InteriorModifier): Gate
  {
    Gate(InteriorEnabled(m, k), InteriorFactor(k), InteriorLabel(k))
  }

  function ExteriorGate(m: ExteriorModifiers, k: ExteriorModifier): Gate
  {
    Gate(ExteriorEnabled(m, k), ExteriorFactor(k), ExteriorLabel(k))
  }

  /** The interior gates in application order. */
  function InteriorChain(m: InteriorModifiers): (c: seq<Gate>)
    ensures |c| == |InteriorOrder|
    ensures forall i :: 0 <= i < |c| ==> c[i] == InteriorGate(m, InteriorOrder[i])
  {
    [InteriorGate(m, HeavilyFurnished), InteriorGate(m, EmptyHouse), InteriorGate(m, InteriorExtensivePrep),
     InteriorGate(m, InteriorAdditionalCoat), InteriorGate(m, InteriorOneCoat)]
  }

  /** The exterior gates in application order. */
  function ExteriorChain(m: ExteriorModifiers): (c: seq<Gate>)
    ensures |c| == |ExteriorOrder|
    ensures forall i :: 0 <= i < |c| ==> c[i] == ExteriorGate(m, ExteriorOrder[i])
  {
    [ExteriorGate(m, ThreeStory), ExteriorGate(m, ExteriorExtensivePrep), ExteriorGate(m, HardTerrain),
     ExteriorGate(m, ExteriorAdditionalCoat), ExteriorGate(m, ExteriorOneCoat)]
  }

  /** The factor a gate contributes: its own when enabled, 1 otherwise. */
  function Effective(g: Gate): real
  {
    if g.enabled then g.factor else 1.0
  }

  /** One gate applied to a running labor: multiplied by its factor when enabled. */
  function Step(labor: real, g: Gate): real
  {
    if g.enabled then labor * g.factor else labor
  }

  /** One gate applied to the recorded labels: its label appended when enabled. */
  function Fire(labels: seq<string>, g: Gate): seq<string>
  {
    labels + (if g.enabled then [g.name] else [])
  }

  /** Labor after applying the gates one after another, first gate first. */
  function Applied(base: real, c: seq<Gate>): real
  {
    if c == [] then base else Step(Applied(base, c[..|c| - 1]), c[|c| - 1])
  }

  /** The product of the factors of exactly the enabled gates. */
  function ChainFactor(c: seq<Gate>): real
  {
    if c == [] then 1.0 else Effective(c[0]) * ChainFactor(c[1..])
  }

  /** A base labor multiplied by the product of the enabled factors. */
  function Scaled(base: real, c: seq<Gate>): real
  {
    base * ChainFactor(c)
  }

  /** Labels of the enabled gates, in gate order. */
  function FiredLabels(c: seq<Gate>): seq<string>
  {
    if c == [] then [] else Fire(FiredLabels(c[..|c| - 1]), c[|c| - 1])
  }

  /** Number of enabled gates. */
  function EnabledCount(c: seq<Gate>): nat
  {
    if c == [] then 0 else (if c[0].enabled then 1 else 0) + EnabledCount(c[1..])
  }

  lemma {:induction false} ChainFactorSnoc(c: seq<Gate>, g: Gate)
    ensures ChainFactor(c + [g]) == ChainFactor(c) * Effective(g)
  {
    if c == [] {
      assert c + [g] == [g];
    } else {
      assert (c + [g])[1..] == c[1..] + [g];
      ChainFactorSnoc(c[1..], g);
    }
  }

  lemma {:induction false} EnabledCountSnoc(c: seq<Gate>, g: Gate)
    ensures EnabledCount(c + [g]) == EnabledCount(c) + (if g.enabled then 1 else 0)
  {
    if c == [] {
      assert c + [g] == [g];
    } else {
      assert (c + [g])[1..] == c[1..] + [g];
      EnabledCountSnoc(c[1..], g);
    }
  }

  /** Applying the gates in sequence scales the base by the product of
      the enabled factors: the result is linear in the base labor. */
  lemma {:induction false} AppliedIsScaling(base: real, c: seq<Gate>)
    ensures Applied(base, c) == Scaled(base, c)
  {
    if c != [] {
      var init, last := c[..|c| - 1], c[|c| - 1];
      assert c == init + [last];
      AppliedIsScaling(base, init);
      ScaledSnoc(base, init, last);
    }
  }

  /** Scaling by one more gate multiplies by that gate's effective factor. */
  lemma ScaledSnoc(base: real, c: seq<Gate>, g: Gate)
    ensures Scaled(base, c + [g]) == Step(Scaled(base, c), g)
  {
    ChainFactorSnoc(c, g);
    var f := ChainFactor(c);
    if g.enabled {
      assert base * (f * g.factor) == (base * f) * g.factor;
    }
  }

  /** With every flag off, labor is unchanged and no label is recorded. */
  lemma {:induction false} AllOffIsIdentity(base: real, c: seq<Gate>)
    requires forall i :: 0 <= i < |c| ==> !c[i].enabled
    ensures Applied(base, c) == base
    ensures FiredLabels(c) == []
  {
    if c != [] {
      AllOffIsIdentity(base, c[..|c| - 1]);
    }
  }

  /** One label per enabled gate. */
  lemma {:induction false} LabelCountIsEnabledCount(c: seq<Gate>)
    ensures |FiredLabels(c)| == EnabledCount(c)
  {
    if c != [] {
      var init, last := c[..|c| - 1], c[|c| - 1];
      assert c == init + [last];
      LabelCountIsEnabledCount(init);
      EnabledCountSnoc(init, last);
    }
  }

  /** A label is recorded exactly when some enabled gate carries it. */
  lemma {:induction false} FiredLabelsMembership(c: seq<Gate>, s: string)
    ensures s in FiredLabels(c) <==> exists i :: 0 <= i < |c| && c[i].enabled && c[i].name == s
  {
    if c != [] {
      var init, last := c[..|c| - 1], c[|c| - 1];
      FiredLabelsMembership(init, s);
      if s in FiredLabels(c) && !(s in FiredLabels(init)) {
        assert c[|c| - 1].enabled && c[|c| - 1].name == s;
      }
      if exists i :: 0 <= i < |c| && c[i].enabled && c[i].name == s {
        var i :| 0 <= i < |c| && c[i].enabled && c[i].name == s;
        if i < |c| - 1 {
          assert init[i] == c[i];
        }
      }
    }
  }

  /** Positive factors keep the chain factor positive. */
  lemma {:induction false} ChainFactorPositive(c: seq<Gate>)
    requires forall i :: 0 <= i < |c| ==> c[i].factor > 0.0
    ensures ChainFactor(c) > 0.0
  {
    if c != [] {
      ChainFactorPositive(c[1..]);
    }
  }

  /** Non-negative base labor stays non-negative after the interior modifiers. */
  lemma InteriorPreservesNonNegative(base: real, m: InteriorModifiers)
    requires base >= 0.0
    ensures Applied(base, InteriorChain(m)) >= 0.0
  {
    var c := InteriorChain(m);
    forall i | 0 <= i < |c| ensures c[i].factor > 0.0 {
      InteriorFactorsSigns(InteriorOrder[i]);
    }
    ChainFactorPositive(c);
    AppliedIsScaling(base, c);
  }

  /** Non-negative base labor stays non-negative after the exterior modifiers. */
  lemma ExteriorPreservesNonNegative(base: real, m: ExteriorModifiers)
    requires base >= 0.0
    ensures Applied(base, ExteriorChain(m)) >= 0.0
  {
    var c := ExteriorChain(m);
    forall i | 0 <= i < |c| ensures c[i].factor > 0.0 {
      ExteriorFactorsSigns(ExteriorOrder[i]);
    }
    ChainFactorPositive(c);
    AppliedIsScaling(base, c);
  }

  /** An interior label appears exactly when its flag is set. */
  lemma InteriorLabelIffEnabled(m: InteriorModifiers, k: InteriorModifier)
    ensures InteriorLabel(k) in FiredLabels(InteriorChain(m)) <==> InteriorEnabled(m, k)
  {
    var c := InteriorChain(m);
    FiredLabelsMembership(c, InteriorLabel(k));
    OrdersAreComplete(k, ThreeStory);
    var j :| 0 <= j < |InteriorOrder| && InteriorOrder[j] == k;
    assert c[j] == InteriorGate(m, k);
    forall i | 0 <= i < |c| && c[i].name == InteriorLabel(k) ensures i == j {
      LabelsDistinct(InteriorOrder[i], k, ThreeStory, ThreeStory);
      assert InteriorOrder[i] == k;
    }
  }

  /** An exterior label appears exactly when its flag is set. */
  lemma ExteriorLabelIffEnabled(m: ExteriorModifiers, k: ExteriorModifier)
    ensures ExteriorLabel(k) in FiredLabels(ExteriorChain(m)) <==> ExteriorEnabled(m, k)
  {
    var c := ExteriorChain(m);
    FiredLabelsMembership(c, ExteriorLabel(k));
    OrdersAreComplete(HeavilyFurnished, k);
    var j :| 0 <= j < |ExteriorOrder| && ExteriorOrder[j] == k;
    assert c[j] == ExteriorGate(m, k);
    forall i | 0 <= i < |c| && c[i].name == ExteriorLabel(k) ensures i == j {
      LabelsDistinct(HeavilyFurnished, HeavilyFurnished, ExteriorOrder[i], k);
      assert ExteriorOrder[i] == k;
    }
  }

  /** Three-story plus an additional coat on a 1000 base: 1000 × 1.15 × 1.25. */
  lemma ThreeStoryAdditionalCoatExample()
    ensures var m := ExteriorModifiers(true, false, false, true, false);
            Applied(1000.0, ExteriorChain(m)) == 1437.5
            && FiredLabels(ExteriorChain(m)) == ["3 Story (×1.15)", "Additional Coat (×1.25)"]
  {
    var m := ExteriorModifiers(true, false, false, true, false);
    var c := ExteriorChain(m);
    assert c[..1] == [c[0]] && c[..2][..1] == c[..1] && c[..3][..2] == c[..2];
    assert c[..4][..3] == c[..3] && c[..5][..4] == c[..4] && c[..5] == c;
    assert Applied(1000.0, c[..1]) == 1150.0 && FiredLabels(c[..1]) == ["3 Story (×1.15)"];
    assert Applied(1000.0, c[..3]) == 1150.0 && FiredLabels(c[..3]) == ["3 Story (×1.15)"];
  }

  /** A five-gate chain is applied one gate at a time, first gate first. */
  lemma FiveGates(base: real, c: seq<Gate>)
    requires |c| == 5
    ensures Applied(base, c) == Step(Step(Step(Step(Step(base, c[0]), c[1]), c[2]), c[3]), c[4])
    ensures FiredLabels(c) == Fire(Fire(Fire(Fire(Fire([], c[0]), c[1]), c[2]), c[3]), c[4])
  {
    PrefixStep(base, c, 0);
    PrefixStep(base, c, 1);
    PrefixStep(base, c, 2);
    PrefixStep(base, c, 3);
    PrefixStep(base, c, 4);
    assert c[..0] == [] && c[..5] == c;
  }

  /** The prefix of `k + 1` gates is the prefix of `k` followed by gate `k`. */
  lemma PrefixStep(base: real, c: seq<Gate>, k: nat)
    requires k < |c|
    ensures Applied(base, c[..k + 1]) == Step(Applied(base, c[..k]), c[k])
    ensures FiredLabels(c[..k + 1]) == Fire(FiredLabels(c[..k]), c[k])
  {
    assert c[..k + 1][..k] == c[..k];
  }

  /** applyInteriorModifiers: five guarded multiply-and-record steps. */
  method ApplyInteriorModifiers(baseLabor: real, modifiers: InteriorModifiers)
    returns (modifiedLabor: real, appliedModifiers: seq<string>)
    ensures modifiedLabor == Applied(baseLabor, InteriorChain(modifiers))
    ensures modifiedLabor == Scaled(baseLabor, InteriorChain(modifiers))
    ensures appliedModifiers == FiredLabels(InteriorChain(modifiers))
  {
    ghost var c := InteriorChain(modifiers);
    modifiedLabor := baseLabor;
    appliedModifiers := [];

    if modifiers.heavilyFurnished {
      modifiedLabor := modifiedLabor * InteriorFactor(HeavilyFurnished);
      appliedModifiers := appliedModifiers + ["Heavily Furnished (×1.25)"];
    }
    assert modifiedLabor == Step(baseLabor, c[0]) && appliedModifiers == Fire([], c[0]);
    ghost var labor1, labels1 := modifiedLabor, appliedModifiers;

    if modifiers.emptyHouse {
      modifiedLabor := modifiedLabor * InteriorFactor(EmptyHouse);
      appliedModifiers := appliedModifiers + ["Empty House (×0.85)"];
    }
    assert modifiedLabor == Step(labor1, c[1]) && appliedModifiers == Fire(labels1, c[1]);
    ghost var labor2, labels2 := modifiedLabor, appliedModifiers;

    if modifiers.extensivePrep {
      modifiedLabor := modifiedLabor * InteriorFactor(InteriorExtensivePrep);
      appliedModifiers := appliedModifiers + ["Extensive Prep (×1.15)"];
    }
    assert modifiedLabor == Step(labor2, c[2]) && appliedModifiers == Fire(labels2, c[2]);
    ghost var labor3, labels3 := modifiedLabor, appliedModifiers;

    if modifiers.additionalCoat {
      modifiedLabor := modifiedLabor * InteriorFactor(InteriorAdditionalCoat);
      appliedModifiers := appliedModifiers + ["Additional Coat (×1.25)"];
    }
    assert modifiedLabor == Step(labor3, c[3]) && appliedModifiers == Fire(labels3, c[3]);
    ghost var labor4, labels4 := modifiedLabor, appliedModifiers;

    if modifiers.oneCoat {
      modifiedLabor := modifiedLabor * InteriorFactor(InteriorOneCoat);
      appliedModifiers := appliedModifiers + ["Reduce to 1 Coat (×0.85)"];
    }
    assert modifiedLabor == Step(labor4, c[4]) && appliedModifiers == Fire(labels4, c[4]);
    FiveGates(baseLabor, c);
    AppliedIsScaling(baseLabor, c);
  }

  /** applyExteriorModifiers: five guarded multiply-and-record steps. */
  method ApplyExteriorModifiers(baseLabor: real, modifiers: ExteriorModifiers)
    returns (modifiedLabor: real, appliedModifiers: seq<string>)
    ensures modifiedLabor == Applied(baseLabor, ExteriorChain(modifiers))
    ensures modifiedLabor == Scaled(baseLabor, ExteriorChain(modifiers))
    ensures appliedModifiers == FiredLabels(ExteriorChain(modifiers))
  {
    ghost var c := ExteriorChain(modifiers);
    modifiedLabor := baseLabor;
    appliedModifiers := [];

    if modifiers.threeStory {
      modifiedLabor := modifiedLabor * ExteriorFactor(ThreeStory);
      appliedModifiers := appliedModifiers + ["3 Story (×1.15)"];
    }
    assert modifiedLabor == Step(baseLabor, c[0]) && appliedModifiers == Fire([], c[0]);
    ghost var labor1, labels1 := modifiedLabor, appliedModifiers;

    if modifiers.extensivePrep {
      modifiedLabor := modifiedLabor * ExteriorFactor(ExteriorExtensivePrep);
      appliedModifiers := appliedModifiers + ["Extensive Prep (×1.2)"];
    }
    assert modifiedLabor == Step(labor1, c[1]) && appliedModifiers == Fire(labels1, c[1]);
    ghost var labor2, labels2 := modifiedLabor, appliedModifiers;

    if modifiers.hardTerrain {
      modifiedLabor := modifiedLabor * ExteriorFactor(HardTerrain);
      appliedModifiers := appliedModifiers + ["Hard Terrain (×1.15)"];
    }
    assert modifiedLabor == Step(labor2, c[2]) && appliedModifiers == Fire(labels2, c[2]);
    ghost var labor3, labels3 := modifiedLabor, appliedModifiers;

    if modifiers.additionalCoat {
      modifiedLabor := modifiedLabor * ExteriorFactor(ExteriorAdditionalCoat);
      appliedModifiers := appliedModifiers + ["Additional Coat (×1.25)"];
    }
    assert modifiedLabor == Step(labor3, c[3]) && appliedModifiers == Fire(labels3, c[3]);
    ghost var labor4, labels4 := modifiedLabor, appliedModifiers;

    if modifiers.oneCoat {
      modifiedLabor := modifiedLabor * ExteriorFactor(ExteriorOneCoat);
      appliedModifiers := appliedModifiers + ["Reduce to 1 Coat (×0.85)"];
    }
    assert modifiedLabor == Step(labor4, c[4]) && appliedModifiers == Fire(labels4, c[4]);
    FiveGates(baseLabor, c);
    AppliedIsScaling(baseLabor, c);
  }
}
