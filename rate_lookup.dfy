/** Rate resolution for detailed line items: the first configured line
    item with the requested id supplies the rate, and a missing id costs
    nothing. Both detailed calculators use this lookup. */
module LineItemRates {
  import opened Seqs
  import opened SettingsTypes

  predicate HasId(item: LineItemConfig, lineItemId: string)
  {
    item.id == lineItemId
  }

  /** `getRate`: the rate of the first line item with the id (`find`), else 0. */
  function GetRate(lineItems: seq<LineItemConfig>, lineItemId: string): real
  {
    if lineItems == [] then 0.0
    else if HasId(lineItems[0], lineItemId) then lineItems[0].rate
    else GetRate(lineItems[1..], lineItemId)
  }

  /** A missing id costs nothing; otherwise the first item carrying the id supplies the rate. */
  lemma {:induction false} GetRateSpec(lineItems: seq<LineItemConfig>, lineItemId: string)
    ensures (forall i :: 0 <= i < |lineItems| ==> lineItems[i].id != lineItemId) ==> GetRate(lineItems, lineItemId) == 0.0
    ensures forall i :: 0 <= i < |lineItems| && lineItems[i].id == lineItemId && IdAbsentBefore(lineItems, lineItemId, i)
                        ==> GetRate(lineItems, lineItemId) == lineItems[i].rate
  {
    if lineItems != [] {
      GetRateSpec(lineItems[1..], lineItemId);
      forall i | 0 < i < |lineItems| && lineItems[i].id == lineItemId && IdAbsentBefore(lineItems, lineItemId, i)
        ensures GetRate(lineItems, lineItemId) == lineItems[i].rate
      {
        assert lineItems[0].id != lineItemId;
        assert lineItems[1..][i - 1] == lineItems[i];
        assert IdAbsentBefore(lineItems[1..], lineItemId, i - 1);
      }
    }
  }

  /** The rate at position `i` is the one resolved when no earlier item has its id. */
  lemma GetRateAt(lineItems: seq<LineItemConfig>, i: nat)
    requires i < |lineItems| && IdAbsentBefore(lineItems, lineItems[i].id, i)
    ensures GetRate(lineItems, lineItems[i].id) == lineItems[i].rate
  {
    GetRateSpec(lineItems, lineItems[i].id);
  }

  /** No line item before position `i` carries the id. */
  predicate IdAbsentBefore(lineItems: seq<LineItemConfig>, lineItemId: string, i: int)
    requires 0 <= i <= |lineItems|
  {
    forall j :: 0 <= j < i ==> lineItems[j].id != lineItemId
  }

  /** Configured rates that are all non-negative resolve to non-negative rates. */
  lemma {:induction false} GetRateNonNegative(lineItems: seq<LineItemConfig>, lineItemId: string)
    requires forall i :: 0 <= i < |lineItems| ==> lineItems[i].rate >= 0.0
    ensures GetRate(lineItems, lineItemId) >= 0.0
  {
    if lineItems != [] {
      GetRateNonNegative(lineItems[1..], lineItemId);
    }
  }

  /** Appending a line item leaves every already-resolvable rate as it was,
      and a new id resolves to the appended item's rate. */
  lemma {:induction false} GetRateAfterAppend(lineItems: seq<LineItemConfig>, item: LineItemConfig, lineItemId: string)
    ensures (exists i :: 0 <= i < |lineItems| && lineItems[i].id == lineItemId) || item.id != lineItemId
            ==> GetRate(lineItems + [item], lineItemId) == GetRate(lineItems, lineItemId)
    ensures (forall i :: 0 <= i < |lineItems| ==> lineItems[i].id != lineItemId) && item.id == lineItemId
            ==> GetRate(lineItems + [item], lineItemId) == item.rate
  {
    if lineItems == [] {
      assert [] + [item] == [item];
      assert [item][1..] == [];
    } else {
      assert (lineItems + [item])[0] == lineItems[0];
      assert (lineItems + [item])[1..] == lineItems[1..] + [item];
      GetRateAfterAppend(lineItems[1..], item, lineItemId);
      if lineItems[0].id != lineItemId && exists i :: 0 <= i < |lineItems| && lineItems[i].id == lineItemId {
        var i :| 0 <= i < |lineItems| && lineItems[i].id == lineItemId;
        assert lineItems[1..][i - 1].id == lineItemId;
      }
    }
  }

  /** One charged quantity: how many units of the line item `lineItemId` the job takes. */
  datatype RateUse = RateUse(lineItemId: string, quantity: real)

  /** Each use's charge, quantity × resolved rate, in order. */
  function Charges(uses: seq<RateUse>, lineItems: seq<LineItemConfig>): seq<real>
  {
    seq(|uses|, i requires 0 <= i < |uses| => uses[i].quantity * GetRate(lineItems, uses[i].lineItemId))
  }

  lemma ChargesConcat(a: seq<RateUse>, b: seq<RateUse>, lineItems: seq<LineItemConfig>)
    ensures Charges(a + b, lineItems) == Charges(a, lineItems) + Charges(b, lineItems)
  {
    var l, r := Charges(a + b, lineItems), Charges(a, lineItems) + Charges(b, lineItems);
    forall i | 0 <= i < |l| ensures l[i] == r[i] {
      if i < |a| {
        assert (a + b)[i] == a[i];
      } else {
        assert (a + b)[i] == b[i - |a|];
      }
    }
  }

  /** What a list of uses costs: the sum of quantity × rate. */
  function Priced(uses: seq<RateUse>, lineItems: seq<LineItemConfig>): real
  {
    Sum(Charges(uses, lineItems))
  }

  /** Pricing two lists of uses is adding their prices. */
  lemma PricedConcat(a: seq<RateUse>, b: seq<RateUse>, lineItems: seq<LineItemConfig>)
    ensures Priced(a + b, lineItems) == Priced(a, lineItems) + Priced(b, lineItems)
  {
    ChargesConcat(a, b, lineItems);
    SumConcat(Charges(a, lineItems), Charges(b, lineItems));
  }

  /** Uses past the first `m` with zero quantity add nothing. */
  lemma PricedPrefix(uses: seq<RateUse>, lineItems: seq<LineItemConfig>, m: nat)
    requires m <= |uses|
    requires forall i :: m <= i < |uses| ==> uses[i].quantity == 0.0
    ensures Priced(uses, lineItems) == Priced(uses[..m], lineItems)
  {
    assert uses == uses[..m] + uses[m..];
    PricedConcat(uses[..m], uses[m..], lineItems);
    PricedZero(uses[m..], lineItems);
  }

  /** Non-negative quantities at non-negative configured rates cost nothing negative. */
  lemma PricedNonNegative(uses: seq<RateUse>, lineItems: seq<LineItemConfig>)
    requires forall i :: 0 <= i < |uses| ==> uses[i].quantity >= 0.0
    requires forall i :: 0 <= i < |lineItems| ==> lineItems[i].rate >= 0.0
    ensures Priced(uses, lineItems) >= 0.0
  {
    var c := Charges(uses, lineItems);
    forall i | 0 <= i < |c| ensures c[i] >= 0.0 {
      GetRateNonNegative(lineItems, uses[i].lineItemId);
    }
    SumNonNegative(c);
  }

  /** Zero quantities cost nothing, whatever the rates. */
  lemma PricedZero(uses: seq<RateUse>, lineItems: seq<LineItemConfig>)
    requires forall i :: 0 <= i < |uses| ==> uses[i].quantity == 0.0
    ensures Priced(uses, lineItems) == 0.0
  {
    var c := Charges(uses, lineItems);
    assert forall i :: 0 <= i < |c| ==> c[i] == 0.0;
    SumNonNegative(c);
    NonPositiveSum(c);
  }

  lemma {:induction false} NonPositiveSum(s: seq<real>)
    requires forall j :: 0 <= j < |s| ==> s[j] <= 0.0
    ensures Sum(s) <= 0.0
  {
    if s != [] {
      NonPositiveSum(s[..|s| - 1]);
    }
  }
}
