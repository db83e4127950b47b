/** Decisions taken on item lists: hardware classification and payload comparison. */
module Items {
  import opened Contracts

  /** An item counts as hardware by a true override or, without override, by its SKU. */
  predicate IsHardwareItem(item: Item, hardwareSkus: set<string>) {
    match item.isHardware
    case Some(override) => override
    case None => item.sku in hardwareSkus
  }

  predicate HasHardware(items: seq<Item>, hardwareSkus: set<string>) {
    exists i :: 0 <= i < |items| && IsHardwareItem(items[i], hardwareSkus)
  }

  /** The rows of an order come back in any order; the classification does not depend on it. */
  lemma HardwareIgnoresRowOrder(a: seq<Item>, b: seq<Item>, hardwareSkus: set<string>)
    requires multiset(a) == multiset(b)
    ensures HasHardware(a, hardwareSkus) == HasHardware(b, hardwareSkus)
  {
    HardwareCarriesOver(a, b, hardwareSkus);
    HardwareCarriesOver(b, a, hardwareSkus);
  }

  lemma HardwareCarriesOver(a: seq<Item>, b: seq<Item>, hardwareSkus: set<string>)
    requires multiset(a) == multiset(b)
    ensures HasHardware(a, hardwareSkus) ==> HasHardware(b, hardwareSkus)
  {
    if HasHardware(a, hardwareSkus) {
      var i :| 0 <= i < |a| && IsHardwareItem(a[i], hardwareSkus);
      assert a[i] in multiset(a);
      assert a[i] in multiset(b);
      assert a[i] in b;
      var k :| 0 <= k < |b| && b[k] == a[i];
      assert IsHardwareItem(b[k], hardwareSkus);
    }
  }

  /** The SKUs of the items without an override, in the order of the items. */
  function OpenSkus(items: seq<Item>): seq<string> {
    if items == [] then []
    else
      var n := |items| - 1;
      OpenSkus(items[..n]) + (if items[n].isHardware.None? then [items[n].sku] else [])
  }

  /** The SKUs that are looked up in the catalogue: those of the items without an override. */
  method CatalogueSkus(items: seq<Item>) returns (skus: seq<string>)
    ensures skus == OpenSkus(items)
    ensures forall s :: s in skus <==> exists i :: 0 <= i < |items| && items[i].isHardware.None? && items[i].sku == s
  {
    skus := [];
    for k := 0 to |items|
      invariant skus == OpenSkus(items[..k])
      invariant forall s :: s in skus <==> exists i :: 0 <= i < k && items[i].isHardware.None? && items[i].sku == s
    {
      if items[k].isHardware.None? {
        skus := skus + [items[k].sku];
      }
      assert items[..k + 1][..k] == items[..k];
    }
    assert items[..|items|] == items;
  }

  /** The catalogue query; an empty list is never hardware. */
  predicate ClassifiedHardware(skus: seq<string>, hardwareSkus: set<string>) {
    exists s :: s in skus && s in hardwareSkus
  }

  /** The scheduler's decision: catalogue first, then the first true override ends the scan. */
  method SchedulerSeesHardware(items: seq<Item>, hardwareSkus: set<string>) returns (hardware: bool)
    ensures hardware == HasHardware(items, hardwareSkus)
  {
    hardware := false;
    var skus := CatalogueSkus(items);
    if |skus| > 0 {
      hardware := ClassifiedHardware(skus, hardwareSkus);
    }
    ghost var classified := hardware;
    assert classified <==> exists i :: 0 <= i < |items| && items[i].isHardware.None? && items[i].sku in hardwareSkus by {
      ClassificationMeaning(items, skus, hardwareSkus);
    }
    for k := 0 to |items|
      invariant hardware <==> classified
      invariant forall i :: 0 <= i < k ==> items[i].isHardware != Some(true)
    {
      if items[k].isHardware.Some? && items[k].isHardware.value {
        hardware := true;
        assert IsHardwareItem(items[k], hardwareSkus);
        return;
      }
    }
    if HasHardware(items, hardwareSkus) {
      var i :| 0 <= i < |items| && IsHardwareItem(items[i], hardwareSkus);
      assert items[i].isHardware.None? && items[i].sku in hardwareSkus;
    }
    if classified {
      var i :| 0 <= i < |items| && items[i].isHardware.None? && items[i].sku in hardwareSkus;
      assert IsHardwareItem(items[i], hardwareSkus);
    }
  }

  lemma ClassificationMeaning(items: seq<Item>, skus: seq<string>, hardwareSkus: set<string>)
    requires forall s :: s in skus <==> exists i :: 0 <= i < |items| && items[i].isHardware.None? && items[i].sku == s
    ensures ClassifiedHardware(skus, hardwareSkus)
       <==> exists i :: 0 <= i < |items| && items[i].isHardware.None? && items[i].sku in hardwareSkus
  {
  }

  /** The canceller's decision: the same catalogue query, then every override is inspected. */
  method CancellerSeesHardware(items: seq<Item>, hardwareSkus: set<string>) returns (hardware: bool)
    ensures hardware == HasHardware(items, hardwareSkus)
  {
    var skus := CatalogueSkus(items);
    hardware := ClassifiedHardware(skus, hardwareSkus);
    ghost var classified := hardware;
    ClassificationMeaning(items, skus, hardwareSkus);
    for k := 0 to |items|
      invariant hardware <==> classified || exists i :: 0 <= i < k && items[i].isHardware == Some(true)
    {
      if items[k].isHardware.Some? && items[k].isHardware.value {
        hardware := true;
      }
    }
    if HasHardware(items, hardwareSkus) {
      var i :| 0 <= i < |items| && IsHardwareItem(items[i], hardwareSkus);
      assert items[i].isHardware == Some(true) || (items[i].isHardware.None? && items[i].sku in hardwareSkus);
    }
    if i :| 0 <= i < |items| && (items[i].isHardware == Some(true) || (items[i].isHardware.None? && items[i].sku in hardwareSkus)) {
      assert IsHardwareItem(items[i], hardwareSkus);
    }
  }

  /** Two item lists carry the same order: same email and same items, counted, in any order. */
  predicate SamePayload(email: string, items: seq<Item>, email': string, items': seq<Item>) {
    email == email' && multiset(items) == multiset(items')
  }

  predicate SameHardwareOverride(left: Option<bool>, right: Option<bool>) {
    (left.None? && right.None?) || (left.Some? && right.Some? && left.value == right.value)
  }

  /** The incoming items that no stored item has claimed yet. */
  ghost function Unmatched(items: seq<Item>, matched: seq<bool>): multiset<Item>
    requires |matched| == |items|
  {
    if |items| == 0 then multiset{}
    else
      var n := |items| - 1;
      Unmatched(items[..n], matched[..n]) + (if matched[n] then multiset{} else multiset{items[n]})
  }

  lemma {:induction false} NothingMatched(items: seq<Item>, matched: seq<bool>)
    requires |matched| == |items|
    requires forall i :: 0 <= i < |matched| ==> !matched[i]
    ensures Unmatched(items, matched) == multiset(items)
  {
    if |items| > 0 {
      var n := |items| - 1;
      NothingMatched(items[..n], matched[..n]);
      assert items == items[..n] + [items[n]];
    }
  }

  lemma {:induction false} MatchOne(items: seq<Item>, matched: seq<bool>, i: nat)
    requires i < |matched| == |items| && !matched[i]
    ensures Unmatched(items, matched[i := true]) + multiset{items[i]} == Unmatched(items, matched)
  {
    var n := |items| - 1;
    if i == n {
      assert matched[i := true][..n] == matched[..n];
    } else {
      MatchOne(items[..n], matched[..n], i);
      assert matched[i := true][..n] == matched[..n][i := true];
    }
  }

  lemma {:induction false} NoneLeft(items: seq<Item>, matched: seq<bool>, x: Item)
    requires |matched| == |items|
    requires forall i :: 0 <= i < |items| ==> matched[i] || items[i] != x
    ensures x !in Unmatched(items, matched)
  {
    if |items| > 0 {
      var n := |items| - 1;
      NoneLeft(items[..n], matched[..n], x);
    }
  }

  /** After `k` stored items, those items and the unclaimed ones make up the incoming list. */
  ghost predicate Accounted(stored: seq<Item>, k: nat, incoming: seq<Item>, matched: seq<bool>)
    requires k <= |stored| && |matched| == |incoming|
  {
    multiset(stored[..k]) + Unmatched(incoming, matched) == multiset(incoming)
  }

  lemma ClaimAccounted(stored: seq<Item>, k: nat, incoming: seq<Item>, matched: seq<bool>, at: nat)
    requires k < |stored| && at < |matched| == |incoming|
    requires Accounted(stored, k, incoming, matched)
    requires !matched[at] && incoming[at] == stored[k]
    ensures Accounted(stored, k + 1, incoming, matched[at := true])
  {
    MatchOne(incoming, matched, at);
    assert stored[..k + 1] == stored[..k] + [stored[k]];
  }

  lemma MissRefutes(stored: seq<Item>, k: nat, incoming: seq<Item>, matched: seq<bool>)
    requires k < |stored| && |matched| == |incoming|
    requires Accounted(stored, k, incoming, matched)
    requires forall j :: 0 <= j < |incoming| ==> matched[j] || incoming[j] != stored[k]
    ensures multiset(stored) != multiset(incoming)
  {
    var x := stored[k];
    NoneLeft(incoming, matched, x);
    assert multiset(incoming)[x] == multiset(stored[..k])[x];
    assert stored == stored[..k] + [x] + stored[k + 1..];
    assert multiset(stored)[x] >= multiset(stored[..k])[x] + 1;
  }

  lemma AllClaimed(stored: seq<Item>, incoming: seq<Item>, matched: seq<bool>)
    requires |stored| == |incoming| == |matched|
    requires Accounted(stored, |stored|, incoming, matched)
    ensures multiset(stored) == multiset(incoming)
  {
    assert stored[..|stored|] == stored;
    assert |multiset(stored)| + |Unmatched(incoming, matched)| == |multiset(incoming)|;
  }

  lemma LengthsDiffer(stored: seq<Item>, incoming: seq<Item>)
    requires |stored| != |incoming|
    ensures multiset(stored) != multiset(incoming)
  {
    assert |multiset(stored)| == |stored| && |multiset(incoming)| == |incoming|;
  }

  /** The inner loop: claim the first unclaimed incoming item equal to `item`. */
  method ClaimFirst(item: Item, incoming: seq<Item>, matched: array<bool>) returns (found: bool, ghost at: nat)
    requires matched.Length == |incoming|
    modifies matched
    ensures found ==> at < |incoming| && !old(matched[at]) && incoming[at] == item && matched[..] == old(matched[..])[at := true]
    ensures !found ==> matched[..] == old(matched[..]) && forall j :: 0 <= j < |incoming| ==> matched[j] || incoming[j] != item
  {
    for i := 0 to |incoming|
      invariant matched[..] == old(matched[..])
      invariant forall j :: 0 <= j < i ==> matched[j] || incoming[j] != item
    {
      if !matched[i] && item.sku == incoming[i].sku && item.quantity == incoming[i].quantity
         && item.price == incoming[i].price && SameHardwareOverride(item.isHardware, incoming[i].isHardware)
      {
        matched[i] := true;
        return true, i;
      }
    }
    return false, 0;
  }

  /**
   The nested loops that claim, for each stored item, the first equal incoming
   item not claimed before. Greedy claiming decides multiset equality.
   */
  method SameOrderPayload(email: string, stored: seq<Item>, email': string, incoming: seq<Item>) returns (same: bool)
    ensures same == SamePayload(email, stored, email', incoming)
  {
    if email != email' || |stored| != |incoming| {
      if |stored| != |incoming| {
        LengthsDiffer(stored, incoming);
      }
      return false;
    }
    var matched := new bool[|incoming|](_ => false);
    NothingMatched(incoming, matched[..]);
    for k := 0 to |stored|
      invariant Accounted(stored, k, incoming, matched[..])
    {
      ghost var before := matched[..];
      var found, at := ClaimFirst(stored[k], incoming, matched);
      if !found {
        MissRefutes(stored, k, incoming, before);
        return false;
      }
      ClaimAccounted(stored, k, incoming, before, at);
    }
    AllClaimed(stored, incoming, matched[..]);
    return true;
  }
}
