/** The product identifiers of the store and how a purchased identifier is
    classified. The three identifier sets overlap: the random-owl identifier
    is both consumable and non-consumable, and both subscription identifiers
    are also non-consumable. Only the order of the tests decides which
    category applies. */
module Catalog {
  import opened Options
  import opened Text

  const RandomOwlsID: string := "com.dinghing.testpurchase.RandomOwls"
  const ThreeMonthsID: string := "com.dinghing.testpurchase.3monthsOfRandom"
  const SixMonthsID: string := "com.dinghing.testpurchase.6monthsOfRandom"
  const CarefreeOwlID: string := "com.dinghing.testpurchase.CarefreeOwl"
  const CouchOwlID: string := "com.dinghing.testpurchase.CouchOwl"

  const Consumables: set<string> := {RandomOwlsID}
  const NonConsumables: set<string> := {ThreeMonthsID, SixMonthsID, CarefreeOwlID, CouchOwlID, RandomOwlsID}
  const NonRenewing: set<string> := {ThreeMonthsID, SixMonthsID}

  /** Every identifier the store is asked about. */
  const AllProducts: set<string> := Consumables + NonConsumables + NonRenewing

  /** The purchase effect an identifier selects. */
  datatype Category = Consumable | Subscription(months: nat) | NonConsumable | Unrecognized

  lemma ThreeMonthsMarked()
    ensures Contains(ThreeMonthsID, "3months")
  {
    assert OccursAt(ThreeMonthsID, "3months", 26);
  }

  lemma SixMonthsMarked()
    ensures Contains(SixMonthsID, "6months")
  {
    assert OccursAt(SixMonthsID, "6months", 26);
  }

  lemma ThreeMonthsNotSix()
    ensures !Contains(ThreeMonthsID, "6months")
  {
    AbsentFirstCharacter(ThreeMonthsID, "6months");
  }

  lemma SixMonthsNotThree()
    ensures !Contains(SixMonthsID, "3months")
  {
    AbsentFirstCharacter(SixMonthsID, "3months");
  }

  lemma SubscriptionIDsDiffer()
    ensures ThreeMonthsID != SixMonthsID
  {
    assert ThreeMonthsID[26] != SixMonthsID[26];
  }

  lemma OtherIDsNotRenewing(id: string)
    requires id != ThreeMonthsID && id != SixMonthsID
    ensures id !in NonRenewing
  {
  }

  lemma ThreeMonthsClassified(id: string)
    requires id == ThreeMonthsID
    ensures id in NonRenewing && Contains(id, "3months") && !Contains(id, "6months")
  {
    ThreeMonthsMarked();
    ThreeMonthsNotSix();
  }

  lemma SixMonthsClassified(id: string)
    requires id == SixMonthsID
    ensures id in NonRenewing && Contains(id, "6months") && !Contains(id, "3months")
  {
    SixMonthsMarked();
    SixMonthsNotThree();
  }

  /** Which non-renewing identifiers carry which duration marker. */
  lemma DurationMarkers(id: string)
    ensures (id in NonRenewing && Contains(id, "3months")) <==> id == ThreeMonthsID
    ensures (id in NonRenewing && Contains(id, "6months")) <==> id == SixMonthsID
  {
    SubscriptionIDsDiffer();
    if id == ThreeMonthsID {
      ThreeMonthsClassified(id);
    } else if id == SixMonthsID {
      SixMonthsClassified(id);
    } else {
      OtherIDsNotRenewing(id);
    }
  }

  lemma IdentifiersDistinct()
    ensures RandomOwlsID != ThreeMonthsID && RandomOwlsID != SixMonthsID
    ensures RandomOwlsID != CarefreeOwlID && RandomOwlsID != CouchOwlID
    ensures ThreeMonthsID != SixMonthsID
    ensures ThreeMonthsID != CarefreeOwlID && ThreeMonthsID != CouchOwlID
    ensures SixMonthsID != CarefreeOwlID && SixMonthsID != CouchOwlID
    ensures CarefreeOwlID != CouchOwlID
  {
    SubscriptionIDsDiffer();
    assert |RandomOwlsID| == 36 && |ThreeMonthsID| == 41 && |SixMonthsID| == 41;
    assert |CarefreeOwlID| == 37 && |CouchOwlID| == 34;
  }

  /** The identifier sets, listed member by member. */
  lemma SetMembers(id: string)
    ensures id in Consumables <==> id == RandomOwlsID
    ensures id in NonConsumables <==>
      id == RandomOwlsID || id == ThreeMonthsID || id == SixMonthsID || id == CarefreeOwlID || id == CouchOwlID
    ensures id in AllProducts <==> id in NonConsumables
  {
  }

  lemma ConsumableBranch(id: string)
    ensures id in Consumables <==> id == RandomOwlsID
  {
  }

  lemma SubscriptionsNotConsumable()
    ensures ThreeMonthsID !in Consumables && SixMonthsID !in Consumables
  {
    assert |ThreeMonthsID| == 41 && |SixMonthsID| == 41 && |RandomOwlsID| == 36;
  }

  lemma ThreeMonthsBranch(id: string)
    ensures (id !in Consumables && id in NonRenewing && Contains(id, "3months")) <==> id == ThreeMonthsID
  {
    SubscriptionsNotConsumable();
    DurationMarkers(id);
  }

  lemma SixMonthsBranch(id: string)
    ensures (id !in Consumables && !(id in NonRenewing && Contains(id, "3months"))
             && id in NonRenewing && Contains(id, "6months")) <==> id == SixMonthsID
  {
    SubscriptionsNotConsumable();
    SubscriptionIDsDiffer();
    DurationMarkers(id);
  }

  lemma NonConsumableBranch(id: string)
    ensures (id !in Consumables && !(id in NonRenewing && Contains(id, "3months"))
             && !(id in NonRenewing && Contains(id, "6months")) && id in NonConsumables)
            <==> id == CarefreeOwlID || id == CouchOwlID
  {
    IdentifiersDistinct();
    DurationMarkers(id);
    SetMembers(id);
  }

  lemma UnrecognizedBranch(id: string)
    ensures (id !in Consumables && !(id in NonRenewing && Contains(id, "3months"))
             && !(id in NonRenewing && Contains(id, "6months")) && id !in NonConsumables)
            <==> id !in AllProducts
  {
    DurationMarkers(id);
    SetMembers(id);
  }

  /** The category of a purchased identifier, decided in the order of the
      purchase handler: consumable first, then a non-renewing identifier
      marked "3months", then one marked "6months", then non-consumable. */
  function Classify(id: string): (c: Category)
    ensures c == Consumable <==> id == RandomOwlsID
    ensures c == Subscription(3) <==> id == ThreeMonthsID
    ensures c == Subscription(6) <==> id == SixMonthsID
    ensures c.Subscription? ==> c.months == 3 || c.months == 6
    ensures c == NonConsumable <==> id == CarefreeOwlID || id == CouchOwlID
    ensures c == Unrecognized <==> id !in AllProducts
  {
    ConsumableBranch(id);
    ThreeMonthsBranch(id);
    SixMonthsBranch(id);
    NonConsumableBranch(id);
    UnrecognizedBranch(id);
    if id in Consumables then Consumable
    else if id in NonRenewing && Contains(id, "3months") then Subscription(3)
    else if id in NonRenewing && Contains(id, "6months") then Subscription(6)
    else if id in NonConsumables then NonConsumable
    else Unrecognized
  }

  /** The sets overlap, yet each identifier gets one category. */
  lemma OverlapResolvedByOrder()
    ensures RandomOwlsID in Consumables * NonConsumables
    ensures ThreeMonthsID in NonRenewing * NonConsumables
    ensures SixMonthsID in NonRenewing * NonConsumables
    ensures Classify(RandomOwlsID) == Consumable
    ensures Classify(ThreeMonthsID) == Subscription(3)
    ensures Classify(SixMonthsID) == Subscription(6)
  {
  }

  /** The image resource name of a product: the text after the last "." of
      its identifier. Never absent, since splitting always yields a piece. */
  function ResourceName(id: string): (r: Option<string>)
    ensures r.Some?
    ensures IsTailAfterLast(id, '.', r.value)
  {
    LastComponentIsTail(id, '.');
    Some(LastComponent(id, '.'))
  }

  lemma ResourceNameOfCouchOwl()
    ensures ResourceName(CouchOwlID) == Some("CouchOwl")
  {
    assert IsTailAfterLast(CouchOwlID, '.', "CouchOwl");
    TailAfterLastUnique(CouchOwlID, '.', "CouchOwl", ResourceName(CouchOwlID).value);
  }
}
