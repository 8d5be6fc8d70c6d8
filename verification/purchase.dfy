/** The effect of a completed purchase on the entitlement state. */
module Purchase {
  import opened Options
  import opened Dates
  import opened Catalog
  import opened Entitlement

  /** Credits granted by one random-owl purchase. */
  const CreditsPerPurchase: nat := 5

  /** A purchase's result: the new state and the expiration written back to
      the remote record, if one was written. */
  datatype Outcome = Outcome(state: State, saved: Option<int>)

  /** Posts the purchase notification: only the count changes. */
  function Notify(s: State): (r: State)
    ensures r.notifications == s.notifications + 1
    ensures r.purchased == s.purchased && r.credits == s.credits
    ensures r.expiration == s.expiration && r.flags == s.flags
  {
    s.(notifications := s.notifications + 1)
  }

  /** Extends the stored expiration by `months` calendar months, counting
      from now when there is none. */
  function ExtendExpiration(s: State, months: nat, now: int, addMonths: (int, nat) -> int): (r: State)
    ensures r.expiration.Some?
    ensures s.expiration.Some? ==> r.expiration.value == addMonths(s.expiration.value, months)
    ensures s.expiration.None? ==> r.expiration.value == addMonths(now, months)
    ensures r.purchased == s.purchased && r.flags == s.flags
    ensures r.credits == s.credits && r.notifications == s.notifications
  {
    s.(expiration := Some(addMonths(s.expiration.ValueOr(now), months)))
  }

  /** Buying a non-renewing subscription of `months` months: sync the stored
      expiration with the remote record, extend the merged date, mark the
      random-owl product owned, write the new date back to the record when
      there is one, and notify. Without a signed-in user nothing happens. */
  function HandleMonthlySubscription(s: State, months: nat, fetch: Fetch, now: int, addMonths: (int, nat) -> int): (o: Outcome)
    ensures fetch.NoUser? ==> o == Outcome(s, None)
    ensures !fetch.NoUser? ==>
      var merged := Merge(s.expiration, RemoteExpiration(fetch));
      && o.state.expiration == Some(addMonths(merged.ValueOr(now), months))
      && RandomOwlsID in o.state.purchased
      && RandomOwlsID in o.state.flags && o.state.flags[RandomOwlsID]
      && o.state.purchased - {RandomOwlsID} == s.purchased - {RandomOwlsID}
      && (forall k :: k in s.flags && k != RandomOwlsID ==> k in o.state.flags && o.state.flags[k] == s.flags[k])
      && o.state.flags.Keys == s.flags.Keys + {RandomOwlsID}
      && o.state.credits == s.credits
      && o.state.notifications == s.notifications + 1
      && (fetch.Fetched? ==> o.saved == o.state.expiration)
      && (fetch.FetchFailed? ==> o.saved.None?)
  {
    match Sync(s, s.expiration, fetch, now)
    case Abandoned => Outcome(s, None)
    case Completed(synced, record) =>
      var extended := SetRandomProduct(ExtendExpiration(synced, months, now, addMonths), true);
      var saved := if record then extended.expiration else None;
      Outcome(Notify(extended), saved)
  }

  /** Applies a completed purchase of `id`. The category tests run in a fixed
      order, so an identifier listed in several sets takes the first
      matching effect; an unknown identifier changes nothing. */
  function HandlePurchase(s: State, id: string, fetch: Fetch, now: int, addMonths: (int, nat) -> int): (o: Outcome)
    ensures id == RandomOwlsID ==>
      && o.state.credits == s.credits + CreditsPerPurchase
      && RandomOwlsID in o.state.purchased
      && o.state.purchased - {RandomOwlsID} == s.purchased - {RandomOwlsID}
      && o.state.flags == s.flags[RandomOwlsID := true]
      && o.state.expiration == s.expiration
      && o.state.notifications == s.notifications + 1
      && o.saved.None?
    ensures id == CarefreeOwlID || id == CouchOwlID ==>
      && o.state.purchased == s.purchased + {id}
      && o.state.flags == s.flags[id := true]
      && o.state.credits == s.credits && o.state.expiration == s.expiration
      && o.state.notifications == s.notifications + 1
      && o.saved.None?
    ensures id == ThreeMonthsID ==> o == HandleMonthlySubscription(s, 3, fetch, now, addMonths)
    ensures id == SixMonthsID ==> o == HandleMonthlySubscription(s, 6, fetch, now, addMonths)
    ensures id !in AllProducts ==> o == Outcome(s, None)
  {
    match Classify(id)
    case Consumable =>
      var credited := s.(credits := s.credits + CreditsPerPurchase);
      Outcome(Notify(SetRandomProduct(credited, true)), None)
    case Subscription(months) =>
      HandleMonthlySubscription(s, months, fetch, now, addMonths)
    case NonConsumable =>
      var owned := s.(flags := s.flags[id := true], purchased := s.purchased + {id});
      Outcome(Notify(owned), None)
    case Unrecognized =>
      Outcome(s, None)
  }

  /** The random-owl identifier is also listed as non-consumable, but the
      consumable branch wins: credits grow, and the product's own flag is the
      random-owl flag set to true. */
  lemma ConsumableWinsOverlap(s: State, fetch: Fetch, now: int, addMonths: (int, nat) -> int)
    ensures RandomOwlsID in NonConsumables
    ensures var o := HandlePurchase(s, RandomOwlsID, fetch, now, addMonths);
      o.state.credits == s.credits + 5 && o.state.flags == s.flags[RandomOwlsID := true]
  {
  }

  /** A non-renewing identifier is classified as a subscription, and its
      purchase is the monthly extension by the classified duration. */
  lemma SubscriptionDispatch(s: State, id: string, fetch: Fetch, now: int, addMonths: (int, nat) -> int)
    requires id in NonRenewing
    ensures Classify(id).Subscription?
    ensures HandlePurchase(s, id, fetch, now, addMonths)
      == HandleMonthlySubscription(s, Classify(id).months, fetch, now, addMonths)
  {
  }

  /** A subscription purchase leaves every identifier other than random
      owls as it was, in the purchased set and among the flags. */
  lemma MonthlyKeepsOtherIdentifiers(s: State, id: string, months: nat, fetch: Fetch, now: int, addMonths: (int, nat) -> int)
    requires id != RandomOwlsID
    ensures var o := HandleMonthlySubscription(s, months, fetch, now, addMonths);
      && (id in o.state.purchased <==> id in s.purchased)
      && (id in o.state.flags <==> id in s.flags)
      && (id in s.flags ==> o.state.flags[id] == s.flags[id])
      && o.state.credits == s.credits
  {
    var o := HandleMonthlySubscription(s, months, fetch, now, addMonths);
    if !fetch.NoUser? {
      assert id in o.state.purchased - {RandomOwlsID} <==> id in s.purchased - {RandomOwlsID};
    }
  }

  /** Buying either subscription never records the subscription identifier
      as purchased, although both are listed as non-consumable, and leaves
      credits alone. */
  lemma SubscriptionNotRecordedAsPurchase(s: State, id: string, fetch: Fetch, now: int, addMonths: (int, nat) -> int)
    requires id in NonRenewing
    ensures id in NonConsumables
    ensures var o := HandlePurchase(s, id, fetch, now, addMonths);
      && (id in o.state.purchased <==> id in s.purchased)
      && (id in o.state.flags <==> id in s.flags)
      && (id in s.flags ==> o.state.flags[id] == s.flags[id])
      && o.state.credits == s.credits
  {
    assert |id| != |RandomOwlsID|;
    SubscriptionDispatch(s, id, fetch, now, addMonths);
    MonthlyKeepsOtherIdentifiers(s, id, Classify(id).months, fetch, now, addMonths);
  }

  /** The extension counts from the merged expiration, not from now: with
      a month addition that advances, the new expiration is later than both
      the local and the remote date. */
  lemma ExtensionCountsFromMerge(s: State, id: string, fetch: Fetch, now: int, addMonths: (int, nat) -> int)
    requires Advances(addMonths)
    requires id in NonRenewing && fetch.Fetched?
    ensures var o := HandlePurchase(s, id, fetch, now, addMonths);
      && o.state.expiration.Some?
      && (s.expiration.Some? ==> o.state.expiration.value > s.expiration.value)
      && (fetch.remote.Some? ==> o.state.expiration.value > fetch.remote.value)
      && (s.expiration.None? && fetch.remote.None? ==> o.state.expiration.value > now)
      && o.saved == o.state.expiration
  {
    SubscriptionDispatch(s, id, fetch, now, addMonths);
    var months := Classify(id).months;
    var merged := Merge(s.expiration, fetch.remote);
    MergeIsLatest(s.expiration, fetch.remote);
    assert addMonths(merged.ValueOr(now), months) > merged.ValueOr(now);
  }

  /** The purchase never lowers the credit balance, and only the consumable
      raises it. */
  lemma CreditsOnlyFromConsumable(s: State, id: string, fetch: Fetch, now: int, addMonths: (int, nat) -> int)
    ensures var o := HandlePurchase(s, id, fetch, now, addMonths);
      o.state.credits == if id in Consumables then s.credits + 5 else s.credits
  {
    match Classify(id)
    case Consumable =>
    case Subscription(months) =>
    case NonConsumable =>
    case Unrecognized =>
  }
}
