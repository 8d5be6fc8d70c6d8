/** Concrete scenarios of the entitlement logic, with dates in seconds since
    1970-01-01 UTC. */
module Scenarios {
  import opened Options
  import opened Dates
  import opened Catalog
  import opened Entitlement
  import opened Purchase

  const June1st2024: int := 1717200000
  const May1st2024: int := 1714521600

  /** A month addition that advances by thirty days per month; enough for
      the scenarios below, not a calendar. */
  function ThirtyDayMonths(d: int, n: nat): int
  {
    d + n * 30 * SecondsPerDay
  }

  const Fresh: State := State({}, 0, None, map[], 0)

  /** Without credits or subscription, buying random owls grants five
      credits, makes the user paid up, and posts exactly one notification. */
  lemma BuyRandomOwlsFromNothing(now: int)
    ensures var o := HandlePurchase(Fresh, RandomOwlsID, NoUser, now, ThirtyDayMonths);
      && o.state.credits == 5
      && o.state.notifications == 1
      && PaidUp(o.state, now).paidUp
  {
  }

  /** A local June 1st beats a remote May 1st. */
  lemma LaterLocalDateKept()
    ensures Merge(Some(June1st2024), Some(May1st2024)) == Some(June1st2024)
  {
  }

  /** Signing out forgets purchases but keeps credits and the expiration. */
  lemma SignOutKeepsBalances(now: int)
    ensures var bought := HandlePurchase(Fresh, RandomOwlsID, NoUser, now, ThirtyDayMonths).state;
      && bought.purchased != {}
      && ClearProducts(bought).purchased == {}
      && ClearProducts(bought).credits == 5
  {
  }

  /** Buying a subscription with nobody signed in has no effect at all: the
      sync gives up before its completion, so the extension never runs. */
  lemma SubscriptionWithoutUserIgnored(s: State, now: int)
    ensures HandlePurchase(s, ThreeMonthsID, NoUser, now, ThirtyDayMonths) == Outcome(s, None)
  {
  }

  /** Extending a long-lapsed subscription can leave it lapsed: the months
      are added to the old date, yet the random-owl product is marked owned
      until the next paid-up check takes it away. */
  lemma LapsedExtensionStillLapsed(now: int)
    ensures var s := Fresh.(expiration := Some(now - 200 * SecondsPerDay));
      var o := HandlePurchase(s, ThreeMonthsID, Fetched(None), now, ThirtyDayMonths);
      && o.state.expiration == Some(now - 110 * SecondsPerDay)
      && RandomOwlsID in o.state.purchased
      && !PaidUp(o.state, now).paidUp
      && RandomOwlsID !in PaidUp(o.state, now).state.purchased
  {
  }

  /** The sync and the paid-up check disagree on the last day: a date an hour
      ahead makes the sync mark the product owned, and the paid-up check,
      counting whole days, takes it away again. */
  lemma LastDayDisagreement(now: int)
    ensures var stored := Fresh.(expiration := Some(now + 3600));
      var s := AfterSync(stored, stored.expiration, FetchFailed, now);
      && RandomOwlsID in s.purchased
      && Entitled(s, now)
      && !PaidUp(s, now).paidUp
  {
  }
}
