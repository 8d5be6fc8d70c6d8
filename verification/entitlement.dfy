/** The local entitlement store and the decisions made over it: merging the
    local and remote subscription expiration, mirroring the paid-up state of
    the random-owl product, and deriving paid-up from credits and days left. */
module Entitlement {
  import opened Options
  import opened Dates
  import opened Catalog

  /** The entitlement state of the app.
      - purchased: identifiers the store considers bought
      - credits: remaining random-owl credits (consumable balance)
      - expiration: end of the non-renewing subscription, if any
      - flags: the per-identifier "bought" booleans kept in user defaults
      - notifications: how many purchase notifications have been posted */
  datatype State = State(
    purchased: set<string>,
    credits: nat,
    expiration: Option<int>,
    flags: map<string, bool>,
    notifications: nat)

  /** The later of a local and a remote expiration. Remote wins only when it
      is present and strictly later than a present local date. */
  function Merge(local: Option<int>, remote: Option<int>): (latest: Option<int>)
    ensures remote.None? ==> latest == local
    ensures local.None? && remote.Some? ==> latest == remote
    ensures local.Some? && remote.Some? && remote.value > local.value ==> latest == remote
    ensures local.Some? && remote.Some? && remote.value <= local.value ==> latest == local
    ensures local.Some? && remote.Some? ==> latest.Some? && latest.value >= local.value && latest.value >= remote.value
  {
    if remote.None? then local
    else if local.None? then remote
    else if remote.value > local.value then remote
    else local
  }

  /** `latest` is the latest of the dates present among `a` and `b`: absent
      only when both are, otherwise one of them and no earlier than either. */
  ghost predicate IsLatestOf(latest: Option<int>, a: Option<int>, b: Option<int>)
  {
    && (latest.None? <==> a.None? && b.None?)
    && (latest.Some? ==> latest == a || latest == b)
    && (latest.Some? && a.Some? ==> latest.value >= a.value)
    && (latest.Some? && b.Some? ==> latest.value >= b.value)
  }

  lemma MergeIsLatest(local: Option<int>, remote: Option<int>)
    ensures IsLatestOf(Merge(local, remote), local, remote)
  {
  }

  /** Only one value is the latest of two optional dates. */
  lemma LatestIsUnique(x: Option<int>, y: Option<int>, a: Option<int>, b: Option<int>)
    requires IsLatestOf(x, a, b) && IsLatestOf(y, a, b)
    ensures x == y
  {
  }

  /** Dates are totally ordered, so the tie-break never shows: the merge
      does not depend on which side is local. */
  lemma MergeCommutes(a: Option<int>, b: Option<int>)
    ensures Merge(a, b) == Merge(b, a)
  {
    MergeIsLatest(a, b);
    MergeIsLatest(b, a);
    LatestIsUnique(Merge(a, b), Merge(b, a), a, b);
  }

  /** Merging the same remote date again changes nothing. */
  lemma MergeIdempotent(local: Option<int>, remote: Option<int>)
    ensures Merge(Merge(local, remote), remote) == Merge(local, remote)
  {
  }

  /** Records in the store whether the random-owl product is owned: its
      flag becomes `paidUp`, and it is in `purchased` exactly when `paidUp`
      holds. Nothing else changes. */
  function SetRandomProduct(s: State, paidUp: bool): (r: State)
    ensures (RandomOwlsID in r.purchased) <==> paidUp
    ensures r.purchased - {RandomOwlsID} == s.purchased - {RandomOwlsID}
    ensures RandomOwlsID in r.flags && r.flags[RandomOwlsID] == paidUp
    ensures forall k :: k in s.flags && k != RandomOwlsID ==> k in r.flags && r.flags[k] == s.flags[k]
    ensures r.flags.Keys == s.flags.Keys + {RandomOwlsID}
    ensures r.credits == s.credits && r.expiration == s.expiration && r.notifications == s.notifications
  {
    var flags := s.flags[RandomOwlsID := paidUp];
    if paidUp then
      s.(flags := flags, purchased := s.purchased + {RandomOwlsID})
    else
      s.(flags := flags, purchased := s.purchased - {RandomOwlsID})
  }

  lemma SetRandomProductIdempotent(s: State, paidUp: bool)
    ensures SetRandomProduct(SetRandomProduct(s, paidUp), paidUp) == SetRandomProduct(s, paidUp)
  {
  }

  /** The last call decides: an earlier call leaves no trace. */
  lemma SetRandomProductLastWins(s: State, first: bool, second: bool)
    ensures SetRandomProduct(SetRandomProduct(s, first), second) == SetRandomProduct(s, second)
  {
  }

  /** Signing out forgets the purchased identifiers, and only them: credits,
      expiration and the stored flags stay. */
  function ClearProducts(s: State): (r: State)
    ensures r.purchased == {}
    ensures r.credits == s.credits && r.expiration == s.expiration
    ensures r.flags == s.flags && r.notifications == s.notifications
  {
    s.(purchased := {})
  }

  /** Whole days left on the subscription at `now`; zero without one. */
  function DaysRemaining(s: State, now: int): (d: int)
    ensures s.expiration.None? ==> d == 0
    ensures s.expiration.Some? ==> d == DaysBetween(now, s.expiration.value)
    ensures d > 0 <==> s.expiration.Some? && s.expiration.value - now >= SecondsPerDay
  {
    match s.expiration
    case Some(expiry) => DaysBetween(now, expiry)
    case None => 0
  }

  /** The paid-up check returns its verdict and the state it leaves, in
      which the random-owl product mirrors the verdict. */
  datatype Checked = Checked(state: State, paidUp: bool)

  /** Paid up when at least one whole day of subscription remains or some
      credits are left; the verdict is mirrored into the store. */
  function PaidUp(s: State, now: int): (r: Checked)
    ensures r.paidUp <==> DaysRemaining(s, now) > 0 || s.credits > 0
    ensures (RandomOwlsID in r.state.purchased) <==> r.paidUp
    ensures r.state.purchased - {RandomOwlsID} == s.purchased - {RandomOwlsID}
    ensures RandomOwlsID in r.state.flags && r.state.flags[RandomOwlsID] == r.paidUp
    ensures forall k :: k in s.flags && k != RandomOwlsID ==> k in r.state.flags && r.state.flags[k] == s.flags[k]
    ensures r.state.credits == s.credits && r.state.expiration == s.expiration
    ensures r.state.flags.Keys == s.flags.Keys + {RandomOwlsID}
    ensures r.state.notifications == s.notifications
  {
    var paidUp :=
      if DaysRemaining(s, now) > 0 then true
      else if s.credits > 0 then true
      else false;
    Checked(SetRandomProduct(s, paidUp), paidUp)
  }

  /** Credits left or an expiration still in the future. */
  predicate Entitled(s: State, now: int)
  {
    s.credits > 0 || (s.expiration.Some? && s.expiration.value > now)
  }

  /** The paid-up check is stricter than `Entitled`: a subscription counts only while
      a whole day of it is left. Anything it accepts is entitled, and an
      entitled state it rejects has no credits and less than a day left. */
  lemma PaidUpWithinEntitled(s: State, now: int)
    ensures PaidUp(s, now).paidUp ==> Entitled(s, now)
    ensures Entitled(s, now) && !PaidUp(s, now).paidUp ==>
      s.credits == 0 && s.expiration.Some? && now < s.expiration.value < now + SecondsPerDay
  {
  }

  /** Checking twice gives the same verdict and the same state. */
  lemma PaidUpIdempotent(s: State, now: int)
    ensures PaidUp(PaidUp(s, now).state, now) == PaidUp(s, now)
  {
    var r := PaidUp(s, now);
    SetRandomProductIdempotent(s, r.paidUp);
  }

  /** What the remote expiration lookup produced: no signed-in user (the
      lookup is never started), a failed lookup (no record), or the user's
      record with its expiration, if it has one. */
  datatype Fetch = NoUser | FetchFailed | Fetched(remote: Option<int>)

  /** The remote expiration a lookup yields. */
  function RemoteExpiration(fetch: Fetch): Option<int>
  {
    if fetch.Fetched? then fetch.remote else None
  }

  /** How a sync ends: abandoned without calling its completion (no user),
      or completed with the new state; `record` tells whether the
      completion receives the remote record. */
  datatype Synced = Abandoned | Completed(state: State, record: bool)

  /** Brings the local expiration in line with the remote one: the merged
      date, if any, is stored, and the random-owl product is marked owned
      when that date lies strictly after `now`. */
  function Sync(s: State, local: Option<int>, fetch: Fetch, now: int): (r: Synced)
    ensures r.Abandoned? <==> fetch.NoUser?
    ensures r.Completed? ==> r.record == fetch.Fetched?
    ensures r.Completed? ==>
      var latest := Merge(local, RemoteExpiration(fetch));
      && (latest.Some? ==> r.state.expiration == latest)
      && (latest.None? ==> r.state.expiration == s.expiration)
      && (latest.Some? && latest.value > now ==>
            RandomOwlsID in r.state.purchased && RandomOwlsID in r.state.flags && r.state.flags[RandomOwlsID])
      && (latest.None? || latest.value <= now ==>
            r.state.purchased == s.purchased && r.state.flags == s.flags)
      && r.state.purchased - {RandomOwlsID} == s.purchased - {RandomOwlsID}
      && (forall k :: k in s.flags && k != RandomOwlsID ==> k in r.state.flags && r.state.flags[k] == s.flags[k])
      && r.state.flags.Keys <= s.flags.Keys + {RandomOwlsID}
      && r.state.credits == s.credits
      && r.state.notifications == s.notifications
  {
    if fetch.NoUser? then Abandoned
    else
      var latest := Merge(local, RemoteExpiration(fetch));
      var s' :=
        match latest
        case None => s
        case Some(date) =>
          var stored := s.(expiration := Some(date));
          if date > now then SetRandomProduct(stored, true) else stored;
      Completed(s', fetch.Fetched?)
  }

  /** The state a sync leaves behind: unchanged when it was abandoned.
      Whatever the lookup yields, credits and notifications stay, nothing
      leaves the purchased set, and no flag other than random owls' appears. */
  function AfterSync(s: State, local: Option<int>, fetch: Fetch, now: int): (r: State)
    ensures r.credits == s.credits && r.notifications == s.notifications
    ensures s.purchased <= r.purchased
    ensures r.flags.Keys <= s.flags.Keys + {RandomOwlsID}
  {
    match Sync(s, local, fetch, now)
    case Abandoned => s
    case Completed(s', _) => s'
  }

  /** A sync never revokes: a random-owl flag that was true stays true, and
      an owned random-owl product stays owned. */
  lemma SyncNeverRevokes(s: State, local: Option<int>, fetch: Fetch, now: int)
    ensures var r := AfterSync(s, local, fetch, now);
      && (RandomOwlsID in s.purchased ==> RandomOwlsID in r.purchased)
      && (RandomOwlsID in s.flags && s.flags[RandomOwlsID] ==> RandomOwlsID in r.flags && r.flags[RandomOwlsID])
      && s.purchased <= r.purchased
  {
  }

  /** Syncing the stored expiration twice against an unchanged remote record
      leaves the same expiration as syncing once. */
  lemma SyncIdempotent(s: State, fetch: Fetch, now: int)
    ensures var once := AfterSync(s, s.expiration, fetch, now);
      AfterSync(once, once.expiration, fetch, now).expiration == once.expiration
  {
    var remote := RemoteExpiration(fetch);
    MergeIdempotent(s.expiration, remote);
  }

  /** A sync of the stored expiration stores the latest of the local and
      remote dates, and never moves the expiration earlier. */
  lemma SyncStoresLatest(s: State, fetch: Fetch, now: int)
    requires fetch.Fetched?
    ensures var r := AfterSync(s, s.expiration, fetch, now);
      IsLatestOf(r.expiration, s.expiration, fetch.remote)
  {
    MergeIsLatest(s.expiration, fetch.remote);
  }
}
