/**
 * The watchlist store of `Shared/Models/DataManager.swift`.
 *
 * `DataManager.tvShows` is a property whose `didSet` observer runs a fixed
 * pipeline on every assignment: if the new list equals the old one it does
 * nothing; otherwise it sorts the list with the comparator below and
 * recomputes `tvShowIDs`. The class here keeps both fields and routes every
 * mutation through `SetTVShows`, which is that pipeline.
 */
module Store {
  import opened Optional
  import opened Shows
  import TMDb

  // ---------------------------------------------------------------------
  // The sort comparator
  // ---------------------------------------------------------------------

  /** `first.detail?.inProduction ?? true`: a show without detail counts as in production. */
  predicate InProduction(s: TVShow)
    ensures s.detail.None? ==> InProduction(s)
    ensures s.detail.Some? ==> (InProduction(s) <==> s.detail.value.inProduction)
  {
    match s.detail
    case None => true
    case Some(d) => d.inProduction
  }

  /** Only a fetched detail that says the show is no longer in production marks it cancelled. */
  predicate IsCancelled(s: TVShow)
    ensures IsCancelled(s) <==> s.detail.Some? && !s.detail.value.inProduction
  {
    !InProduction(s)
  }

  /** `detail?.nextEpisode?.airDate ?? .distantFuture`. */
  function AirDateKey(s: TVShow): (d: Date)
    ensures s.detail.None? ==> d == DistantFuture
    ensures s.detail.Some? && s.detail.value.nextEpisode.None? ==> d == DistantFuture
    ensures s.detail.Some? && s.detail.value.nextEpisode.Some? && s.detail.value.nextEpisode.value.airDate.None? ==>
      d == DistantFuture
    ensures s.detail.Some? && s.detail.value.nextEpisode.Some? && s.detail.value.nextEpisode.value.airDate.Some? ==>
      d == s.detail.value.nextEpisode.value.airDate.value
  {
    match s.detail
    case None => DistantFuture
    case Some(detail) =>
      match detail.nextEpisode
      case None => DistantFuture
      case Some(e) =>
        match e.airDate
        case None => DistantFuture
        case Some(date) => date
  }

  /** The closure passed to `tvShows.sort`: `true` when `first` must come before `second`. */
  predicate SortsBefore(first: TVShow, second: TVShow)
    ensures IsCancelled(first) ==> !SortsBefore(first, second)
    ensures !IsCancelled(first) && IsCancelled(second) ==> SortsBefore(first, second)
    ensures !IsCancelled(first) && !IsCancelled(second) ==>
      (SortsBefore(first, second) <==> AirDateKey(first) < AirDateKey(second))
  {
    if IsCancelled(first) then false
    else if IsCancelled(second) then true
    else AirDateKey(first) < AirDateKey(second)
  }

  /** Neither show has to come before the other. */
  predicate Incomparable(a: TVShow, b: TVShow) {
    !SortsBefore(a, b) && !SortsBefore(b, a)
  }

  /** `SortsBefore` is a strict weak ordering, which is what `sort(by:)` demands of its closure. */
  lemma SortsBeforeIsStrictWeakOrder()
    ensures forall a :: !SortsBefore(a, a)
    ensures forall a, b, c :: SortsBefore(a, b) && SortsBefore(b, c) ==> SortsBefore(a, c)
    ensures forall a, b, c :: Incomparable(a, b) && Incomparable(b, c) ==> Incomparable(a, c)
  {
  }

  /** Cancelled shows go last: a cancelled show never sorts before another show, and every other show sorts before it. */
  lemma CancelledGoLast(cancelled: TVShow, other: TVShow)
    requires cancelled.detail.Some? && !cancelled.detail.value.inProduction
    ensures !SortsBefore(cancelled, other)
    ensures !IsCancelled(other) ==> SortsBefore(other, cancelled)
    ensures IsCancelled(other) ==> Incomparable(cancelled, other)
  {
  }

  /**
   * Among shows still in production (or without detail), a real next air
   * date before `distantFuture` sorts before a missing one, and earlier
   * dates sort first.
   */
  lemma AirDateOrder(a: TVShow, b: TVShow)
    requires InProduction(a) && InProduction(b)
    ensures SortsBefore(a, b) <==> AirDateKey(a) < AirDateKey(b)
    ensures AirDateKey(a) < DistantFuture && AirDateKey(b) == DistantFuture ==> SortsBefore(a, b)
  {
  }

  // ---------------------------------------------------------------------
  // Sorted lists
  // ---------------------------------------------------------------------

  /** No show comes after one that must follow it. */
  ghost predicate Sorted(s: seq<TVShow>) {
    forall i, j :: 0 <= i < j < |s| ==> !SortsBefore(s[j], s[i])
  }

  /** In a sorted list, the cancelled shows form a suffix. */
  lemma SortedCancelledSuffix(s: seq<TVShow>, i: nat, j: nat)
    requires Sorted(s)
    requires i < j < |s|
    requires IsCancelled(s[i])
    ensures IsCancelled(s[j])
  {
  }

  /** In a sorted list, shows that are not cancelled appear by ascending next air date. */
  lemma SortedByAirDate(s: seq<TVShow>, i: nat, j: nat)
    requires Sorted(s)
    requires i < j < |s|
    requires !IsCancelled(s[i]) && !IsCancelled(s[j])
    ensures AirDateKey(s[i]) <= AirDateKey(s[j])
  {
    assert !SortsBefore(s[j], s[i]);
  }

  /** In a sorted list, a show that must come before another does. */
  lemma SortedPosition(s: seq<TVShow>, i: nat, j: nat)
    requires Sorted(s)
    requires i < |s| && j < |s|
    requires SortsBefore(s[i], s[j])
    ensures i < j
  {
    SortsBeforeIsStrictWeakOrder();
  }

  /** No show of `s` has to come before `h`. */
  ghost predicate NoneBefore(s: seq<TVShow>, h: TVShow) {
    forall k :: 0 <= k < |s| ==> !SortsBefore(s[k], h)
  }

  lemma NoneBeforeByMultiset(t: seq<TVShow>, s: seq<TVShow>, h: TVShow)
    requires multiset(t) == multiset(s)
    requires NoneBefore(s, h)
    ensures NoneBefore(t, h)
  {
    forall k | 0 <= k < |t| ensures !SortsBefore(t[k], h) {
      assert t[k] in multiset(s);
    }
  }

  lemma SortedPrepend(h: TVShow, s: seq<TVShow>)
    requires Sorted(s)
    requires NoneBefore(s, h)
    ensures Sorted([h] + s)
  {
  }

  /**
   * Inserts `x` into a list just before the first show it must precede.
   */
  function Insert(sorted: seq<TVShow>, x: TVShow): (r: seq<TVShow>)
    ensures multiset(r) == multiset(sorted) + multiset{x}
  {
    if sorted == [] then [x]
    else if SortsBefore(x, sorted[0]) then [x] + sorted
    else
      assert sorted == [sorted[0]] + sorted[1..];
      [sorted[0]] + Insert(sorted[1..], x)
  }

  /** Inserting into a sorted list keeps it sorted. */
  lemma {:induction false} InsertSorted(sorted: seq<TVShow>, x: TVShow)
    requires Sorted(sorted)
    ensures Sorted(Insert(sorted, x))
  {
    if sorted == [] {
    } else if SortsBefore(x, sorted[0]) {
      SortsBeforeIsStrictWeakOrder();
      assert NoneBefore(sorted, x);
      SortedPrepend(x, sorted);
    } else {
      var tail := sorted[1..];
      InsertSorted(tail, x);
      var rest := Insert(tail, x);
      assert NoneBefore(tail + [x], sorted[0]);
      assert multiset(rest) == multiset(tail + [x]);
      NoneBeforeByMultiset(rest, tail + [x], sorted[0]);
      SortedPrepend(sorted[0], rest);
    }
  }

  /** `tvShows.sort { ... }`: returns the shows sorted under `SortsBefore`, as a permutation of the input. */
  method SortShows(shows: seq<TVShow>) returns (sorted: seq<TVShow>)
    ensures Sorted(sorted)
    ensures multiset(sorted) == multiset(shows)
  {
    sorted := [];
    for i := 0 to |shows|
      invariant Sorted(sorted)
      invariant multiset(sorted) == multiset(shows[..i])
    {
      InsertSorted(sorted, shows[i]);
      sorted := Insert(sorted, shows[i]);
      assert shows[..i + 1] == shows[..i] + [shows[i]];
    }
    assert shows[..|shows|] == shows;
  }

  // ---------------------------------------------------------------------
  // Ids, removal and refresh reconciliation on values
  // ---------------------------------------------------------------------

  /** `Set(tvShows.map(\.id))`. */
  function IdsOf(shows: seq<TVShow>): (ids: set<Identifier>)
    ensures forall x :: x in shows ==> x.id in ids
    ensures forall id :: id in ids ==> exists x :: x in shows && x.id == id
  {
    set x | x in shows :: x.id
  }

  /** Appending a show whose id is already present adds no new id. */
  lemma AppendDuplicateId(shows: seq<TVShow>, x: TVShow)
    requires x.id in IdsOf(shows)
    ensures IdsOf(shows + [x]) == IdsOf(shows)
  {
  }

  /** No two shows of the list share an id. */
  ghost predicate UniqueIds(s: seq<TVShow>) {
    forall i, j :: 0 <= i < |s| && 0 <= j < |s| && s[i].id == s[j].id ==> i == j
  }

  /** A value at two positions of a list occurs at least twice in its multiset. */
  lemma TwoPositionsCount(u: seq<TVShow>, i: nat, j: nat)
    requires i < j < |u| && u[i] == u[j]
    ensures multiset(u)[u[i]] >= 2
  {
    assert u == u[..j] + u[j..];
    assert u[i] in u[..j];
    assert u[j..][0] == u[j];
  }

  /** A value occurring at least twice in the multiset of a list stands at two positions. */
  lemma CountTwoPositions(u: seq<TVShow>, v: TVShow) returns (p: nat, q: nat)
    requires multiset(u)[v] >= 2
    ensures p < |u| && q < |u| && p != q && u[p] == v && u[q] == v
  {
    assert v in multiset(u);
    p :| 0 <= p < |u| && u[p] == v;
    assert u == u[..p] + [v] + u[p + 1..];
    assert v in multiset(u[..p] + u[p + 1..]);
    if v in u[..p] {
      q :| 0 <= q < p && u[..p][q] == v;
    } else {
      assert v in u[p + 1..];
      var k :| 0 <= k < |u[p + 1..]| && u[p + 1..][k] == v;
      q := p + 1 + k;
    }
  }

  lemma PositionIn(u: seq<TVShow>, v: TVShow) returns (p: nat)
    requires v in multiset(u)
    ensures p < |u| && u[p] == v
  {
    p :| 0 <= p < |u| && u[p] == v;
  }

  /** Reordering a list whose ids are unique keeps them unique, so the setter's sort cannot break uniqueness. */
  lemma PermutationKeepsUniqueIds(u: seq<TVShow>, t: seq<TVShow>)
    requires multiset(u) == multiset(t)
    requires UniqueIds(u)
    ensures UniqueIds(t)
  {
    forall i, j | 0 <= i < |t| && 0 <= j < |t| && t[i].id == t[j].id ensures i == j {
      if i != j {
        var p := PositionIn(u, t[i]);
        var q := PositionIn(u, t[j]);
        if p == q {
          if i < j { TwoPositionsCount(t, i, j); } else { TwoPositionsCount(t, j, i); }
          var p', q' := CountTwoPositions(u, t[i]);
        }
      }
    }
  }

  /**
   * The search screen appends only a show that `hasAdded` rejects; such an
   * append, sorted in any way, keeps ids unique.
   */
  lemma GuardedAppendKeepsUniqueIds(shows: seq<TVShow>, x: TVShow, stored: seq<TVShow>)
    requires UniqueIds(shows)
    requires x.id !in IdsOf(shows)
    requires multiset(stored) == multiset(shows + [x])
    ensures UniqueIds(stored)
  {
    var appended := shows + [x];
    forall i, j | 0 <= i < |appended| && 0 <= j < |appended| && appended[i].id == appended[j].id
      ensures i == j
    {
      if i < |shows| { assert shows[i] in shows; }
      if j < |shows| { assert shows[j] in shows; }
    }
    PermutationKeepsUniqueIds(appended, stored);
  }

  /** `removeAll(where: { $0.id == id })`: keeps, in order, the shows with another id. */
  function RemoveAllWithId(shows: seq<TVShow>, id: Identifier): (r: seq<TVShow>)
    ensures (forall k :: 0 <= k < |shows| ==> shows[k].id != id) ==> r == shows
    ensures forall k :: 0 <= k < |r| ==> r[k].id != id
  {
    if shows == [] then []
    else
      var rest := RemoveAllWithId(shows[1..], id);
      assert shows == [shows[0]] + shows[1..];
      if shows[0].id == id then rest else [shows[0]] + rest
  }

  /** Every show with the id is gone, duplicates included, and every other show is kept as often as before. */
  lemma {:induction false} RemoveAllCounts(shows: seq<TVShow>, id: Identifier)
    ensures forall x :: multiset(RemoveAllWithId(shows, id))[x] == if x.id == id then 0 else multiset(shows)[x]
  {
    if shows != [] {
      RemoveAllCounts(shows[1..], id);
      assert shows == [shows[0]] + shows[1..];
    }
  }

  /**
   * Removal keeps the order of what is left: filtering a concatenation is
   * concatenating the filtered parts.
   */
  lemma {:induction false} RemoveAllKeepsOrder(a: seq<TVShow>, b: seq<TVShow>, id: Identifier)
    ensures RemoveAllWithId(a + b, id) == RemoveAllWithId(a, id) + RemoveAllWithId(b, id)
  {
    if a == [] {
      assert a + b == b;
    } else {
      var h, t := a[0], a[1..];
      assert a == [h] + t;
      assert a + b == [h] + (t + b);
      RemoveAllKeepsOrder(t, b, id);
      RemoveAllConsStep(h, t, b, id);
    }
  }

  lemma RemoveAllConsStep(h: TVShow, t: seq<TVShow>, b: seq<TVShow>, id: Identifier)
    requires RemoveAllWithId(t + b, id) == RemoveAllWithId(t, id) + RemoveAllWithId(b, id)
    ensures RemoveAllWithId([h] + (t + b), id) == RemoveAllWithId([h] + t, id) + RemoveAllWithId(b, id)
  {
    assert ([h] + t)[1..] == t;
    assert ([h] + (t + b))[1..] == t + b;
  }

  /** After removal no show with that id is left, and every other id still is. */
  lemma RemoveAllIds(shows: seq<TVShow>, id: Identifier)
    ensures IdsOf(RemoveAllWithId(shows, id)) == IdsOf(shows) - {id}
  {
    var r := RemoveAllWithId(shows, id);
    RemoveAllCounts(shows, id);
    forall x ensures x in r <==> x in shows && x.id != id {
      assert x in r <==> multiset(r)[x] > 0;
      assert x in shows <==> multiset(shows)[x] > 0;
    }
  }

  /** The record kept for one show in a refresh: the fetched one on success, the old one on failure. */
  function Reconciled(stored: TVShow, fetched: Option<TVShow>): (r: TVShow)
    ensures fetched.None? ==> r == stored
    ensures fetched.Some? ==> r == fetched.value
  {
    match fetched
    case Some(details) => details
    case None => stored
  }

  /** The list a refresh collects, one entry per stored show, in the stored order. */
  function Reconcile(shows: seq<TVShow>, fetched: seq<Option<TVShow>>): (r: seq<TVShow>)
    requires |fetched| == |shows|
    ensures |r| == |shows|
  {
    if shows == [] then []
    else Reconcile(shows[..|shows| - 1], fetched[..|shows| - 1]) + [Reconciled(shows[|shows| - 1], fetched[|shows| - 1])]
  }

  /** Refresh keeps length and order; entry `i` is the fetched record or, if fetch `i` failed, the unchanged original. */
  lemma {:induction false} ReconcileAt(shows: seq<TVShow>, fetched: seq<Option<TVShow>>)
    requires |fetched| == |shows|
    ensures |Reconcile(shows, fetched)| == |shows|
    ensures forall i :: 0 <= i < |shows| ==>
      Reconcile(shows, fetched)[i] == if fetched[i].Some? then fetched[i].value else shows[i]
  {
    if shows != [] {
      var n := |shows| - 1;
      ReconcileAt(shows[..n], fetched[..n]);
    }
  }

  /** A refresh in which every fetch failed gives back the list unchanged. */
  lemma ReconcileAllFailed(shows: seq<TVShow>, fetched: seq<Option<TVShow>>)
    requires |fetched| == |shows|
    requires forall i :: 0 <= i < |fetched| ==> fetched[i].None?
    ensures Reconcile(shows, fetched) == shows
  {
    ReconcileAt(shows, fetched);
  }

  /** When every fetched record carries the id it was fetched for, refresh leaves the id set as it was. */
  lemma ReconcileKeepsIds(shows: seq<TVShow>, fetched: seq<Option<TVShow>>)
    requires |fetched| == |shows|
    requires forall i :: 0 <= i < |fetched| && fetched[i].Some? ==> fetched[i].value.id == shows[i].id
    ensures IdsOf(Reconcile(shows, fetched)) == IdsOf(shows)
  {
    var r := Reconcile(shows, fetched);
    ReconcileAt(shows, fetched);
    forall id | id in IdsOf(r) ensures id in IdsOf(shows) {
      var k :| 0 <= k < |r| && r[k].id == id;
      assert shows[k] in shows;
    }
    forall id | id in IdsOf(shows) ensures id in IdsOf(r) {
      var k :| 0 <= k < |shows| && shows[k].id == id;
      assert r[k] in r;
    }
  }

  /**
   * A refresh whose fetches are detail responses (`None` where the request
   * threw): every refreshed entry carries detail and, because the detail
   * initializer passes none, has lost its first air date; every other entry
   * is the stored one.
   */
  lemma RefreshWithDetails(shows: seq<TVShow>, responses: seq<Option<TMDb.TVShowDetails>>, parse: string -> Option<Date>)
    requires |responses| == |shows|
    ensures |Reconcile(shows, TMDb.DetailsResults(responses, parse))| == |shows|
    ensures forall i :: 0 <= i < |shows| && responses[i].Some? ==>
      var r := Reconcile(shows, TMDb.DetailsResults(responses, parse))[i];
      r.detail.Some? && r.firstAirDate.None? && r.detail.value.inProduction == responses[i].value.inProduction
    ensures forall i :: 0 <= i < |shows| && responses[i].None? ==>
      Reconcile(shows, TMDb.DetailsResults(responses, parse))[i] == shows[i]
  {
    ReconcileAt(shows, TMDb.DetailsResults(responses, parse));
  }

  // ---------------------------------------------------------------------
  // The store
  // ---------------------------------------------------------------------

  class DataManager {
    var tvShows: seq<TVShow>
    var tvShowIDs: set<Identifier>

    /** The id set matches the list, and the list is sorted. */
    ghost predicate Valid()
      reads this
    {
      tvShowIDs == IdsOf(tvShows) && Sorted(tvShows)
    }

    /** `DataManager()`: an empty watchlist. */
    constructor ()
      ensures Valid()
      ensures tvShows == [] && tvShowIDs == {}
    {
      tvShows := [];
      tvShowIDs := {};
    }

    /**
     * `tvShows = newValue` followed by its `didSet`: an equal list changes
     * nothing; any other list is stored sorted and the id set recomputed.
     */
    method SetTVShows(newValue: seq<TVShow>)
      requires Valid()
      modifies this
      ensures Valid()
      ensures multiset(tvShows) == multiset(newValue)
      ensures newValue == old(tvShows) ==> tvShows == old(tvShows) && tvShowIDs == old(tvShowIDs)
      ensures tvShowIDs == IdsOf(newValue)
    {
      var oldValue := tvShows;
      tvShows := newValue;
      if tvShows == oldValue {
        return;
      }
      tvShows := SortShows(tvShows);
      tvShowIDs := IdsOf(tvShows);
      SameMultisetSameIds(tvShows, newValue);
    }

    /** `hasAdded(_:)`: membership in the id set, which is membership of the id in the list. */
    function HasAdded(show: TVShow): (added: bool)
      requires Valid()
      reads this
      ensures added <==> exists x :: x in tvShows && x.id == show.id
    {
      show.id in tvShowIDs
    }

    /** `tvShows.append(show)` from the search screen: no uniqueness check, then the setter. */
    method Append(show: TVShow)
      requires Valid()
      modifies this
      ensures Valid()
      ensures multiset(tvShows) == multiset(old(tvShows)) + multiset{show}
      ensures tvShowIDs == old(tvShowIDs) + {show.id}
      ensures HasAdded(show)
    {
      assert |tvShows + [show]| != |tvShows|;
      SetTVShows(tvShows + [show]);
      assert show in multiset(tvShows);
    }

    /** The search screen's "Add" button: shown, and so pressed, only when `hasAdded` is false. */
    method AddIfNotAdded(show: TVShow)
      requires Valid()
      modifies this
      ensures Valid()
      ensures old(HasAdded(show)) ==> tvShows == old(tvShows) && tvShowIDs == old(tvShowIDs)
      ensures !old(HasAdded(show)) ==> multiset(tvShows) == multiset(old(tvShows)) + multiset{show}
      ensures UniqueIds(old(tvShows)) ==> UniqueIds(tvShows)
      ensures HasAdded(show)
    {
      if !HasAdded(show) {
        ghost var before := tvShows;
        Append(show);
        if UniqueIds(before) {
          GuardedAppendKeepsUniqueIds(before, show, tvShows);
        }
      }
    }

    /** `remove(_:)`: drops every show with that id, keeps every other show, and re-sorts. */
    method Remove(show: TVShow)
      requires Valid()
      modifies this
      ensures Valid()
      ensures forall x :: multiset(tvShows)[x] == if x.id == show.id then 0 else multiset(old(tvShows))[x]
      ensures tvShowIDs == old(tvShowIDs) - {show.id}
      ensures show.id !in old(tvShowIDs) ==> tvShows == old(tvShows) && tvShowIDs == old(tvShowIDs)
      ensures !HasAdded(show)
    {
      RemoveAllIds(tvShows, show.id);
      RemoveAllCounts(tvShows, show.id);
      SetTVShows(RemoveAllWithId(tvShows, show.id));
    }

    /**
     * `collectNextEpisodeAirDates()`: walks the list in order, keeping the
     * fetched record when fetch `i` succeeded (`fetched[i]` is `Some`) and
     * the stored one when it failed.
     */
    method CollectNextEpisodeAirDates(fetched: seq<Option<TVShow>>) returns (tvShowDetails: seq<TVShow>)
      requires |fetched| == |tvShows|
      ensures tvShowDetails == Reconcile(tvShows, fetched)
    {
      tvShowDetails := [];
      for i := 0 to |tvShows|
        invariant tvShowDetails == Reconcile(tvShows[..i], fetched[..i])
      {
        assert tvShows[..i + 1][..i] == tvShows[..i];
        assert fetched[..i + 1][..i] == fetched[..i];
        var tvShow := tvShows[i];
        match fetched[i]
        case Some(details) =>
          tvShowDetails := tvShowDetails + [details];
        case None =>
          tvShowDetails := tvShowDetails + [tvShow];
      }
      assert tvShows[..|tvShows|] == tvShows;
      assert fetched[..|tvShows|] == fetched;
    }

    /** `loadNextEpisodeAirDates()`: collect, then assign the collected list through the setter. */
    method LoadNextEpisodeAirDates(fetched: seq<Option<TVShow>>)
      requires Valid()
      requires |fetched| == |tvShows|
      modifies this
      ensures Valid()
      ensures multiset(tvShows) == multiset(Reconcile(old(tvShows), fetched))
      ensures (forall i :: 0 <= i < |fetched| ==> fetched[i].None?) ==>
        tvShows == old(tvShows) && tvShowIDs == old(tvShowIDs)
      ensures Reconcile(old(tvShows), fetched) == old(tvShows) ==>
        tvShows == old(tvShows) && tvShowIDs == old(tvShowIDs)
    {
      var tvShowsWithDetails := CollectNextEpisodeAirDates(fetched);
      if forall i :: 0 <= i < |fetched| ==> fetched[i].None? {
        ReconcileAllFailed(tvShows, fetched);
      }
      SetTVShows(tvShowsWithDetails);
    }
  }

  /** Lists with the same elements have the same ids. */
  lemma SameMultisetSameIds(a: seq<TVShow>, b: seq<TVShow>)
    requires multiset(a) == multiset(b)
    ensures IdsOf(a) == IdsOf(b)
  {
    forall x ensures x in a <==> x in b {
      assert x in a <==> x in multiset(a);
      assert x in b <==> x in multiset(b);
    }
  }

  // ---------------------------------------------------------------------
  // The DEBUG preview store
  // ---------------------------------------------------------------------

  /** Cancelled. */
  function Manifest(): (r: TVShow)
    ensures IsCancelled(r)
  {
    TVShow("79696", "Manifest", TMDb.ImageURL(Some("/1xeiUxShzNn8TNdMqy3Hvo9o2R.jpg")), None, None,
           Some(Detail(3, false, None, [])))
  }

  /** In production, with no next episode. */
  function DriveToSurvive(): (r: TVShow)
    ensures !IsCancelled(r) && AirDateKey(r) == DistantFuture
  {
    TVShow("87083", "Formula 1: Drive to Survive", TMDb.ImageURL(Some("/hZZpqv9bKo9tUMmQY54HIJcgyqx.jpg")), None, None,
           Some(Detail(4, true, None, [])))
  }

  /** `airDate` is the parse of "2021-07-23", `None` if it fails. */
  function TedLasso(airDate: Option<Date>): (r: TVShow)
    ensures !IsCancelled(r) && AirDateKey(r) == (if airDate.Some? then airDate.value else DistantFuture)
  {
    TVShow("97546", "Ted Lasso", TMDb.ImageURL(Some("/oX7QdfiQEbyvIvpKgJHRCgbrLdK.jpg")), None, None,
           Some(Detail(2, true, Some(Episode("2891253", "", 1, airDate, 2, None)), [])))
  }

  /** `airDate` is the parse of "2021-06-25", `None` if it fails. */
  function HomeBeforeDark(airDate: Option<Date>): (r: TVShow)
    ensures !IsCancelled(r) && AirDateKey(r) == (if airDate.Some? then airDate.value else DistantFuture)
  {
    TVShow("98161", "Home Before Dark", TMDb.ImageURL(Some("/mt4P2epJrSaqrlkMP9fTUKLP9OE.jpg")), None, None,
           Some(Detail(2, true, Some(Episode("3031348", "Fighting His Ghost", 3, airDate, 2, None)), [])))
  }

  /** The preview list in the order it is written. */
  function PreviewShows(tedLassoDate: Option<Date>, homeBeforeDarkDate: Option<Date>): (r: seq<TVShow>)
    ensures |r| == 4 && IdsOf(r) == {"79696", "87083", "97546", "98161"}
  {
    [Manifest(), DriveToSurvive(), TedLasso(tedLassoDate), HomeBeforeDark(homeBeforeDarkDate)]
  }

  /** A sorted arrangement of four shows that form a chain under the comparator is that chain. */
  lemma SortedChainOfFour(r: seq<TVShow>, a: TVShow, b: TVShow, c: TVShow, d: TVShow)
    requires Sorted(r)
    requires multiset(r) == multiset{a, b, c, d}
    requires SortsBefore(a, b) && SortsBefore(b, c) && SortsBefore(c, d)
    ensures r == [a, b, c, d]
  {
    assert |r| == 4 by {
      assert |multiset(r)| == |r|;
    }
    assert a in multiset(r) && b in multiset(r) && c in multiset(r) && d in multiset(r);
    var ia := PositionIn(r, a);
    var ib := PositionIn(r, b);
    var ic := PositionIn(r, c);
    var id := PositionIn(r, d);
    SortedPosition(r, ia, ib);
    SortedPosition(r, ib, ic);
    SortedPosition(r, ic, id);
    assert ia == 0 && ib == 1 && ic == 2 && id == 3;
  }

  /**
   * Whenever both dates parse (2021-06-25 before 2021-07-23, both before
   * `distantFuture`), every sorted arrangement of the preview list is:
   * Home Before Dark, Ted Lasso, Formula 1 (no date), Manifest (cancelled).
   */
  lemma PreviewSortsAsDisplayed(tedLassoDate: Date, homeBeforeDarkDate: Date, r: seq<TVShow>)
    requires homeBeforeDarkDate < tedLassoDate < DistantFuture
    requires Sorted(r)
    requires multiset(r) == multiset(PreviewShows(Some(tedLassoDate), Some(homeBeforeDarkDate)))
    ensures r == [HomeBeforeDark(Some(homeBeforeDarkDate)), TedLasso(Some(tedLassoDate)), DriveToSurvive(), Manifest()]
  {
    var h, t, f, m := HomeBeforeDark(Some(homeBeforeDarkDate)), TedLasso(Some(tedLassoDate)), DriveToSurvive(), Manifest();
    assert multiset([m, f, t, h]) == multiset{h, t, f, m};
    assert SortsBefore(h, t) && SortsBefore(t, f) && SortsBefore(f, m);
    SortedChainOfFour(r, h, t, f, m);
  }

  /** `DataManager.testManager`: a new store assigned the preview list through the setter. */
  method TestManager(tedLassoDate: Option<Date>, homeBeforeDarkDate: Option<Date>) returns (manager: DataManager)
    ensures manager.Valid()
    ensures multiset(manager.tvShows) == multiset(PreviewShows(tedLassoDate, homeBeforeDarkDate))
    ensures tedLassoDate.Some? && homeBeforeDarkDate.Some? && homeBeforeDarkDate.value < tedLassoDate.value < DistantFuture ==>
      manager.tvShows == [HomeBeforeDark(homeBeforeDarkDate), TedLasso(tedLassoDate), DriveToSurvive(), Manifest()]
  {
    manager := new DataManager();
    manager.SetTVShows(PreviewShows(tedLassoDate, homeBeforeDarkDate));
    if tedLassoDate.Some? && homeBeforeDarkDate.Some? && homeBeforeDarkDate.value < tedLassoDate.value < DistantFuture {
      PreviewSortsAsDisplayed(tedLassoDate.value, homeBeforeDarkDate.value, manager.tvShows);
    }
  }
}
