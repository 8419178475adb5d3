/**
 * `trip_summary` of ai_assistant/tools.py: one pass over the decoded trip log
 * that totals the costs and groups an activity per recognised object under
 * its place, keeping places in first-seen order and each place's activities
 * in log order, followed by the one-line summary text.
 *
 * `Fold` is the functional specification of the loop; `Entries`, `SumCosts`,
 * `PlaceKeys`, `ActivitiesAt` and `FirstSeen` are independent reference
 * definitions that the lemmas tie it to.
 */
module Summary {
  import opened Wrappers
  import opened Text
  import opened Models
  import opened Ledger
  import opened Dates

  /** What the loop body derives from one recognised object: its place key, its activity and its cost. */
  datatype Entry = Entry(place: string, activity: PlaceActivity, cost: int)

  /** `f"{float(n):.2f}"` for a whole number `n`. */
  function Money(n: int): (s: string)
    ensures |s| >= 4 && s[|s| - 3..] == ".00"
    ensures s[0] == '-' <==> n < 0
  {
    (if n < 0 then "-" else "") + Decimal(if n < 0 then -n else n) + ".00"
  }

  /** Different amounts are never printed alike. */
  lemma MoneyInjective(a: int, b: int)
    requires Money(a) == Money(b)
    ensures a == b
  {
    var ma, mb := if a < 0 then -a else a, if b < 0 then -b else b;
    var sa, sb := Money(a), Money(b);
    var da, db := Decimal(ma), Decimal(mb);
    var ka := if a < 0 then 1 else 0;
    assert (a < 0) == (b < 0);
    assert da == sa[ka..|sa| - 3];
    assert db == sb[ka..|sb| - 3];
    ValueOfDecimal(ma);
    ValueOfDecimal(mb);
  }

  /**
   * The if/elif chain of the loop body: place key, activity date and
   * description by record kind; `None` for the `continue` on an unknown tag.
   * A trip of either type is described as a flight.
   */
  function Describe(item: LedgerItem): (e: Option<Entry>)
    ensures e.Some? <==> !item.OtherItem?
    ensures e.Some? ==> e.value.cost == item.cost && e.value.activity.cost == "$" + Money(item.cost)
    ensures item.TripItem? ==>
      e.value.place == item.departure + " to " + item.destination && e.value.activity.date == item.date
      && e.value.activity.description == "Flight from " + item.departure + " to " + item.destination
    ensures item.HotelItem? ==>
      e.value.place == item.city && e.value.activity.date == item.checkinDate
      && e.value.activity.description
         == "Hotel stay at " + item.hotelName + " from " + item.checkinDate + " to " + item.checkoutDate
    ensures item.RestaurantItem? ==>
      e.value.place == item.city && e.value.activity.date == item.reservationTime
      && e.value.activity.description == "Restaurant reservation at " + item.restaurant + " at " + item.reservationTime
  {
    match item
    case TripItem(_, date, departure, destination, cost) =>
      Some(Entry(departure + " to " + destination,
                 PlaceActivity(date, "Flight from " + departure + " to " + destination, "$" + Money(cost)),
                 cost))
    case HotelItem(checkin, checkout, hotelName, city, cost) =>
      Some(Entry(city,
                 PlaceActivity(checkin, "Hotel stay at " + hotelName + " from " + checkin + " to " + checkout, "$" + Money(cost)),
                 cost))
    case RestaurantItem(time, restaurant, city, _, cost) =>
      Some(Entry(city,
                 PlaceActivity(time, "Restaurant reservation at " + restaurant + " at " + time, "$" + Money(cost)),
                 cost))
    case OtherItem(_) => None
  }

  /** The trip type plays no part in the summary: a BUS trip is described exactly like a FLIGHT. */
  lemma TripTypeIgnored(item: LedgerItem, otherType: string)
    requires item.TripItem?
    ensures Describe(item.(tripType := otherType)) == Describe(item)
  {
  }

  /** A saved BUS reservation appears in the summary as "Flight from …", under its route. */
  lemma BusDescribedAsFlight(t: TripReservation)
    requires t.tripType == Bus && ValidReservation(Trip(t))
    ensures Describe(Serialize(Trip(t))).Some?
    ensures Describe(Serialize(Trip(t))).value.place == t.departure + " to " + t.destination
    ensures Describe(Serialize(Trip(t))).value.activity.description == "Flight from " + t.departure + " to " + t.destination
    ensures Describe(Serialize(Trip(t))).value.activity.date == IsoDate(t.date)
  {
  }

  /** An object is skipped exactly when its `reservation_type` is missing or unknown. */
  lemma SkipsExactlyUnknownTags(item: LedgerItem)
    requires WellTagged(item)
    ensures Describe(item).None? <==> !KnownTag(ReservationType(item))
  {
  }

  /** The loop's state: `total_budget` and the insertion-ordered `activities_by_place` dict. */
  datatype Tally = Tally(total: int, places: seq<string>, byPlace: map<string, seq<PlaceActivity>>)

  const Start := Tally(0, [], map[])

  /** One recognised object: add its cost, create its place's list if new, append its activity. */
  function Add(t: Tally, e: Entry): Tally {
    var isNew := e.place !in t.byPlace;
    var list := if isNew then [] else t.byPlace[e.place];
    Tally(t.total + e.cost,
          if isNew then t.places + [e.place] else t.places,
          t.byPlace[e.place := list + [e.activity]])
  }

  function Step(t: Tally, item: LedgerItem): Tally {
    match Describe(item)
    case None => t
    case Some(e) => Add(t, e)
  }

  /** The loop run from state `t` over `items`, in order. */
  function FoldFrom(t: Tally, items: seq<LedgerItem>): Tally
    decreases |items|
  {
    if |items| == 0 then t else Step(FoldFrom(t, items[..|items| - 1]), items[|items| - 1])
  }

  function Fold(items: seq<LedgerItem>): Tally {
    FoldFrom(Start, items)
  }

  /** The `summary` string: it shows the budget and names every place. */
  function SummaryText(total: int, places: seq<string>): (s: string)
    ensures Contains(s, Money(total))
    ensures forall k :: 0 <= k < |places| ==> Contains(s, places[k])
  {
    var head := "Total budget: $" + Money(total) + ". The trip includes activities in the following places: ";
    var s := head + Join(places, ", ") + ".";
    ContainsAtEnd("Total budget: $", Money(total));
    ContainsInPrefix("Total budget: $" + Money(total), ". The trip includes activities in the following places: ", Money(total));
    ContainsInPrefix(head, Join(places, ", "), Money(total));
    ContainsInPrefix(head + Join(places, ", "), ".", Money(total));
    assert forall k :: 0 <= k < |places| ==> Contains(s, places[k]) by {
      forall k | 0 <= k < |places| ensures Contains(s, places[k]) {
        JoinContainsPart(places, ", ", k);
        ContainsInSuffix(head, Join(places, ", "), places[k]);
        ContainsInPrefix(head + Join(places, ", "), ".", places[k]);
      }
    }
    s
  }

  /**
   * The `TripSummary` `trip_summary` returns for a decoded log: the summary
   * text is built from the returned budget and places, and the dict's keys
   * are exactly the listed places, each listed once.
   */
  function Summarize(items: seq<LedgerItem>): (r: TripSummary)
    ensures r.summary == SummaryText(r.totalBudget, r.places)
    ensures NoDuplicates(r.places)
    ensures forall p :: p in r.activitiesByPlace <==> p in r.places
  {
    var t := Fold(items);
    FoldReflects(items);
    FirstSeenProperties(PlaceKeys(Entries(items)));
    TripSummary(t.total, t.places, t.byPlace, SummaryText(t.total, t.places))
  }

  // ----- Reference definitions -----

  function EntryOf(item: LedgerItem): seq<Entry> {
    match Describe(item)
    case None => []
    case Some(e) => [e]
  }

  /** The recognised objects of the log, in order, as entries. */
  function Entries(items: seq<LedgerItem>): seq<Entry> {
    if |items| == 0 then [] else EntryOf(items[0]) + Entries(items[1..])
  }

  function SumCosts(entries: seq<Entry>): int {
    if |entries| == 0 then 0 else entries[0].cost + SumCosts(entries[1..])
  }

  function PlaceKeys(entries: seq<Entry>): seq<string> {
    if |entries| == 0 then [] else [entries[0].place] + PlaceKeys(entries[1..])
  }

  /** The activities of the entries at place `p`, in order. */
  function ActivitiesAt(entries: seq<Entry>, p: string): seq<PlaceActivity> {
    if |entries| == 0 then []
    else (if entries[0].place == p then [entries[0].activity] else []) + ActivitiesAt(entries[1..], p)
  }

  predicate NoDuplicates(s: seq<string>) {
    forall i, j :: 0 <= i < j < |s| ==> s[i] != s[j]
  }

  function FirstIndex(s: seq<string>, x: string): (k: nat)
    requires x in s
    ensures k < |s| && s[k] == x && x !in s[..k]
  {
    if s[0] == x then 0 else 1 + FirstIndex(s[1..], x)
  }

  /** The distinct elements of `s`, each where it first occurs. */
  function FirstSeen(s: seq<string>): seq<string> {
    if |s| == 0 then []
    else
      var init := FirstSeen(s[..|s| - 1]);
      if s[|s| - 1] in s[..|s| - 1] then init else init + [s[|s| - 1]]
  }

  function Lookup(m: map<string, seq<PlaceActivity>>, p: string): seq<PlaceActivity> {
    if p in m then m[p] else []
  }

  /** The number of activities listed under the given places. */
  function CountActivities(places: seq<string>, m: map<string, seq<PlaceActivity>>): nat {
    if |places| == 0 then 0 else |Lookup(m, places[0])| + CountActivities(places[1..], m)
  }

  // ----- Lemmas about the reference definitions -----

  lemma {:induction false} EntriesSnoc(items: seq<LedgerItem>, x: LedgerItem)
    ensures Entries(items + [x]) == Entries(items) + EntryOf(x)
  {
    if |items| == 0 {
      assert items + [x] == [x];
    } else {
      assert (items + [x])[1..] == items[1..] + [x];
      EntriesSnoc(items[1..], x);
    }
  }

  lemma {:induction false} SumCostsSnoc(es: seq<Entry>, e: Entry)
    ensures SumCosts(es + [e]) == SumCosts(es) + e.cost
  {
    if |es| > 0 {
      assert (es + [e])[1..] == es[1..] + [e];
      SumCostsSnoc(es[1..], e);
    }
  }

  lemma {:induction false} PlaceKeysSnoc(es: seq<Entry>, e: Entry)
    ensures PlaceKeys(es + [e]) == PlaceKeys(es) + [e.place]
  {
    if |es| > 0 {
      assert (es + [e])[1..] == es[1..] + [e];
      PlaceKeysSnoc(es[1..], e);
    }
  }

  lemma {:induction false} ActivitiesAtSnoc(es: seq<Entry>, e: Entry, p: string)
    ensures ActivitiesAt(es + [e], p) == ActivitiesAt(es, p) + (if e.place == p then [e.activity] else [])
  {
    if |es| > 0 {
      assert (es + [e])[1..] == es[1..] + [e];
      ActivitiesAtSnoc(es[1..], e, p);
    }
  }

  /** A place has activities exactly when some entry has that place. */
  lemma {:induction false} ActivitiesAtEmpty(es: seq<Entry>, p: string)
    ensures ActivitiesAt(es, p) == [] <==> p !in PlaceKeys(es)
  {
    if |es| > 0 {
      ActivitiesAtEmpty(es[1..], p);
    }
  }

  /** `FirstSeen` keeps every element once, and orders them by first occurrence. */
  lemma {:induction false} FirstSeenProperties(s: seq<string>)
    ensures NoDuplicates(FirstSeen(s))
    ensures forall x :: x in FirstSeen(s) <==> x in s
    ensures forall i, j :: 0 <= i < j < |FirstSeen(s)| ==>
      FirstIndex(s, FirstSeen(s)[i]) < FirstIndex(s, FirstSeen(s)[j])
  {
    if |s| > 0 {
      var init, last := s[..|s| - 1], s[|s| - 1];
      FirstSeenProperties(init);
      assert s == init + [last];
      forall x | x in init
        ensures FirstIndex(s, x) == FirstIndex(init, x)
      {
        FirstIndexPrefix(init, last, x);
      }
      if last !in init {
        assert FirstIndex(s, last) == |init| by {
          assert s[..|init|] == init;
        }
      }
    }
  }

  lemma {:induction false} FirstIndexPrefix(s: seq<string>, y: string, x: string)
    requires x in s
    ensures FirstIndex(s + [y], x) == FirstIndex(s, x)
  {
    if s[0] != x {
      assert (s + [y])[1..] == s[1..] + [y];
      FirstIndexPrefix(s[1..], y, x);
    }
  }

  lemma {:induction false} CountActivitiesSnoc(places: seq<string>, m: map<string, seq<PlaceActivity>>, p: string)
    ensures CountActivities(places + [p], m) == CountActivities(places, m) + |Lookup(m, p)|
  {
    if |places| > 0 {
      assert (places + [p])[1..] == places[1..] + [p];
      CountActivitiesSnoc(places[1..], m, p);
    }
  }

  /** Replacing the list of one place changes the count by the difference in its length. */
  lemma {:induction false} CountActivitiesUpdate(places: seq<string>, m: map<string, seq<PlaceActivity>>, p: string, v: seq<PlaceActivity>)
    requires NoDuplicates(places)
    ensures CountActivities(places, m[p := v]) ==
      CountActivities(places, m) + (if p in places then |v| - |Lookup(m, p)| else 0)
  {
    if |places| > 0 {
      assert NoDuplicates(places[1..]) by {
        forall i, j | 0 <= i < j < |places[1..]| ensures places[1..][i] != places[1..][j] {
          assert places[1..][i] == places[i + 1] && places[1..][j] == places[j + 1];
        }
      }
      CountActivitiesUpdate(places[1..], m, p, v);
      if places[0] == p {
        assert p !in places[1..] by {
          forall j | 0 <= j < |places[1..]| ensures places[1..][j] != p {
            assert places[1..][j] == places[j + 1];
          }
        }
      }
    }
  }

  // ----- The fold against the references -----

  /** The loop depends only on the state it reaches: running over `a + b` is running over `a`, then `b`. */
  lemma {:induction false} FoldFromAppend(t: Tally, a: seq<LedgerItem>, b: seq<LedgerItem>)
    ensures FoldFrom(t, a + b) == FoldFrom(FoldFrom(t, a), b)
    decreases |b|
  {
    if |b| == 0 {
      assert a + b == a;
    } else {
      assert (a + b)[..|a + b| - 1] == a + b[..|b| - 1];
      FoldFromAppend(t, a, b[..|b| - 1]);
    }
  }

  /** The invariant of the loop state in terms of the entries seen so far. */
  ghost predicate Reflects(t: Tally, es: seq<Entry>) {
    && t.total == SumCosts(es)
    && t.places == FirstSeen(PlaceKeys(es))
    && (forall p :: p in t.byPlace <==> p in t.places)
    && (forall p :: Lookup(t.byPlace, p) == ActivitiesAt(es, p))
    && CountActivities(t.places, t.byPlace) == |es|
  }

  /** One recognised entry keeps the invariant. */
  lemma AddReflects(t: Tally, es: seq<Entry>, e: Entry)
    requires Reflects(t, es)
    ensures Reflects(Add(t, e), es + [e])
  {
    var t' := Add(t, e);
    SumCostsSnoc(es, e);
    PlaceKeysSnoc(es, e);
    FirstSeenProperties(PlaceKeys(es));
    var keys := PlaceKeys(es) + [e.place];
    assert keys[..|keys| - 1] == PlaceKeys(es);
    forall p ensures Lookup(t'.byPlace, p) == ActivitiesAt(es + [e], p) {
      ActivitiesAtSnoc(es, e, p);
      if p == e.place && e.place !in t.byPlace {
        ActivitiesAtEmpty(es, p);
      }
    }
    var list := Lookup(t.byPlace, e.place);
    CountActivitiesUpdate(t.places, t.byPlace, e.place, list + [e.activity]);
    if e.place !in t.byPlace {
      CountActivitiesSnoc(t.places, t'.byPlace, e.place);
    }
  }

  /** After any prefix of the log the loop state is exactly what the references give for it. */
  lemma {:induction false} FoldReflects(items: seq<LedgerItem>)
    ensures Reflects(Fold(items), Entries(items))
  {
    if |items| > 0 {
      var init, last := items[..|items| - 1], items[|items| - 1];
      FoldReflects(init);
      assert items == init + [last];
      EntriesSnoc(init, last);
      match Describe(last)
      case None =>
        assert Entries(items) == Entries(init);
      case Some(e) =>
        AddReflects(Fold(init), Entries(init), e);
    }
  }

  /**
   * What `trip_summary` promises about its result: the budget is the sum of
   * the recognised costs, the places are the recognised place keys in
   * first-seen order without repeats, each place lists its activities in log
   * order, every recognised object yields exactly one activity, and the
   * summary text names every place.
   */
  lemma SummarizeProperties(items: seq<LedgerItem>)
    ensures var s := Summarize(items);
      && s.totalBudget == SumCosts(Entries(items))
      && s.places == FirstSeen(PlaceKeys(Entries(items)))
      && NoDuplicates(s.places)
      && (forall p :: p in s.activitiesByPlace <==> p in PlaceKeys(Entries(items)))
      && (forall p :: p in s.activitiesByPlace ==> s.activitiesByPlace[p] == ActivitiesAt(Entries(items), p))
      && CountActivities(s.places, s.activitiesByPlace) == |Entries(items)|
      && (forall k :: 0 <= k < |s.places| ==> Contains(s.summary, s.places[k]))
  {
    var s := Summarize(items);
    FoldReflects(items);
    FirstSeenProperties(PlaceKeys(Entries(items)));
    forall p | p in s.activitiesByPlace
      ensures s.activitiesByPlace[p] == ActivitiesAt(Entries(items), p)
    {
      assert Lookup(s.activitiesByPlace, p) == ActivitiesAt(Entries(items), p);
    }
  }

  /** An object with an unknown tag contributes nothing: removing it leaves the summary as it was. */
  lemma UnknownItemIgnored(items: seq<LedgerItem>, k: nat)
    requires k < |items| && items[k].OtherItem? && !KnownTag(items[k].reservationType)
    ensures Summarize(items[..k] + items[k + 1..]) == Summarize(items)
  {
    var pre, post := items[..k], items[k + 1..];
    assert items == (pre + [items[k]]) + post;
    FoldFromAppend(Start, pre + [items[k]], post);
    FoldFromAppend(Start, pre, post);
    assert (pre + [items[k]])[..|pre|] == pre;
  }

  /** The recognised objects are those with a known tag, in log order. */
  lemma {:induction false} EntriesAreKnownTags(items: seq<LedgerItem>)
    requires forall i :: 0 <= i < |items| ==> WellTagged(items[i])
    ensures |Entries(items)| == |KnownItems(items)|
    ensures forall i :: 0 <= i < |Entries(items)| ==> Describe(KnownItems(items)[i]) == Some(Entries(items)[i])
  {
    if |items| > 0 {
      EntriesAreKnownTags(items[1..]);
    }
  }

  /** The objects of the log whose `reservation_type` is one of the three class names. */
  function KnownItems(items: seq<LedgerItem>): seq<LedgerItem> {
    if |items| == 0 then []
    else (if KnownTag(ReservationType(items[0])) then [items[0]] else []) + KnownItems(items[1..])
  }

  /** An empty log gives a zero budget, no places and no activities. */
  lemma SummarizeEmpty()
    ensures Summarize([]).totalBudget == 0
    ensures Summarize([]).places == [] && Summarize([]).activitiesByPlace == map[]
  {
  }

  /**
   * `trip_summary` over a decoded log: the loop of the source, updating the
   * running total and the insertion-ordered dict in place.
   */
  method TripSummaryOf(items: seq<LedgerItem>) returns (s: TripSummary)
    ensures s == Summarize(items)
    ensures s.totalBudget == SumCosts(Entries(items))
    ensures s.places == FirstSeen(PlaceKeys(Entries(items)))
    ensures forall p :: p in s.activitiesByPlace ==> s.activitiesByPlace[p] == ActivitiesAt(Entries(items), p)
    ensures CountActivities(s.places, s.activitiesByPlace) == |Entries(items)|
  {
    var total := 0;
    var places: seq<string> := [];
    var byPlace: map<string, seq<PlaceActivity>> := map[];
    for i := 0 to |items|
      invariant Tally(total, places, byPlace) == Fold(items[..i])
    {
      assert items[..i + 1] == items[..i] + [items[i]];
      var entry := Describe(items[i]);
      if entry.None? {
        continue;
      }
      var e := entry.value;
      total := total + e.cost;
      if e.place !in byPlace {
        places := places + [e.place];
        byPlace := byPlace[e.place := []];
      }
      byPlace := byPlace[e.place := byPlace[e.place] + [e.activity]];
    }
    assert items[..|items|] == items;
    s := TripSummary(total, places, byPlace, SummaryText(total, places));
    SummarizeProperties(items);
  }
}
