/**
 * A client of the tools: book a flight from La Paz to Santa Cruz and a hotel
 * in Santa Cruz, then summarise the trip, using only the contracts of the
 * reservation tools and of `trip_summary`.
 */
module Scenario {
  import opened Wrappers
  import opened Text
  import opened Dates
  import opened Models
  import opened Ledger
  import opened Tools
  import opened Summary

  lemma TwoEntries(a: LedgerItem, b: LedgerItem)
    requires !a.OtherItem? && !b.OtherItem?
    ensures Entries([a, b]) == [Describe(a).value, Describe(b).value]
  {
    var ea, eb := Describe(a).value, Describe(b).value;
    assert [a, b][1..] == [b] && [b][1..] == [];
    assert EntryOf(a) == [ea] && EntryOf(b) == [eb];
    assert Entries([b]) == [eb] + Entries([]);
  }

  /** The reference definitions on two entries at two different places. */
  lemma TwoPlaceReferences(ea: Entry, eb: Entry)
    requires ea.place != eb.place
    ensures FirstSeen(PlaceKeys([ea, eb])) == [ea.place, eb.place]
    ensures SumCosts([ea, eb]) == ea.cost + eb.cost
    ensures ActivitiesAt([ea, eb], ea.place) == [ea.activity]
    ensures ActivitiesAt([ea, eb], eb.place) == [eb.activity]
  {
    var es := [ea, eb];
    assert es[1..] == [eb] && es[1..][1..] == [];
    assert PlaceKeys(es[1..]) == [eb.place] + PlaceKeys([]);
    assert SumCosts(es[1..]) == eb.cost + SumCosts([]);
    assert ActivitiesAt(es[1..], ea.place) == [] + ActivitiesAt([], ea.place);
    assert ActivitiesAt(es[1..], eb.place) == [eb.activity] + ActivitiesAt([], eb.place);
    var keys := [ea.place, eb.place];
    assert PlaceKeys(es) == keys;
    assert keys[..1] == [ea.place] && [ea.place][..0] == [];
    assert FirstSeen([ea.place]) == [ea.place];
  }

  /** The summary of such a log: two places, one activity each, and the two costs added. */
  lemma TwoPlaceLog(a: LedgerItem, b: LedgerItem)
    requires !a.OtherItem? && !b.OtherItem?
    requires Describe(a).value.place != Describe(b).value.place
    ensures var s, pa, pb := Summarize([a, b]), Describe(a).value.place, Describe(b).value.place;
      && s.places == [pa, pb]
      && s.totalBudget == a.cost + b.cost
      && pa in s.activitiesByPlace && |s.activitiesByPlace[pa]| == 1
      && pb in s.activitiesByPlace && |s.activitiesByPlace[pb]| == 1
  {
    TwoEntries(a, b);
    TwoPlaceReferences(Describe(a).value, Describe(b).value);
    var t := Fold([a, b]);
    FoldReflects([a, b]);
    var pa, pb := Describe(a).value.place, Describe(b).value.place;
    assert Lookup(t.byPlace, pa) == ActivitiesAt(Entries([a, b]), pa);
    assert Lookup(t.byPlace, pb) == ActivitiesAt(Entries([a, b]), pb);
  }

  /** The log the scenario leaves, and its summary. */
  function ScenarioLog(arrival: Date, departure: Date, flightCost: int, hotelCost: int): seq<LedgerItem>
    requires ValidDate(arrival) && ValidDate(departure)
  {
    [Serialize(Trip(TripReservation(Flight, arrival, "La Paz", "Santa Cruz", flightCost))),
     Serialize(Hotel(HotelReservation(arrival, departure, "Los Tajibos", "Santa Cruz", hotelCost)))]
  }

  lemma ScenarioSummary(arrival: Date, departure: Date, flightCost: int, hotelCost: int)
    requires ValidDate(arrival) && ValidDate(departure)
    ensures var s := Summarize(ScenarioLog(arrival, departure, flightCost, hotelCost));
      && s.places == ["La Paz to Santa Cruz", "Santa Cruz"]
      && s.totalBudget == flightCost + hotelCost
      && "La Paz to Santa Cruz" in s.activitiesByPlace && |s.activitiesByPlace["La Paz to Santa Cruz"]| == 1
      && "Santa Cruz" in s.activitiesByPlace && |s.activitiesByPlace["Santa Cruz"]| == 1
      && Contains(s.summary, "La Paz to Santa Cruz") && Contains(s.summary, "Santa Cruz")
  {
    var items := ScenarioLog(arrival, departure, flightCost, hotelCost);
    var a, b := items[0], items[1];
    assert "La Paz" + " to " + "Santa Cruz" == "La Paz to Santa Cruz";
    assert Describe(a).value.place == "La Paz to Santa Cruz";
    assert Describe(b).value.place == "Santa Cruz";
    assert items == [a, b];
    TwoPlaceLog(a, b);
    var s := Summarize(items);
    SummarizeProperties(items);
    assert s.places[0] == "La Paz to Santa Cruz" && s.places[1] == "Santa Cruz";
  }

  method FlightAndHotelTrip(flightCost: int, hotelCost: int) returns (s: TripSummary)
    requires FlightCostMin <= flightCost <= FlightCostMax
    requires HotelCostMin <= hotelCost <= HotelCostMax
    ensures s.places == ["La Paz to Santa Cruz", "Santa Cruz"]
    ensures s.totalBudget == flightCost + hotelCost
    ensures "La Paz to Santa Cruz" in s.activitiesByPlace && |s.activitiesByPlace["La Paz to Santa Cruz"]| == 1
    ensures "Santa Cruz" in s.activitiesByPlace && |s.activitiesByPlace["Santa Cruz"]| == 1
    ensures Contains(s.summary, "La Paz to Santa Cruz") && Contains(s.summary, "Santa Cruz")
  {
    var log := new TripLog([]);
    var arrival, departure := Date(2024, 5, 1), Date(2024, 5, 3);
    var arrivalStr, departureStr := IsoDate(arrival), IsoDate(departure);
    ParseIsoDateOfIsoDate(arrival);
    ParseIsoDateOfIsoDate(departure);
    var flight := ReserveFlight(log, true, arrivalStr, "La Paz", "Santa Cruz", flightCost);
    var hotel := ReserveHotel(log, true, arrivalStr, departureStr, "Los Tajibos", "Santa Cruz", hotelCost);
    assert log.items == ScenarioLog(arrival, departure, flightCost, hotelCost);
    ScenarioSummary(arrival, departure, flightCost, hotelCost);
    s := TripSummaryOf(log.items);
  }
}
