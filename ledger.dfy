/**
 * The trip log (`trip.json`) that `save_reservation` appends to and
 * `trip_summary` reads. Each stored object carries the record's fields, with
 * dates as ISO strings and the trip type as its string value, plus a
 * `reservation_type` tag naming the record class.
 */
module Ledger {
  import opened Wrappers
  import opened Dates
  import opened Models

  const TripTag := "TripReservation"
  const HotelTag := "HotelReservation"
  const RestaurantTag := "RestaurantReservation"

  /**
   * One decoded object of the log. The first three variants are the objects
   * tagged with a known class name; `OtherItem` is any object whose
   * `reservation_type` is missing (`None`) or names something else.
   */
  datatype LedgerItem =
    | TripItem(tripType: string, date: string, departure: string, destination: string, cost: int)
    | HotelItem(checkinDate: string, checkoutDate: string, hotelName: string, city: string, cost: int)
    | RestaurantItem(reservationTime: string, restaurant: string, city: string, dish: string, cost: int)
    | OtherItem(reservationType: Option<string>)

  /** `item.get("reservation_type")`. */
  function ReservationType(item: LedgerItem): Option<string> {
    match item
    case TripItem(_, _, _, _, _) => Some(TripTag)
    case HotelItem(_, _, _, _, _) => Some(HotelTag)
    case RestaurantItem(_, _, _, _, _) => Some(RestaurantTag)
    case OtherItem(tag) => tag
  }

  predicate KnownTag(tag: Option<string>) {
    tag == Some(TripTag) || tag == Some(HotelTag) || tag == Some(RestaurantTag)
  }

  /** A decoded item whose variant agrees with its tag. */
  predicate WellTagged(item: LedgerItem) {
    item.OtherItem? ==> !KnownTag(item.reservationType)
  }

  /** The object `save_reservation` writes for a record. */
  function Serialize(r: Reservation): (item: LedgerItem)
    requires ValidReservation(r)
    ensures WellTagged(item) && KnownTag(ReservationType(item))
    ensures item.cost == r.Cost()
  {
    match r
    case Trip(t) =>
      TripItem(TripTypeValue(t.tripType), IsoDate(t.date), t.departure, t.destination, t.cost)
    case Hotel(h) =>
      HotelItem(IsoDate(h.checkinDate), IsoDate(h.checkoutDate), h.hotelName, h.city, h.cost)
    case Restaurant(m) =>
      RestaurantItem(IsoDateTime(m.reservationTime), m.restaurant, m.city, m.dish, m.cost)
  }

  /** Reading a stored object back into its record class; `None` when a field does not validate. */
  function Deserialize(item: LedgerItem): (r: Option<Reservation>)
    ensures r.Some? ==> !item.OtherItem? && ValidReservation(r.value) && r.value.Cost() == item.cost
  {
    match item
    case TripItem(tripType, date, departure, destination, cost) =>
      (match (TripTypeOf(tripType), ParseIsoDate(date))
       case (Some(k), Some(d)) => Some(Trip(TripReservation(k, d, departure, destination, cost)))
       case _ => None)
    case HotelItem(checkin, checkout, hotelName, city, cost) =>
      (match (ParseIsoDate(checkin), ParseIsoDate(checkout))
       case (Some(i), Some(o)) => Some(Hotel(HotelReservation(i, o, hotelName, city, cost)))
       case _ => None)
    case RestaurantItem(time, restaurant, city, dish, cost) =>
      (match ParseIsoDateTime(time)
       case Some(t) => Some(Restaurant(RestaurantReservation(t, restaurant, city, dish, cost)))
       case None => None)
    case OtherItem(_) => None
  }

  /** Every record survives being written and read back. */
  lemma DeserializeSerialize(r: Reservation)
    requires ValidReservation(r)
    ensures Deserialize(Serialize(r)) == Some(r)
  {
    match r
    case Trip(t) => ParseIsoDateOfIsoDate(t.date);
    case Hotel(h) =>
      ParseIsoDateOfIsoDate(h.checkinDate);
      ParseIsoDateOfIsoDate(h.checkoutDate);
    case Restaurant(m) => ParseIsoDateTimeOfIsoDateTime(m.reservationTime);
  }

  /** Every object that reads back as a record is exactly what writing that record produces. */
  lemma SerializeDeserialize(item: LedgerItem)
    requires Deserialize(item).Some?
    ensures Serialize(Deserialize(item).value) == item
  {
    match item
    case TripItem(_, date, _, _, _) => IsoDateOfParseIsoDate(date);
    case HotelItem(checkin, checkout, _, _, _) =>
      IsoDateOfParseIsoDate(checkin);
      IsoDateOfParseIsoDate(checkout);
    case RestaurantItem(time, _, _, _, _) => IsoDateTimeOfParseIsoDateTime(time);
  }

  /**
   * The log file. Whether one append succeeds is decided by the environment
   * (a full disk, a permission change between two writes), so each `Save`
   * is told its outcome `writeOk`; when it fails, `save_reservation` raises
   * and nothing is written.
   */
  class TripLog {
    var items: seq<LedgerItem>

    constructor (items: seq<LedgerItem>)
      ensures this.items == items
    {
      this.items := items;
    }

    /** `save_reservation`: append one record, or fail and leave the log as it was. */
    method Save(r: Reservation, writeOk: bool) returns (ok: bool)
      requires ValidReservation(r)
      modifies this`items
      ensures ok == writeOk
      ensures items == if ok then old(items) + [Serialize(r)] else old(items)
    {
      ok := writeOk;
      if ok {
        items := items + [Serialize(r)];
      }
    }
  }
}
