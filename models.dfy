/** The reservation record types and the trip summary of ai_assistant/models.py. */
module Models {
  import opened Wrappers
  import opened Dates

  /** The kind of a trip reservation, a string enum. */
  datatype TripType = Flight | Bus

  /** The string value of each member. */
  function TripTypeValue(t: TripType): string {
    match t
    case Flight => "FLIGHT"
    case Bus => "BUS"
  }

  /** `TripType(value)`: the member with that string value, `None` for the `ValueError`. */
  function TripTypeOf(value: string): (r: Option<TripType>)
    ensures r.Some? ==> TripTypeValue(r.value) == value
    ensures r.None? <==> value != "FLIGHT" && value != "BUS"
  {
    if value == "FLIGHT" then Some(Flight)
    else if value == "BUS" then Some(Bus)
    else None
  }

  /** Member to value and back is the identity, and the two values differ. */
  lemma TripTypeBijection(s: TripType, t: TripType)
    ensures TripTypeOf(TripTypeValue(t)) == Some(t)
    ensures TripTypeValue(s) == TripTypeValue(t) ==> s == t
  {
  }

  datatype TripReservation = TripReservation(
    tripType: TripType,
    date: Date,
    departure: string,
    destination: string,
    cost: int)

  /** No ordering between check-in and check-out is imposed by the type. */
  datatype HotelReservation = HotelReservation(
    checkinDate: Date,
    checkoutDate: Date,
    hotelName: string,
    city: string,
    cost: int)

  datatype RestaurantReservation = RestaurantReservation(
    reservationTime: DateTime,
    restaurant: string,
    city: string,
    dish: string,
    cost: int)

  /** Any of the three records a reservation tool writes. */
  datatype Reservation =
    | Trip(trip: TripReservation)
    | Hotel(hotel: HotelReservation)
    | Restaurant(table: RestaurantReservation)
  {
    function Cost(): int {
      match this
      case Trip(t) => t.cost
      case Hotel(h) => h.cost
      case Restaurant(r) => r.cost
    }
  }

  /** The field-level validation pydantic gives: every date and time is a real calendar value. */
  predicate ValidReservation(r: Reservation) {
    match r
    case Trip(t) => ValidDate(t.date)
    case Hotel(h) => ValidDate(h.checkinDate) && ValidDate(h.checkoutDate)
    case Restaurant(m) => ValidDateTime(m.reservationTime)
  }

  /** One entry of a place's activity list: the string-keyed map {date, description, cost}. */
  datatype PlaceActivity = PlaceActivity(date: string, description: string, cost: string)

  /**
   * `TripSummary`. `activities_by_place` is an insertion-ordered dict: `places`
   * holds its keys in insertion order and `activitiesByPlace` the lists.
   * `totalBudget` is a whole number because every stored cost is an integer.
   */
  datatype TripSummary = TripSummary(
    totalBudget: int,
    places: seq<string>,
    activitiesByPlace: map<string, seq<PlaceActivity>>,
    summary: string)
}
