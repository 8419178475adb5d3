/**
 * The reservation endpoints of ai_assistant/api.py without the web
 * framework: each checks its input, calls the reservation tools (which save
 * to the trip log) and builds a `ReservationAPIResponse`; any exception is
 * turned into an HTTP 400 error carrying it.
 */
module Api {
  import opened Wrappers
  import opened Dates
  import opened Models
  import opened Ledger
  import opened Tools
  import opened Text

  /** `reserve_flight_message`: the confirmation names the route and the date it was booked for. */
  function ReserveFlightMessage(dateStr: string, departure: string, destination: string): (m: string)
    ensures Contains(m, departure) && Contains(m, destination) && Contains(m, dateStr)
  {
    var m := "Flight booked from " + departure + " to " + destination + " on " + dateStr;
    ContainsAtEnd("Flight booked from ", departure);
    ContainsInPrefix("Flight booked from " + departure, " to ", departure);
    ContainsInPrefix("Flight booked from " + departure + " to ", destination, departure);
    ContainsInPrefix("Flight booked from " + departure + " to " + destination, " on ", departure);
    ContainsInPrefix("Flight booked from " + departure + " to " + destination + " on ", dateStr, departure);
    ContainsAtEnd("Flight booked from " + departure + " to ", destination);
    ContainsInPrefix("Flight booked from " + departure + " to " + destination, " on ", destination);
    ContainsInPrefix("Flight booked from " + departure + " to " + destination + " on ", dateStr, destination);
    ContainsAtEnd("Flight booked from " + departure + " to " + destination + " on ", dateStr);
    m
  }

  /** `reserve_bus_message`: the confirmation names the route and the date it was booked for. */
  function ReserveBusMessage(dateStr: string, departure: string, destination: string): (m: string)
    ensures Contains(m, departure) && Contains(m, destination) && Contains(m, dateStr)
  {
    var m := "Bus ticket booked from " + departure + " to " + destination + " on " + dateStr;
    ContainsAtEnd("Bus ticket booked from ", departure);
    ContainsInPrefix("Bus ticket booked from " + departure, " to ", departure);
    ContainsInPrefix("Bus ticket booked from " + departure + " to ", destination, departure);
    ContainsInPrefix("Bus ticket booked from " + departure + " to " + destination, " on ", departure);
    ContainsInPrefix("Bus ticket booked from " + departure + " to " + destination + " on ", dateStr, departure);
    ContainsAtEnd("Bus ticket booked from " + departure + " to ", destination);
    ContainsInPrefix("Bus ticket booked from " + departure + " to " + destination, " on ", destination);
    ContainsInPrefix("Bus ticket booked from " + departure + " to " + destination + " on ", dateStr, destination);
    ContainsAtEnd("Bus ticket booked from " + departure + " to " + destination + " on ", dateStr);
    m
  }

  /** `reserve_hotel_message`: the confirmation names the hotel, the city and both dates. */
  function ReserveHotelMessage(startDateStr: string, endDateStr: string, hotel: string, city: string): (m: string)
    ensures Contains(m, hotel) && Contains(m, city) && Contains(m, startDateStr) && Contains(m, endDateStr)
  {
    var m := "Hotel room booked at " + hotel + " in " + city + " from " + startDateStr + " to " + endDateStr;
    ContainsAtEnd("Hotel room booked at ", hotel);
    ContainsInPrefix("Hotel room booked at " + hotel, " in ", hotel);
    ContainsInPrefix("Hotel room booked at " + hotel + " in ", city, hotel);
    ContainsInPrefix("Hotel room booked at " + hotel + " in " + city, " from ", hotel);
    ContainsInPrefix("Hotel room booked at " + hotel + " in " + city + " from ", startDateStr, hotel);
    ContainsInPrefix("Hotel room booked at " + hotel + " in " + city + " from " + startDateStr, " to ", hotel);
    ContainsInPrefix("Hotel room booked at " + hotel + " in " + city + " from " + startDateStr + " to ", endDateStr, hotel);
    ContainsAtEnd("Hotel room booked at " + hotel + " in ", city);
    ContainsInPrefix("Hotel room booked at " + hotel + " in " + city, " from ", city);
    ContainsInPrefix("Hotel room booked at " + hotel + " in " + city + " from ", startDateStr, city);
    ContainsInPrefix("Hotel room booked at " + hotel + " in " + city + " from " + startDateStr, " to ", city);
    ContainsInPrefix("Hotel room booked at " + hotel + " in " + city + " from " + startDateStr + " to ", endDateStr, city);
    ContainsAtEnd("Hotel room booked at " + hotel + " in " + city + " from ", startDateStr);
    ContainsInPrefix("Hotel room booked at " + hotel + " in " + city + " from " + startDateStr, " to ", startDateStr);
    ContainsInPrefix("Hotel room booked at " + hotel + " in " + city + " from " + startDateStr + " to ", endDateStr, startDateStr);
    ContainsAtEnd("Hotel room booked at " + hotel + " in " + city + " from " + startDateStr + " to ", endDateStr);
    m
  }

  /** `reserve_restaurant_message`: the confirmation names the restaurant, the city, the date and the time. */
  function ReserveRestaurantMessage(dateStr: string, time: string, restaurant: string, city: string): (m: string)
    ensures Contains(m, restaurant) && Contains(m, city) && Contains(m, dateStr) && Contains(m, time)
  {
    var m := "Table reserved at " + restaurant + " in " + city + " on " + dateStr + " at " + time;
    ContainsAtEnd("Table reserved at ", restaurant);
    ContainsInPrefix("Table reserved at " + restaurant, " in ", restaurant);
    ContainsInPrefix("Table reserved at " + restaurant + " in ", city, restaurant);
    ContainsInPrefix("Table reserved at " + restaurant + " in " + city, " on ", restaurant);
    ContainsInPrefix("Table reserved at " + restaurant + " in " + city + " on ", dateStr, restaurant);
    ContainsInPrefix("Table reserved at " + restaurant + " in " + city + " on " + dateStr, " at ", restaurant);
    ContainsInPrefix("Table reserved at " + restaurant + " in " + city + " on " + dateStr + " at ", time, restaurant);
    ContainsAtEnd("Table reserved at " + restaurant + " in ", city);
    ContainsInPrefix("Table reserved at " + restaurant + " in " + city, " on ", city);
    ContainsInPrefix("Table reserved at " + restaurant + " in " + city + " on ", dateStr, city);
    ContainsInPrefix("Table reserved at " + restaurant + " in " + city + " on " + dateStr, " at ", city);
    ContainsInPrefix("Table reserved at " + restaurant + " in " + city + " on " + dateStr + " at ", time, city);
    ContainsAtEnd("Table reserved at " + restaurant + " in " + city + " on ", dateStr);
    ContainsInPrefix("Table reserved at " + restaurant + " in " + city + " on " + dateStr, " at ", dateStr);
    ContainsInPrefix("Table reserved at " + restaurant + " in " + city + " on " + dateStr + " at ", time, dateStr);
    ContainsAtEnd("Table reserved at " + restaurant + " in " + city + " on " + dateStr + " at ", time);
    m
  }

  /** A flight confirmation and a bus confirmation are never the same text, whatever the routes and dates. */
  lemma FlightAndBusMessagesDiffer(dateStr: string, departure: string, destination: string,
                                   busDateStr: string, busDeparture: string, busDestination: string)
    ensures ReserveFlightMessage(dateStr, departure, destination) != ReserveBusMessage(busDateStr, busDeparture, busDestination)
  {
    assert ReserveFlightMessage(dateStr, departure, destination)[0] == 'F';
    assert ReserveBusMessage(busDateStr, busDeparture, busDestination)[0] == 'B';
  }

  /** The text of the `InvalidDateOrderException` the hotel endpoint raises. */
  const InvalidDateOrderText := "La fecha de checkout debe ser posterior a la fecha de checkin"

  /** The exceptions an endpoint turns into an HTTP 400. */
  datatype ApiFailure =
    | InvalidDateOrder(text: string)   // `InvalidDateOrderException`
    | ToolFailed(cause: ToolError)     // raised inside a reservation tool
    | ResponseValidation               // pydantic rejected a field of the response

  datatype HttpError = HttpError(statusCode: int, detail: ApiFailure)

  datatype ReservationApiResponse = ReservationApiResponse(status: string, message: string)

  /** A value passed for the response's `message` field: a string, or a reservation record. */
  datatype FieldValue = Text(text: string) | Record(record: Reservation)

  /** `ReservationAPIResponse(status=..., message=...)`: the `message: str` field accepts only a string. */
  function MakeResponse(status: string, message: FieldValue): (r: Result<ReservationApiResponse, ApiFailure>)
    ensures r.Success? <==> message.Text?
    ensures r.Success? ==> r.value == ReservationApiResponse(status, message.text)
  {
    match message
    case Text(s) => Success(ReservationApiResponse(status, s))
    case Record(_) => Failure(ResponseValidation)
  }

  /** `except Exception as e: raise HTTPException(status_code=400, detail=str(e))`. */
  function BadRequest<T>(failure: ApiFailure): Result<T, HttpError> {
    Failure(HttpError(400, failure))
  }

  /** The body of an endpoint's `try`: the tool's outcome, then the response built from `message`. */
  function Attempt<T>(reserved: Result<T, ToolError>, message: FieldValue): Result<ReservationApiResponse, ApiFailure> {
    match reserved
    case Failure(e) => Failure(ToolFailed(e))
    case Success(_) => MakeResponse("Success", message)
  }

  /** The `try`/`except` of every endpoint: whatever was raised becomes an HTTP 400, never a "Success". */
  function Respond(outcome: Result<ReservationApiResponse, ApiFailure>): (r: Result<ReservationApiResponse, HttpError>)
    ensures r.Success? <==> outcome.Success?
    ensures r.Success? ==> r.value == outcome.value
    ensures r.Failure? ==> r.error == HttpError(400, outcome.error)
  {
    match outcome
    case Success(response) => Success(response)
    case Failure(f) => BadRequest(f)
  }

  /** `POST /reservations/flight`. */
  method ReserveFlightEndpoint(log: TripLog, writeOk: bool, origin: string, destination: string, travelDate: Date, cost: int)
    returns (res: Result<ReservationApiResponse, HttpError>)
    requires ValidDate(travelDate)
    requires FlightCostMin <= cost <= FlightCostMax
    modifies log`items
    ensures writeOk ==>
      res == Success(ReservationApiResponse("Success", ReserveFlightMessage(IsoDate(travelDate), origin, destination)))
      && log.items == old(log.items) + [Serialize(Trip(TripReservation(Flight, travelDate, origin, destination, cost)))]
    ensures !writeOk ==>
      res == BadRequest(ToolFailed(StorageFailure)) && log.items == old(log.items)
  {
    ParseIsoDateOfIsoDate(travelDate);
    var reserved := ReserveFlight(log, writeOk, IsoDate(travelDate), origin, destination, cost);
    return Respond(Attempt(reserved, Text(ReserveFlightMessage(IsoDate(travelDate), origin, destination))));
  }

  /**
   * `POST /reservations/bus` as written: it reserves twice and hands the
   * second record, not a message, to the response, which the `message: str`
   * field rejects. It never answers "Success". Each of the two saves
   * succeeds or fails on its own, so the log gains two bus records, one
   * (when only the second write fails) or none.
   */
  method ReserveBusEndpointAsWritten(log: TripLog, firstWriteOk: bool, secondWriteOk: bool,
                                     origin: string, destination: string, travelDate: Date,
                                     firstCost: int, secondCost: int)
    returns (res: Result<ReservationApiResponse, HttpError>)
    requires ValidDate(travelDate)
    requires BusCostMin <= firstCost <= BusCostMax && BusCostMin <= secondCost <= BusCostMax
    modifies log`items
    ensures res.Failure? && res.error.statusCode == 400
    ensures !firstWriteOk ==>
      res == BadRequest(ToolFailed(StorageFailure)) && log.items == old(log.items)
    ensures firstWriteOk && !secondWriteOk ==>
      res == BadRequest(ToolFailed(StorageFailure))
      && log.items == old(log.items) + [Serialize(Trip(TripReservation(Bus, travelDate, origin, destination, firstCost)))]
    ensures firstWriteOk && secondWriteOk ==>
      res == BadRequest(ResponseValidation)
      && log.items == old(log.items)
         + [Serialize(Trip(TripReservation(Bus, travelDate, origin, destination, firstCost))),
            Serialize(Trip(TripReservation(Bus, travelDate, origin, destination, secondCost)))]
  {
    ParseIsoDateOfIsoDate(travelDate);
    var first := ReserveBus(log, firstWriteOk, IsoDate(travelDate), origin, destination, firstCost);
    if first.Failure? {
      return BadRequest(ToolFailed(first.error));
    }
    var second := ReserveBus(log, secondWriteOk, IsoDate(travelDate), origin, destination, secondCost);
    var outcome := match second
      case Failure(e) => Failure(ToolFailed(e))
      case Success(record) => MakeResponse("Success", Record(Trip(record)));
    return Respond(outcome);
  }

  /** `POST /reservations/bus` as evidently intended: one reservation, answered like the flight endpoint. */
  method ReserveBusEndpoint(log: TripLog, writeOk: bool, origin: string, destination: string, travelDate: Date, cost: int)
    returns (res: Result<ReservationApiResponse, HttpError>)
    requires ValidDate(travelDate)
    requires BusCostMin <= cost <= BusCostMax
    modifies log`items
    ensures writeOk ==>
      res == Success(ReservationApiResponse("Success", ReserveBusMessage(IsoDate(travelDate), origin, destination)))
      && log.items == old(log.items) + [Serialize(Trip(TripReservation(Bus, travelDate, origin, destination, cost)))]
    ensures !writeOk ==>
      res == BadRequest(ToolFailed(StorageFailure)) && log.items == old(log.items)
  {
    ParseIsoDateOfIsoDate(travelDate);
    var reserved := ReserveBus(log, writeOk, IsoDate(travelDate), origin, destination, cost);
    return Respond(Attempt(reserved, Text(ReserveBusMessage(IsoDate(travelDate), origin, destination))));
  }

  /** `POST /reservations/hotel`: dates out of order are refused before anything is saved. */
  method ReserveHotelEndpoint(log: TripLog, writeOk: bool, startDate: Date, endDate: Date, hotel: string, city: string, cost: int)
    returns (res: Result<ReservationApiResponse, HttpError>)
    requires ValidDate(startDate) && ValidDate(endDate)
    requires HotelCostMin <= cost <= HotelCostMax
    modifies log`items
    ensures AtOrBefore(endDate, startDate) ==>
      res == BadRequest(InvalidDateOrder(InvalidDateOrderText)) && log.items == old(log.items)
    ensures Before(startDate, endDate) && writeOk ==>
      res == Success(ReservationApiResponse("Success",
                       ReserveHotelMessage(IsoDate(startDate), IsoDate(endDate), hotel, city)))
      && log.items == old(log.items) + [Serialize(Hotel(HotelReservation(startDate, endDate, hotel, city, cost)))]
    ensures Before(startDate, endDate) && !writeOk ==>
      res == BadRequest(ToolFailed(StorageFailure)) && log.items == old(log.items)
  {
    if AtOrBefore(endDate, startDate) {
      return BadRequest(InvalidDateOrder(InvalidDateOrderText));
    }
    AtOrBeforeTotal(endDate, startDate);
    ParseIsoDateOfIsoDate(startDate);
    ParseIsoDateOfIsoDate(endDate);
    var reserved := ReserveHotel(log, writeOk, IsoDate(startDate), IsoDate(endDate), hotel, city, cost);
    return Respond(Attempt(reserved, Text(ReserveHotelMessage(IsoDate(startDate), IsoDate(endDate), hotel, city))));
  }

  /**
   * `POST /reservations/restaurant`: the date and time are combined into one
   * ISO date-time and no dish is passed, so the default dish is stored.
   */
  method ReserveRestaurantEndpoint(log: TripLog, writeOk: bool, reservationDate: Date, time: Time, restaurant: string, city: string, cost: int)
    returns (res: Result<ReservationApiResponse, HttpError>)
    requires ValidDate(reservationDate) && ValidTime(time)
    requires RestaurantCostMin <= cost <= RestaurantCostMax
    modifies log`items
    ensures writeOk ==>
      res == Success(ReservationApiResponse("Success",
                       ReserveRestaurantMessage(IsoDate(reservationDate), IsoTime(time), restaurant, city)))
      && log.items == old(log.items)
         + [Serialize(Restaurant(RestaurantReservation(DateTime(reservationDate, time), restaurant, city, DefaultDish, cost)))]
    ensures !writeOk ==>
      res == BadRequest(ToolFailed(StorageFailure)) && log.items == old(log.items)
  {
    var when := DateTime(reservationDate, time);
    ParseIsoDateTimeOfIsoDateTime(when);
    var reserved := ReserveRestaurant(log, writeOk, IsoDateTime(when), restaurant, city, None, cost);
    return Respond(Attempt(reserved, Text(ReserveRestaurantMessage(IsoDate(reservationDate), IsoTime(time), restaurant, city))));
  }
}
