/**
 * The reservation tools of ai_assistant/tools.py. Each one builds a record
 * from its arguments and a cost (drawn by `randint` from the tool's inclusive
 * range, here passed in), saves it to the trip log and returns it. A date
 * string `fromisoformat` rejects, or a write the environment refuses
 * (`writeOk` false), raises instead, and nothing is saved.
 */
module Tools {
  import opened Wrappers
  import opened Dates
  import opened Models
  import opened Ledger

  const FlightCostMin: int := 200
  const FlightCostMax: int := 700
  const BusCostMin: int := 50
  const BusCostMax: int := 200
  const HotelCostMin: int := 100
  const HotelCostMax: int := 1000
  const RestaurantCostMin: int := 20
  const RestaurantCostMax: int := 100

  /** The default of `reserve_restaurant`'s `dish` argument. */
  const DefaultDish := "Not specified"

  /** What a tool raises. */
  datatype ToolError =
    | InvalidIsoFormat(text: string)  // `ValueError` from `fromisoformat`
    | StorageFailure                  // `save_reservation` could not write the log

  /** The part `reserve_flight` and `reserve_bus` share: they differ only in the trip type and the cost range. */
  method ReserveTrip(log: TripLog, writeOk: bool, tripType: TripType, dateStr: string, departure: string, destination: string, cost: int)
    returns (res: Result<TripReservation, ToolError>)
    modifies log`items
    ensures ParseIsoDate(dateStr).None? ==>
      res == Failure(InvalidIsoFormat(dateStr)) && log.items == old(log.items)
    ensures ParseIsoDate(dateStr).Some? && !writeOk ==>
      res == Failure(StorageFailure) && log.items == old(log.items)
    ensures ParseIsoDate(dateStr).Some? && writeOk ==>
      res == Success(TripReservation(tripType, ParseIsoDate(dateStr).value, departure, destination, cost))
      && log.items == old(log.items) + [Serialize(Trip(res.value))]
  {
    var date := ParseIsoDate(dateStr);
    if date.None? {
      return Failure(InvalidIsoFormat(dateStr));
    }
    var reservation := TripReservation(tripType, date.value, departure, destination, cost);
    var saved := log.Save(Trip(reservation), writeOk);
    if !saved {
      return Failure(StorageFailure);
    }
    return Success(reservation);
  }

  /** `reserve_flight`: a FLIGHT record with the departure and destination as given. */
  method ReserveFlight(log: TripLog, writeOk: bool, dateStr: string, departure: string, destination: string, cost: int)
    returns (res: Result<TripReservation, ToolError>)
    requires FlightCostMin <= cost <= FlightCostMax
    modifies log`items
    ensures ParseIsoDate(dateStr).None? ==>
      res == Failure(InvalidIsoFormat(dateStr)) && log.items == old(log.items)
    ensures ParseIsoDate(dateStr).Some? && !writeOk ==>
      res == Failure(StorageFailure) && log.items == old(log.items)
    ensures ParseIsoDate(dateStr).Some? && writeOk ==>
      res == Success(TripReservation(Flight, ParseIsoDate(dateStr).value, departure, destination, cost))
      && log.items == old(log.items) + [Serialize(Trip(res.value))]
    ensures res.Success? ==> FlightCostMin <= res.value.cost <= FlightCostMax
  {
    res := ReserveTrip(log, writeOk, Flight, dateStr, departure, destination, cost);
  }

  /** `reserve_bus`: a BUS record with the departure and destination as given. */
  method ReserveBus(log: TripLog, writeOk: bool, dateStr: string, departure: string, destination: string, cost: int)
    returns (res: Result<TripReservation, ToolError>)
    requires BusCostMin <= cost <= BusCostMax
    modifies log`items
    ensures ParseIsoDate(dateStr).None? ==>
      res == Failure(InvalidIsoFormat(dateStr)) && log.items == old(log.items)
    ensures ParseIsoDate(dateStr).Some? && !writeOk ==>
      res == Failure(StorageFailure) && log.items == old(log.items)
    ensures ParseIsoDate(dateStr).Some? && writeOk ==>
      res == Success(TripReservation(Bus, ParseIsoDate(dateStr).value, departure, destination, cost))
      && log.items == old(log.items) + [Serialize(Trip(res.value))]
    ensures res.Success? ==> BusCostMin <= res.value.cost <= BusCostMax
  {
    res := ReserveTrip(log, writeOk, Bus, dateStr, departure, destination, cost);
  }

  /**
   * `reserve_hotel`. It does not compare the two dates: a check-out on or
   * before the check-in is saved like any other.
   */
  method ReserveHotel(log: TripLog, writeOk: bool, checkinStr: string, checkoutStr: string, hotelName: string, city: string, cost: int)
    returns (res: Result<HotelReservation, ToolError>)
    requires HotelCostMin <= cost <= HotelCostMax
    modifies log`items
    ensures ParseIsoDate(checkinStr).None? ==>
      res == Failure(InvalidIsoFormat(checkinStr)) && log.items == old(log.items)
    ensures ParseIsoDate(checkinStr).Some? && ParseIsoDate(checkoutStr).None? ==>
      res == Failure(InvalidIsoFormat(checkoutStr)) && log.items == old(log.items)
    ensures ParseIsoDate(checkinStr).Some? && ParseIsoDate(checkoutStr).Some? && !writeOk ==>
      res == Failure(StorageFailure) && log.items == old(log.items)
    ensures ParseIsoDate(checkinStr).Some? && ParseIsoDate(checkoutStr).Some? && writeOk ==>
      res == Success(HotelReservation(ParseIsoDate(checkinStr).value, ParseIsoDate(checkoutStr).value, hotelName, city, cost))
      && log.items == old(log.items) + [Serialize(Hotel(res.value))]
    ensures res.Success? ==> HotelCostMin <= res.value.cost <= HotelCostMax
  {
    var checkin := ParseIsoDate(checkinStr);
    if checkin.None? {
      return Failure(InvalidIsoFormat(checkinStr));
    }
    var checkout := ParseIsoDate(checkoutStr);
    if checkout.None? {
      return Failure(InvalidIsoFormat(checkoutStr));
    }
    var reservation := HotelReservation(checkin.value, checkout.value, hotelName, city, cost);
    var saved := log.Save(Hotel(reservation), writeOk);
    if !saved {
      return Failure(StorageFailure);
    }
    return Success(reservation);
  }

  /** `reserve_restaurant`; `dish == None` is a call that leaves the argument out. */
  method ReserveRestaurant(log: TripLog, writeOk: bool, dateTimeStr: string, restaurant: string, city: string, dish: Option<string>, cost: int)
    returns (res: Result<RestaurantReservation, ToolError>)
    requires RestaurantCostMin <= cost <= RestaurantCostMax
    modifies log`items
    ensures ParseIsoDateTime(dateTimeStr).None? ==>
      res == Failure(InvalidIsoFormat(dateTimeStr)) && log.items == old(log.items)
    ensures ParseIsoDateTime(dateTimeStr).Some? && !writeOk ==>
      res == Failure(StorageFailure) && log.items == old(log.items)
    ensures ParseIsoDateTime(dateTimeStr).Some? && writeOk ==>
      res == Success(RestaurantReservation(ParseIsoDateTime(dateTimeStr).value, restaurant, city,
                                           if dish.Some? then dish.value else DefaultDish, cost))
      && log.items == old(log.items) + [Serialize(Restaurant(res.value))]
    ensures res.Success? ==> RestaurantCostMin <= res.value.cost <= RestaurantCostMax
  {
    var when := ParseIsoDateTime(dateTimeStr);
    if when.None? {
      return Failure(InvalidIsoFormat(dateTimeStr));
    }
    var chosenDish := if dish.Some? then dish.value else DefaultDish;
    var reservation := RestaurantReservation(when.value, restaurant, city, chosenDish, cost);
    var saved := log.Save(Restaurant(reservation), writeOk);
    if !saved {
      return Failure(StorageFailure);
    }
    return Success(reservation);
  }
}
