# Travel assistant reservations: ledger, tools and trip summary

A Dafny model of the deterministic part of a travel-planning assistant
(`ai_assistant`). The model covers:

- the reservation record types (a FLIGHT or BUS trip, a hotel stay, a restaurant table);
- the four reservation tools, each of which saves one record to the trip log and returns it;
- `trip_summary`, which folds the log into a total budget, activities grouped by
  place, and a one-line summary;
- the four `/reservations/*` HTTP endpoints, without the web framework.

Modules, one per component:

- `Wrappers`: `Option` and `Result`.
- `Text`: decimal digits, zero padding, `str.join`, and substring containment.
- `Dates`: calendar dates and times.
  - ISO text in both directions, with round-trip lemmas both ways.
  - Python's date ordering.
- `Models` (`ai_assistant/models.py`): `TripType`, the three record types,
  the activity entry and `TripSummary`.
- `Ledger`: the trip log.
  - The stored objects are tagged with `reservation_type`.
  - `Serialize` and `Deserialize` are proved inverse.
  - Class `TripLog` holds the log as a `seq` field. Its `Save` method stands for `save_reservation`.
- `Tools` (`ai_assistant/tools.py:33-157`): `ReserveFlight`, `ReserveBus`,
  `ReserveHotel` and `ReserveRestaurant`, as methods that change the log.
- `Summary` (`ai_assistant/tools.py:163-234`): the fold.
  - `Fold`/`Summarize` is its functional specification.
  - `TripSummaryOf` is the source's loop, proved equal to that specification.
  - Independent reference definitions (`Entries`, `SumCosts`, `PlaceKeys`,
    `ActivitiesAt`, `FirstSeen`) are proved to describe the result.
- `Api` (`ai_assistant/api.py`): the message builders and the endpoint bodies.
- `Scenario`: a client that books a flight and a hotel, then summarises the trip.
  It relies only on the contracts above.

Parameters that stand for the environment:

- Cost: each tool's `randint` draw is an argument whose precondition is the tool's inclusive range.
- Log write failure: every save is given its own outcome `writeOk`, so one write can succeed
  and the next fail. When it is false, `save_reservation` raises and nothing is written.

Behaviour of the code that a reader might not expect, and that the model keeps:

- The hotel *tool* does not compare check-in and check-out. Only the hotel *endpoint* refuses
  `end_date <= start_date`.
- The default dish is `"Not specified"`.
- The bus endpoint reserves twice (see Findings).

## Model

| member | source | states |
|---|---|---|
| `Models.TripTypeOf` | ai_assistant/models.py:6-8 | Only "FLIGHT" and "BUS" name a member. Each value maps back to the member whose value it is. |
| `Models.TripTypeBijection` | ai_assistant/models.py:6-8 | Member to value and back is the identity, and the two members have different values. |
| `Dates.AtOrBeforeTotal` | ai_assistant/api.py:129 | `end <= start` fails exactly when `start < end`, so the hotel check lets through exactly the strictly later check-outs. |
| `Dates.ParseIsoDateOfIsoDate` | ai_assistant/api.py:99 | `date.fromisoformat(d.isoformat()) == d` for every valid date, so an endpoint's date never makes a tool raise. |
| `Dates.IsoDateOfParseIsoDate` | ai_assistant/tools.py:52 | A date string the tool accepts is exactly the ISO text of the date it yields. |
| `Dates.ParseIsoTimeOfIsoTime` | ai_assistant/api.py:153 | A time survives `isoformat` and parsing back. |
| `Dates.IsoTimeOfParseIsoTime` | ai_assistant/api.py:153 | An accepted time string is the ISO text of the time it yields. |
| `Dates.ParseIsoDateTimeOfIsoDateTime` | ai_assistant/api.py:147-149 | `datetime.fromisoformat(datetime.combine(d, t).isoformat())` gives back `d` and `t`. |
| `Dates.IsoDateTimeOfParseIsoDateTime` | ai_assistant/tools.py:144 | An accepted date-time string is the ISO text of the value it yields. |
| `Ledger.Serialize` | ai_assistant/models.py:11-32 | The stored object of a record is tagged with one of the three class names and keeps the record's cost. |
| `Ledger.Deserialize` | ai_assistant/models.py:11-32 | An object that reads back as a record is not an unknown-tag object. The record it yields is valid and has the same cost. |
| `Ledger.DeserializeSerialize` | ai_assistant/models.py:11-32 | Every valid record reads back unchanged from the object saved for it. |
| `Ledger.SerializeDeserialize` | ai_assistant/models.py:11-32 | Every object that reads back as a record is exactly the object saved for that record. |
| `Ledger.TripLog.Save` | ai_assistant/tools.py:56 | Appends exactly the record's object and leaves earlier entries as they were, or fails and changes nothing. |
| `Tools.ReserveTrip` | ai_assistant/tools.py:48-57 | A bad date raises with nothing saved. A refused write raises with nothing saved. Otherwise the record of the given type, with departure and destination verbatim, is both returned and appended. |
| `Tools.ReserveFlight` | ai_assistant/tools.py:33-57 | Type FLIGHT, cost in [200, 700], and the same three outcomes as `ReserveTrip`. |
| `Tools.ReserveBus` | ai_assistant/tools.py:63-87 | Type BUS, cost in [50, 200], and the same three outcomes as `ReserveTrip`. |
| `Tools.ReserveHotel` | ai_assistant/tools.py:93-120 | Cost in [100, 1000]. An unparsable check-in raises first, then an unparsable check-out. The dates are not compared: any order is saved. The returned record is the appended one. |
| `Tools.ReserveRestaurant` | ai_assistant/tools.py:126-157 | Cost in [20, 100]. The dish is "Not specified" when none is given. A bad date-time raises with nothing saved. The returned record is the appended one. |
| `Summary.Money` | ai_assistant/tools.py:211 | `f"{cost:.2f}"` of a whole number ends in ".00" and starts with "-" exactly for negative amounts. |
| `Summary.MoneyInjective` | ai_assistant/tools.py:211 | Different amounts never print alike. |
| `Summary.Describe` | ai_assistant/tools.py:183-201 | Exactly the objects with a known tag are recognised. Place key, activity date and description follow the record kind. A trip gives "departure to destination", `date` and "Flight from departure to destination". A hotel gives the city, `checkin_date` and "Hotel stay at hotel from checkin to checkout". A restaurant gives the city, `reservation_time` and "Restaurant reservation at restaurant at time". The cost is carried and formatted as "$…". |
| `Summary.TripTypeIgnored` | ai_assistant/tools.py:184-189 | The trip type plays no part: changing it leaves a trip's activity unchanged. |
| `Summary.BusDescribedAsFlight` | ai_assistant/tools.py:184-189 | A saved BUS reservation is summarised under its route as "Flight from departure to destination", dated with its ISO date. |
| `Summary.SkipsExactlyUnknownTags` | ai_assistant/tools.py:183-199 | For a consistently tagged object, it is skipped exactly when `reservation_type` is missing or not one of the three class names. |
| `Summary.SummaryText` | ai_assistant/tools.py:227-228 | The summary string shows the budget formatted with two decimals and names every place. |
| `Summary.Summarize` | ai_assistant/tools.py:230-234 | The returned summary text is built from the returned budget and places. The dict's keys are exactly the listed places, and no place is listed twice. |
| `Summary.FirstSeenProperties` | ai_assistant/tools.py:204-205 | The first-seen list of keys has no repeats, has the same elements as the input, and orders them by first occurrence. |
| `Summary.FoldFromAppend` | ai_assistant/tools.py:182-213 | The loop over `a + b` is the loop over `b` started from the state reached after `a`. |
| `Summary.AddReflects` | ai_assistant/tools.py:201-213 | One recognised object keeps the loop invariant: budget = sum of costs, keys = first-seen place keys, dict keys = those keys, each list = that place's activities in order, activity count = entry count. |
| `Summary.FoldReflects` | ai_assistant/tools.py:178-213 | After any prefix of the log, the loop state satisfies that invariant for the objects recognised so far. |
| `Summary.SummarizeProperties` | ai_assistant/tools.py:178-234 | `total_budget` is the sum of the recognised costs. The places are the recognised place keys in first-seen order without repeats. Each place lists exactly its activities in log order. The activity count equals the number of recognised objects. The summary text names every place. |
| `Summary.UnknownItemIgnored` | ai_assistant/tools.py:198-199 | Removing an object with an unknown or missing tag leaves the whole summary unchanged. |
| `Summary.EntriesAreKnownTags` | ai_assistant/tools.py:183-199 | The recognised objects are, one for one and in order, the objects whose tag is one of the three class names. |
| `Summary.SummarizeEmpty` | ai_assistant/tools.py:178-179 | An empty log gives budget 0, no places and an empty dict. |
| `Summary.TripSummaryOf` | ai_assistant/tools.py:163-234 | The loop that updates the total and the insertion-ordered dict in place returns the functional summary. It carries the budget, place-order, per-place and count properties above. |
| `Api.ReserveFlightMessage` | ai_assistant/api.py:23-24 | The flight confirmation names the departure, the destination and the date. |
| `Api.ReserveBusMessage` | ai_assistant/api.py:27-28 | The bus confirmation names the departure, the destination and the date. |
| `Api.ReserveHotelMessage` | ai_assistant/api.py:33-36 | The hotel confirmation names the hotel, the city and both dates. |
| `Api.ReserveRestaurantMessage` | ai_assistant/api.py:39-44 | The table confirmation names the restaurant, the city, the date and the time. |
| `Api.FlightAndBusMessagesDiffer` | ai_assistant/api.py:23-28 | A consequence of the two formats, not a promise of the source: a flight confirmation and a bus confirmation never coincide, whatever the routes and dates. |
| `Api.MakeResponse` | ai_assistant/models.py:39-42 | A response is built exactly when `message` is a string, and then carries that string. |
| `Api.Respond` | ai_assistant/api.py:106-107 | Whatever was raised in an endpoint becomes an HTTP 400 carrying it, never a "Success". A response is passed through unchanged. |
| `Api.ReserveFlightEndpoint` | ai_assistant/api.py:94-107 | When the write succeeds: one FLIGHT record appended, and "Success" with "Flight booked from {origin} to {destination} on {date}". Otherwise: 400 with nothing appended. |
| `Api.ReserveBusEndpointAsWritten` | ai_assistant/api.py:110-121 | Never "Success", always 400. If the first write is refused, nothing is appended. If only the second is refused, one BUS record stays in the log. If both succeed, two BUS records are appended before the response is rejected. |
| `Api.ReserveBusEndpoint` | ai_assistant/api.py:27-28 | Corrected endpoint: one BUS record and "Success" with "Bus ticket booked from … to … on …". Otherwise 400 with nothing appended. |
| `Api.ReserveHotelEndpoint` | ai_assistant/api.py:124-139 | `end_date <= start_date` gives 400 InvalidDateOrder with nothing appended. Otherwise one hotel record and "Hotel room booked at {hotel} in {city} from {start} to {end}", or 400 when the log cannot be written. |
| `Api.ReserveRestaurantEndpoint` | ai_assistant/api.py:142-157 | Stores the combined date-time and the default dish, then answers "Table reserved at {restaurant} in {city} on {date} at {time}". Otherwise 400 with nothing appended. |
| `Scenario.FlightAndHotelTrip` | ai_assistant/tools.py:163-234 | A flight La Paz to Santa Cruz plus a hotel in Santa Cruz summarise to the places "La Paz to Santa Cruz" and "Santa Cruz", one activity each, and a budget equal to the two costs. The summary text names both places. |

## Left out

- The travel-guide retrieval tool and the `QueryEngineTool`/`FunctionTool` wrappers: they are calls into an external library.
- The reasoning agent and its loop, and the recommendation and trip-report endpoints that only call `agent.chat`: `ai_assistant/agent.py` is not part of this model.
- Reading `trip.json` and decoding its JSON are not modelled. `Summary.TripSummaryOf` takes the already-decoded sequence of objects.
  - The source fails on a missing log file ("Trip log file not found") and on a file it cannot decode. The model has no file, so `Summary.TripSummaryOf` never fails.
  - So is the `KeyError` for an object that has a known tag but lacks a field.
- `save_reservation` (`ai_assistant/utils.py`) is not part of this model. `TripLog.Save` appends the record's fields plus a `reservation_type` naming its class. That tag format is the one `trip_summary` reads back.
  - The model assumes dates are stored as `isoformat()` text: "2024-05-01", and "2024-05-01T19:00:00" with a 'T' for the restaurant date-time. If `save_reservation` wrote them another way, for example through `str()` ("2024-05-01 19:00:00"), the restaurant activity's date and description would carry that text instead.
- `randint`: each cost is an argument constrained to the tool's range.
- `Dates.ParseIsoDate`, `Dates.ParseIsoDateTime`: these accept only `YYYY-MM-DD` and the 19-character `YYYY-MM-DDTHH:MM:SS`.
  - For date-times this is a strict subset of what `datetime.fromisoformat` accepts in every Python from 3.7 on. That function also accepts "2024-05-01T19:00", "2024-05-01 19:00:00" (any separator) and a bare "2024-05-01". The model reports those as errors, so `Tools.ReserveRestaurant` fails on strings that `reserve_restaurant` books.
  - For dates, `date.fromisoformat` accepts only `YYYY-MM-DD` before Python 3.11. From 3.11 it also accepts forms such as "20240501", which the model rejects.
  - Microseconds and time zones are not modelled.
- The endpoints take already-validated `Date`/`Time` values. The framework's parsing of query parameters, and its 422 answer to unparsable ones, are not modelled.
- `Summary.Money`: `total_budget` and each cost are Python floats. The model keeps them as exact integers, because every stored cost is an `int`. It does not model rounding of sums beyond 2^53.
- HTTP error detail: `str(e)` is modelled as the `ApiFailure` value. The text of the operating-system error for an unwritable log is not known here.
- The `print` calls, and the `activities_text` string that is built but never returned.
- The `Activity` class in `models.py`: it is imported by the tools but never constructed.
- `AgentAPIResponse`, and the `timestamp` defaults of both response models: they read the wall clock.
- Concurrent writers to the log: the model is sequential.
- `ai_assistant/prompts.py`: it is prompt text only.
- `ai_assistant/chatbot.py`: it is the chat UI.
- Each activity's string-keyed dict `{date, description, cost}` is the datatype `PlaceActivity` with those three fields.

## Findings

| source | as written | input that shows it | evidently intended | confidence | as-written member | corrected member |
|---|---|---|---|---|---|---|
| ai_assistant/api.py:115-118 | The bus endpoint calls `reserve_bus` twice. It passes the returned `TripReservation` as `message`, a `str` field of `ReservationAPIResponse`. Validation rejects it, so the request always ends in HTTP 400, after saving two bus reservations when both writes succeed. | any valid request whose two writes succeed, e.g. origin "La Paz", destination "Sucre", travel_date 2024-05-01 | one `reserve_bus` call and `message=reserve_bus_message(...)` (defined at lines 27-28 and otherwise unused) | not executed; relies on the response model refusing a model instance for a `str` field | `Api.ReserveBusEndpointAsWritten` | `Api.ReserveBusEndpoint` |
