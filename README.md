# fr24-rs schedule consolidation, in Dafny

This project models the consolidation engine of fr24-rs (`src/flight_history.rs`).
The engine takes the decoded historical records of a flight number and folds them
into a two-level map: flight number → route key `"{origin}-{destination}"` →
`FlightInfo`. A `FlightInfo` holds a route's origin and destination ICAO codes
and five sets: scheduled departure times of day, scheduled arrival times of day,
weekdays, aircraft model codes and callsigns.

Files and modules:

- `clock.dfy` (`Clock`): the two calendar views chrono takes of a scheduled
  instant. Instants are Unix seconds, as `ts_seconds_option` decodes them.
  `TimeOf(t)` is the UTC time of day. `WeekdayOf(t)` is the UTC weekday, with
  1970-01-01 a Thursday. Dafny's Euclidean `/` and `%` match chrono's
  `div_euclid` split for instants before 1970.
- `flight_history.dfy` (`FlightHistory`): the fields of `Flight` that the fold
  reads, `FlightInfo`, the route key, the normaliser `FromFlight`
  (`FlightInfo::from`), `Merge`, and `Insert`. `Merge` is the field-wise union
  of a summary with `FromFlight(f)`. `Insert` is the source's step-by-step
  insertion into an existing summary.
- `consolidation_spec.dfy` (`ConsolidationSpec`): the result stated without the
  fold, as `Expected(fs)`. Its outer keys are the flight numbers of `fs`. Under a
  number, its inner keys are the route keys of that number's records. Each set of
  a summary is the union of the values derived from the matching records. The
  origin and destination come from the first matching record, the one whose
  `FlightInfo::from` created the entry. Lemmas describe how `Expected` moves when
  one record is appended, one lemma per branch of the source's fold.
- `consolidate.dfy` (`Consolidation`): `ConsolidateFlightInfo`, a `for` loop over
  the records with a mutable two-level map accumulator, proved equal to
  `Expected`. Beside it are the properties that follow: empty input, duplicates
  absorbed, summaries only grow, every summary spells its own key, routes are kept
  apart, results do not depend on input order, and the worked BA123 example.

The route key is the string `origin + "-" + dest`, as in the source. Two
different routes can give the same key only if an origin code contains a dash,
which an ICAO code never does. Route separation (`RoutesSeparate`) and full order
independence (`OrderIndependent`) are proved under that condition
(`DashFreeOrigins`). The set contents do not depend on input order under any
condition (`SetsIndependentOfOrder`).

The fold has no path that skips or rejects a record: every decoded `Flight` is
folded, and the model folds every record. The instants are `DateTime<Utc>`, so
weekdays and times of day are taken in UTC.

## Model

| member | source | states |
|---|---|---|
| `Clock.DayNumber` | src/flight_history.rs:139 | Days since 1970-01-01 of an instant's UTC date, floored for instants before 1970; its properties are stated by `TimeOf`, `DivideExact` and `NextDay`. |
| `Clock.WeekdayOf` | src/flight_history.rs:139 | `dt.weekday()` in UTC; its properties are stated by `EpochIsThursday`, `NextDay`, `NextWeek` and `SameDay`, which together fix it on every day. |
| `Clock.TimeOf` | src/flight_history.rs:142-145 | The time of day of an instant lies in [0, 86400), differs from the instant by whole days, and together with the day number rebuilds the instant. |
| `Clock.WeekdayFromMonday` | src/flight_history.rs:129 | Weekday indices 0..6 from Monday map to chrono's weekdays and back. |
| `Clock.EpochIsThursday` | src/flight_history.rs:138-141 | Instant 0 (1970-01-01T00:00Z) is a Thursday at time 0. |
| `Clock.SameDay` | src/flight_history.rs:138-145 | Two instants on the same UTC day have the same weekday, and their times of day are equal exactly when the instants are. |
| `Clock.NextDay` | src/flight_history.rs:138-145 | One day later is the next day number, the next weekday (Sunday wraps to Monday) and the same time of day. |
| `Clock.NextWeek` | src/flight_history.rs:138-145 | Seven days later is the same weekday at the same time of day. |
| `Clock.DivideExact` | src/flight_history.rs:142-145 | The split of an instant into day number and time of day is unique. |
| `FlightHistory.RouteKey` | src/flight_history.rs:165 | The inner key `format!("{origin}-{destination}")`; its properties are stated by `RouteKeyParts`, `RouteKeyInjective` and `RouteKeyDirectional`. |
| `FlightHistory.RouteKeyParts` | src/flight_history.rs:165 | The inner key reads back as the origin, one dash, then the destination. |
| `FlightHistory.RouteKeyInjective` | src/flight_history.rs:165 | With dash-free origins, equal route keys mean equal origin and equal destination. |
| `FlightHistory.RouteKeyDirectional` | src/flight_history.rs:184-187 | For distinct dash-free codes A and B, the key of A→B differs from the key of B→A. |
| `FlightHistory.FromFlight` | src/flight_history.rs:133-157 | `FlightInfo::from`; its properties are stated by `FromFlightShape`. |
| `FlightHistory.Merge` | src/flight_history.rs:166-177 | The summary after the `Some(fi)` branch, as the union with `FromFlight(f)`; `Insert` proves the source's inserts compute it, and `MergeIdempotent`, `MergeCommutes` and `MergeSubsumed` state its properties. |
| `FlightHistory.FromFlightShape` | src/flight_history.rs:133-157 | `FlightInfo::from` copies origin and destination and holds exactly the record's model. Each optional field gives one value when present and an empty set when absent. A missing callsign leaves the callsign set empty. |
| `FlightHistory.Insert` | src/flight_history.rs:166-177 | Inserting a record into an existing summary equals the union with `FromFlight(f)`. Every set only grows, origin and destination stay, the model is added, and absent departure, arrival or callsign add nothing. |
| `FlightHistory.MergeSubsumed` | src/flight_history.rs:166-177 | A summary that already holds everything a record contributes is unchanged by merging it. |
| `FlightHistory.MergeIdempotent` | src/flight_history.rs:133-177 | Merging the same record twice equals merging it once, and merging a record into its own `FromFlight` changes nothing. |
| `FlightHistory.MergeCommutes` | src/flight_history.rs:166-177 | Two records merge into a summary in either order with the same outcome. |
| `ConsolidationSpec.FirstIndex` | src/flight_history.rs:178-188 | The earliest record with a given number and route key, which creates that summary: it matches, and no earlier record does. |
| `ConsolidationSpec.RoutesOfTail` | src/flight_history.rs:178-188 | If the head record does not match a seen key, the rest of the input still holds a record with that key. |
| `ConsolidationSpec.FirstIndexStable` | src/flight_history.rs:166-177 | Appending a record keeps the first match, and therefore the route fields, of every key already seen. |
| `ConsolidationSpec.MatchingRecordSets` | src/flight_history.rs:166-177 | Appending a record adds exactly `FromFlight(f)`'s values to each set of its own number and key. |
| `ConsolidationSpec.DeparturesSnoc` | src/flight_history.rs:168-171 | An appended record adds exactly its departure time of day, if any, to its route's departure set. |
| `ConsolidationSpec.ArrivalsSnoc` | src/flight_history.rs:172-175 | An appended record adds exactly its arrival time of day, if any, to its route's arrival set. |
| `ConsolidationSpec.WeekdaysSnoc` | src/flight_history.rs:168-171 | An appended record adds exactly its departure weekday, if any, to its route's weekday set. |
| `ConsolidationSpec.ModelsSnoc` | src/flight_history.rs:167 | An appended record adds exactly its model to its route's model set. |
| `ConsolidationSpec.CallsignsSnoc` | src/flight_history.rs:176 | An appended record adds exactly its callsign, if any, to its route's callsign set. |
| `ConsolidationSpec.UnrelatedRecord` | src/flight_history.rs:158-193 | A record with another number or key neither creates nor changes that summary. |
| `ConsolidationSpec.MatchingRecordKnown` | src/flight_history.rs:166-177 | A record whose key is known under its number turns the summary into `Merge(summary, f)`. |
| `ConsolidationSpec.MatchingRecordNew` | src/flight_history.rs:178-180 | A record whose key is new under its number creates exactly `FromFlight(f)`. |
| `ConsolidationSpec.ExpectedKeys` | src/flight_history.rs:158-193 | The outer keys are exactly the flight numbers of the input. Under each number, the inner keys are exactly the route keys of that number's records. |
| `ConsolidationSpec.OthersUnchanged` | src/flight_history.rs:158-193 | Appending a record adds at most its own number and key, and leaves every other summary as it was. |
| `ConsolidationSpec.InnerUnrelated` | src/flight_history.rs:161-190 | Appending a record leaves the inner maps of other flight numbers unchanged. |
| `ConsolidationSpec.InnerNewRoute` | src/flight_history.rs:178-180 | Under a new key, the inner map gains `key ↦ FromFlight(f)` and nothing else changes. |
| `ConsolidationSpec.InnerKnownRoute` | src/flight_history.rs:166-177 | Under a known key, only that entry changes, to `Merge(old, f)`. |
| `ConsolidationSpec.ExpectedSnoc` | src/flight_history.rs:159-191 | One step of the fold rebuilds only the entry of the record's flight number. |
| `ConsolidationSpec.ExpectedNewNumber` | src/flight_history.rs:183-189 | A new flight number gets a fresh inner map holding only `key ↦ FromFlight(f)`. |
| `ConsolidationSpec.ExpectedNewRoute` | src/flight_history.rs:178-180 | A new route under a known number inserts `FromFlight(f)` under its key. |
| `ConsolidationSpec.ExpectedKnownRoute` | src/flight_history.rs:162-177 | A known number and route merges the record into that summary, and nothing else changes. |
| `ConsolidationSpec.ExpectedAt` | src/flight_history.rs:158-193 | A summary exists exactly where some record has that number and key, and it is the union summary `Summary`. |
| `ConsolidationSpec.RecordContained` | src/flight_history.rs:158-193 | Every record's own derived values are in the summary of its number and key. |
| `ConsolidationSpec.SummaryAbsorbs` | src/flight_history.rs:166-177 | Merging a record into the summary it already belongs to changes nothing. |
| `ConsolidationSpec.SummaryGrows` | src/flight_history.rs:166-177 | One more record never removes a value from a summary or changes its route fields. Absent optional fields add nothing. |
| `ConsolidationSpec.SummaryRouteOfMatch` | src/flight_history.rs:163-165 | With dash-free origins, every record under a key has the route fields of that key's summary. |
| `ConsolidationSpec.SameRecordsSameSets` | src/flight_history.rs:158-193 | Inputs holding the same records see the same numbers and routes and collect the same sets. |
| `Consolidation.ConsolidateFlightInfo` | src/flight_history.rs:158-193 | The fold returns exactly `Expected(flights)`: keys are the numbers and route keys seen, each set is the union over matching records, and route fields come from the first matching record. |
| `Consolidation.EmptyInput` | src/flight_history.rs:159 | No records give the empty map. |
| `Consolidation.SingleRecord` | src/flight_history.rs:183-189 | One record gives one number holding one route whose summary is `FromFlight(f)`. |
| `Consolidation.CoveredRecordAbsorbed` | src/flight_history.rs:166-177 | A record whose values its summary already holds leaves the result unchanged. |
| `Consolidation.DuplicateAbsorbed` | src/flight_history.rs:158-193 | A record that is already in the input leaves the result unchanged when it comes again. |
| `Consolidation.RepeatedRecord` | src/flight_history.rs:133-177 | The same record twice gives the one-record result: at most one value per set and exactly one model. |
| `Consolidation.Grows` | src/flight_history.rs:166-177 | One more record keeps every number, key and route field, makes every set a superset of its old value, and adds nothing for absent departure, arrival or callsign. |
| `Consolidation.SummaryMatchesKey` | src/flight_history.rs:179-187 | Every summary's origin and destination spell its own key and belong to a record of its flight number. |
| `Consolidation.SummaryOfRecord` | src/flight_history.rs:163-187 | With dash-free origins, the summary a record lands in carries that record's origin and destination. |
| `Consolidation.RoutesSeparate` | src/flight_history.rs:163-187 | With dash-free origins, two records of one number on different routes (A→B versus B→A in particular) get different keys, and each summary holds its own route. |
| `Consolidation.SetsIndependentOfOrder` | src/flight_history.rs:158-193 | Inputs holding the same records, in any order or multiplicity, give the same keys and the same set contents. |
| `Consolidation.OrderIndependent` | src/flight_history.rs:158-193 | With dash-free origins, any permutation of the input gives the identical result. |
| `Consolidation.ExampleFirstTwo` | src/flight_history.rs:166-177 | Two records on one route whose second adds nothing new give the first record's summary. |
| `Consolidation.ExampleFold` | src/flight_history.rs:158-193 | Two records on one route followed by one on another route give one number with two summaries. |
| `Consolidation.DirectionalExample` | src/flight_history.rs:158-193 | BA123 EGLL→KJFK on two Mondays at 10:00Z and KJFK→EGLL at 22:00Z give the keys `EGLL-KJFK` (departures {10:00:00}, weekdays {Mon}, models {B77W}) and `KJFK-EGLL` (departures {22:00:00}). |

## Left out

- `history_by_flight_number` (src/flight_history.rs:98-118) and `login` (src/login.rs): HTTP requests, headers and tokens are network I/O.
- Serde decoding of the wire structs (src/flight_history.rs:10-96) and the fields the fold never reads (airline, registration, hex, serial number, alternative number, model text, real and estimated times, page data). `Flight` keeps only the seven fields the fold reads.
- Instants that chrono cannot represent: they fail in decoding, before the fold. The model takes any integer number of seconds.
- Everything in src/main.rs: argument parsing, tracing setup, the signal/fetch race (concurrency) and JSON output.
- `HashMap`/`HashSet` iteration order and JSON rendering: the model's maps and sets are unordered by nature.
- In-place mutation through `get_mut`: the fold's accumulator is a local map variable reassigned at each step, and a summary is a value whose update replaces the map entry. Rust's exclusive ownership of the accumulator rules out aliasing, so no observable behaviour is lost.
- The boolean that `HashSet::insert` returns inside the `Option::map` closures (src/flight_history.rs:168-176) is discarded by the source, and the model ignores it too.
