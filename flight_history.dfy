/** The decoded flight record, the per-route schedule summary `FlightInfo`, the
    normaliser `FlightInfo::from` and the in-place merge that
    `consolidate_flight_info` performs on an existing summary. */
module FlightHistory {
  import opened Clock

  datatype Option<T> = None | Some(value: T)

  /** The fields of one decoded historical flight that the consolidation reads. */
  datatype Flight = Flight(
    number: string,            // identification.number.default
    callsign: Option<string>,  // identification.callsign
    origin: string,            // airport.origin.code.icao
    dest: string,              // airport.destination.code.icao
    model: string,             // aircraft.model.code
    departure: Option<int>,    // time.scheduled.departure, Unix seconds
    arrival: Option<int>)      // time.scheduled.arrival, Unix seconds

  /** The schedule summary of one flight number on one route. */
  datatype FlightInfo = FlightInfo(
    origin: string,
    dest: string,
    scheduledDeparture: set<TimeOfDay>,
    scheduledArrival: set<TimeOfDay>,
    weekday: set<Weekday>,
    model: set<string>,
    callsign: set<string>)

  /** Route key → summary, for one flight number. */
  type OriginDestPairMap = map<string, FlightInfo>

  /** Flight number → its routes. */
  type FlightNoMap = map<string, OriginDestPairMap>

  /** The inner key `format!("{origin}-{destination}")`. */
  function RouteKey(origin: string, dest: string): string
  {
    origin + "-" + dest
  }

  /** The key reads back as the origin, one dash, then the destination. */
  lemma RouteKeyParts(origin: string, dest: string)
    ensures var key := RouteKey(origin, dest);
      |key| == |origin| + 1 + |dest| &&
      key[..|origin|] == origin && key[|origin|] == '-' && key[|origin| + 1..] == dest
  {
  }

  /** With a dash-free origin code (every ICAO code is four letters), the key
      determines origin and destination: distinct routes never share a key. */
  lemma RouteKeyInjective(o1: string, d1: string, o2: string, d2: string)
    requires '-' !in o1 && '-' !in o2
    requires RouteKey(o1, d1) == RouteKey(o2, d2)
    ensures o1 == o2 && d1 == d2
  {
    RouteKeyParts(o1, d1);
    RouteKeyParts(o2, d2);
  }

  /** The key is directional: flying back the other way is another route. */
  lemma RouteKeyDirectional(a: string, b: string)
    requires '-' !in a && '-' !in b && a != b
    ensures RouteKey(a, b) != RouteKey(b, a)
  {
    if RouteKey(a, b) == RouteKey(b, a) {
      RouteKeyInjective(a, b, b, a);
    }
  }

  /** `FlightInfo::from`: the summary of a route seen for the first time. */
  function FromFlight(f: Flight): FlightInfo
  {
    FlightInfo(
      f.origin,
      f.dest,
      match f.departure
      case Some(dt) => {TimeOf(dt)}
      case None => {},
      match f.arrival
      case Some(dt) => {TimeOf(dt)}
      case None => {},
      match f.departure
      case Some(dt) => {WeekdayOf(dt)}
      case None => {},
      {f.model},
      match f.callsign
      case Some(cs) => {cs}
      case None => {})
  }

  /** What the normaliser builds: the record's route; exactly its aircraft
      model; and from each optional field one value when present, nothing when
      absent, so a missing callsign never becomes a placeholder. */
  lemma FromFlightShape(f: Flight)
    ensures var fi := FromFlight(f);
      && fi.origin == f.origin && fi.dest == f.dest
      && |fi.model| == 1 && f.model in fi.model
      && |fi.scheduledDeparture| <= 1 && |fi.weekday| <= 1 && |fi.scheduledArrival| <= 1 && |fi.callsign| <= 1
      && (fi.scheduledDeparture == {} <==> f.departure.None?)
      && (fi.weekday == {} <==> f.departure.None?)
      && (fi.scheduledArrival == {} <==> f.arrival.None?)
      && (forall d :: f.departure == Some(d) ==> TimeOf(d) in fi.scheduledDeparture && WeekdayOf(d) in fi.weekday)
      && (forall a :: f.arrival == Some(a) ==> TimeOf(a) in fi.scheduledArrival)
      && (forall c :: c in fi.callsign <==> f.callsign == Some(c))
  {
  }

  /** What folding record `f` into the existing summary `fi` yields: each set is
      the union of its old contents with what `FromFlight(f)` would hold; the
      route fields are those of `fi`. */
  function Merge(fi: FlightInfo, f: Flight): FlightInfo
  {
    var g := FromFlight(f);
    FlightInfo(
      fi.origin,
      fi.dest,
      fi.scheduledDeparture + g.scheduledDeparture,
      fi.scheduledArrival + g.scheduledArrival,
      fi.weekday + g.weekday,
      fi.model + g.model,
      fi.callsign + g.callsign)
  }

  /** The `Some(fi)` branch of the fold: the record's values are inserted into
      the sets of the existing summary one at a time. The summary only grows,
      keeps its route, and absent optional fields add nothing. */
  method Insert(fi: FlightInfo, f: Flight) returns (r: FlightInfo)
    ensures r == Merge(fi, f)
    ensures r.origin == fi.origin && r.dest == fi.dest
    ensures fi.scheduledDeparture <= r.scheduledDeparture && fi.scheduledArrival <= r.scheduledArrival
    ensures fi.weekday <= r.weekday && fi.model <= r.model && fi.callsign <= r.callsign
    ensures f.model in r.model
    ensures f.departure.None? ==> r.scheduledDeparture == fi.scheduledDeparture && r.weekday == fi.weekday
    ensures f.arrival.None? ==> r.scheduledArrival == fi.scheduledArrival
    ensures f.callsign.None? ==> r.callsign == fi.callsign
  {
    r := fi;
    r := r.(model := r.model + {f.model});
    if f.departure.Some? {
      var dt := f.departure.value;
      r := r.(weekday := r.weekday + {WeekdayOf(dt)});
      r := r.(scheduledDeparture := r.scheduledDeparture + {TimeOf(dt)});
    }
    if f.arrival.Some? {
      r := r.(scheduledArrival := r.scheduledArrival + {TimeOf(f.arrival.value)});
    }
    if f.callsign.Some? {
      r := r.(callsign := r.callsign + {f.callsign.value});
    }
  }

  /** A summary that already holds everything a record contributes absorbs it. */
  lemma MergeSubsumed(fi: FlightInfo, f: Flight)
    requires FromFlight(f).scheduledDeparture <= fi.scheduledDeparture
    requires FromFlight(f).scheduledArrival <= fi.scheduledArrival
    requires FromFlight(f).weekday <= fi.weekday
    requires FromFlight(f).model <= fi.model
    requires FromFlight(f).callsign <= fi.callsign
    ensures Merge(fi, f) == fi
  {
  }

  /** Folding the same record in again changes nothing. */
  lemma MergeIdempotent(fi: FlightInfo, f: Flight)
    ensures Merge(Merge(fi, f), f) == Merge(fi, f)
    ensures Merge(FromFlight(f), f) == FromFlight(f)
  {
  }

  /** Two records can be folded into a summary in either order. */
  lemma MergeCommutes(fi: FlightInfo, f: Flight, g: Flight)
    ensures Merge(Merge(fi, f), g) == Merge(Merge(fi, g), f)
  {
  }
}
