/** `consolidate_flight_info`: the left fold over the decoded records with a
    two-level accumulator, proved against `Expected`, and what follows from that
    about the summaries it builds. */
module Consolidation {
  import opened Clock
  import opened FlightHistory
  import opened ConsolidationSpec

  /** Folds the records in order into flight number → route key → summary.
      A new number gets a fresh inner map, a new route under a known number a
      fresh summary, and a known route has the record inserted into its sets. */
  method ConsolidateFlightInfo(flights: seq<Flight>) returns (acc: FlightNoMap)
    ensures acc == Expected(flights)
  {
    acc := map[];
    for i := 0 to |flights|
      invariant acc == Expected(flights[..i])
    {
      var f := flights[i];
      var flightNo := f.number;
      var key := RouteKey(f.origin, f.dest);
      assert flights[..i + 1] == flights[..i] + [f];
      if flightNo in acc {
        var odpm := acc[flightNo];
        if key in odpm {
          var fi := Insert(odpm[key], f);
          acc := acc[flightNo := odpm[key := fi]];
          ExpectedKnownRoute(flights[..i], f);
        } else {
          acc := acc[flightNo := odpm[key := FromFlight(f)]];
          ExpectedNewRoute(flights[..i], f);
        }
      } else {
        acc := acc[flightNo := map[key := FromFlight(f)]];
        ExpectedNewNumber(flights[..i], f);
      }
    }
    assert flights[..|flights|] == flights;
  }

  /** No records, no flight numbers. */
  lemma EmptyInput()
    ensures Expected([]) == map[]
  {
  }

  /** A single record is summarised by the normaliser alone. */
  lemma SingleRecord(f: Flight)
    ensures Expected([f]) == map[f.number := map[RouteKey(f.origin, f.dest) := FromFlight(f)]]
  {
    assert Expected([]) == map[];
    assert [] + [f] == [f];
    ExpectedNewNumber([], f);
  }

  /** A record that its summary already covers adds nothing. */
  lemma CoveredRecordAbsorbed(fs: seq<Flight>, f: Flight)
    requires f.number in Expected(fs) && RouteKey(f.origin, f.dest) in Expected(fs)[f.number]
    requires Merge(Expected(fs)[f.number][RouteKey(f.origin, f.dest)], f)
          == Expected(fs)[f.number][RouteKey(f.origin, f.dest)]
    ensures Expected(fs + [f]) == Expected(fs)
  {
    var no, key := f.number, RouteKey(f.origin, f.dest);
    ExpectedKnownRoute(fs, f);
    var E := Expected(fs);
    assert E[no][key := E[no][key]] == E[no];
    assert E[no := E[no]] == E;
  }

  /** A record already in the input adds nothing when it comes again. */
  lemma DuplicateAbsorbed(fs: seq<Flight>, f: Flight)
    requires f in fs
    ensures Expected(fs + [f]) == Expected(fs)
  {
    SummaryAbsorbs(fs, f);
    ExpectedAt(fs, f.number, RouteKey(f.origin, f.dest));
    CoveredRecordAbsorbed(fs, f);
  }

  /** The same record twice yields the same one-record summary, every set of
      which holds at most one value. */
  lemma RepeatedRecord(f: Flight)
    ensures Expected([f, f]) == Expected([f])
    ensures var fi := Expected([f])[f.number][RouteKey(f.origin, f.dest)];
      |fi.scheduledDeparture| <= 1 && |fi.scheduledArrival| <= 1 && |fi.weekday| <= 1 &&
      |fi.model| == 1 && |fi.callsign| <= 1
  {
    SingleRecord(f);
    FromFlightShape(f);
    assert [f, f] == [f] + [f];
    DuplicateAbsorbed([f], f);
  }

  /** Folding one more record keeps every key and summary already present: the
      route fields stay and every set is a superset of its old value. A record
      without scheduled times or callsign adds none to those sets. */
  lemma Grows(fs: seq<Flight>, f: Flight, no: string, key: string)
    requires no in Expected(fs) && key in Expected(fs)[no]
    ensures no in Expected(fs + [f]) && key in Expected(fs + [f])[no]
    ensures var before, after := Expected(fs)[no][key], Expected(fs + [f])[no][key];
      && after.origin == before.origin && after.dest == before.dest
      && before.scheduledDeparture <= after.scheduledDeparture
      && before.scheduledArrival <= after.scheduledArrival
      && before.weekday <= after.weekday
      && before.model <= after.model
      && before.callsign <= after.callsign
      && (f.departure.None? ==> after.scheduledDeparture == before.scheduledDeparture && after.weekday == before.weekday)
      && (f.arrival.None? ==> after.scheduledArrival == before.scheduledArrival)
      && (f.callsign.None? ==> after.callsign == before.callsign)
  {
    ExpectedAt(fs, no, key);
    SummaryGrows(fs, f, no, key);
    ExpectedAt(fs + [f], no, key);
  }

  /** Every summary's route fields spell out its own key, and belong to a record
      of that flight number. */
  lemma SummaryMatchesKey(fs: seq<Flight>, no: string, key: string)
    requires no in Expected(fs) && key in Expected(fs)[no]
    ensures RouteKey(Expected(fs)[no][key].origin, Expected(fs)[no][key].dest) == key
    ensures exists i :: (0 <= i < |fs| && fs[i].number == no
      && fs[i].origin == Expected(fs)[no][key].origin && fs[i].dest == Expected(fs)[no][key].dest)
  {
    var i := FirstIndex(fs, no, key);
    assert fs[i].number == no;
  }

  /** With dash-free origins, the summary a record is folded into carries that
      record's own origin and destination. */
  lemma SummaryOfRecord(fs: seq<Flight>, i: nat)
    requires DashFreeOrigins(fs) && i < |fs|
    ensures var no, key := fs[i].number, RouteKey(fs[i].origin, fs[i].dest);
      && no in Expected(fs) && key in Expected(fs)[no]
      && Expected(fs)[no][key].origin == fs[i].origin
      && Expected(fs)[no][key].dest == fs[i].dest
  {
    var no, key := fs[i].number, RouteKey(fs[i].origin, fs[i].dest);
    assert fs[i] in fs;
    SummaryRouteOfMatch(fs, fs[i], no, key);
    ExpectedAt(fs, no, key);
  }

  /** Route separation: with dash-free origins, two records of one flight
      number on different routes (in particular A→B and B→A) get different
      keys, each summary holding its own route. */
  lemma RoutesSeparate(fs: seq<Flight>, i: nat, j: nat)
    requires DashFreeOrigins(fs) && i < |fs| && j < |fs| && fs[i].number == fs[j].number
    requires fs[i].origin != fs[j].origin || fs[i].dest != fs[j].dest
    ensures RouteKey(fs[i].origin, fs[i].dest) != RouteKey(fs[j].origin, fs[j].dest)
    ensures var inner := Expected(fs)[fs[i].number];
      && RouteKey(fs[i].origin, fs[i].dest) in inner && RouteKey(fs[j].origin, fs[j].dest) in inner
      && inner[RouteKey(fs[i].origin, fs[i].dest)].origin == fs[i].origin
      && inner[RouteKey(fs[i].origin, fs[i].dest)].dest == fs[i].dest
      && inner[RouteKey(fs[j].origin, fs[j].dest)].origin == fs[j].origin
      && inner[RouteKey(fs[j].origin, fs[j].dest)].dest == fs[j].dest
  {
    if RouteKey(fs[i].origin, fs[i].dest) == RouteKey(fs[j].origin, fs[j].dest) {
      RouteKeyInjective(fs[i].origin, fs[i].dest, fs[j].origin, fs[j].dest);
    }
    SummaryOfRecord(fs, i);
    SummaryOfRecord(fs, j);
  }

  /** Summary sets do not depend on the order of the input (nor on how often a
      record repeats): the same keys, and the same set contents under each. */
  lemma SetsIndependentOfOrder(fs: seq<Flight>, gs: seq<Flight>)
    requires forall r :: r in fs <==> r in gs
    ensures Expected(fs).Keys == Expected(gs).Keys
    ensures forall no :: no in Expected(fs) ==> Expected(fs)[no].Keys == Expected(gs)[no].Keys
    ensures forall no, key :: no in Expected(fs) && key in Expected(fs)[no] ==>
      var a, b := Expected(fs)[no][key], Expected(gs)[no][key];
      && a.scheduledDeparture == b.scheduledDeparture
      && a.scheduledArrival == b.scheduledArrival
      && a.weekday == b.weekday
      && a.model == b.model
      && a.callsign == b.callsign
  {
    SameRecordsSameSets(fs, gs, "", "");
    forall no | no in Expected(fs) ensures Expected(fs)[no].Keys == Expected(gs)[no].Keys {
      SameRecordsSameSets(fs, gs, no, "");
    }
    forall no, key | no in Expected(fs) && key in Expected(fs)[no]
      ensures var a, b := Expected(fs)[no][key], Expected(gs)[no][key];
        && a.scheduledDeparture == b.scheduledDeparture
        && a.scheduledArrival == b.scheduledArrival
        && a.weekday == b.weekday
        && a.model == b.model
        && a.callsign == b.callsign
    {
      SameRecordsSameSets(fs, gs, no, key);
      ExpectedAt(fs, no, key);
      ExpectedAt(gs, no, key);
    }
  }

  /** With dash-free origins, any permutation of the input consolidates to the
      very same result, route fields included. */
  lemma OrderIndependent(fs: seq<Flight>, gs: seq<Flight>)
    requires multiset(fs) == multiset(gs)
    requires DashFreeOrigins(fs)
    ensures Expected(fs) == Expected(gs)
  {
    assert forall r :: r in fs <==> r in gs by {
      forall r ensures r in fs <==> r in gs {
        assert r in fs <==> r in multiset(fs);
        assert r in gs <==> r in multiset(gs);
      }
    }
    SameRecordsSameSets(fs, gs, "", "");
    forall no | no in Numbers(fs) ensures Inner(fs, no) == Inner(gs, no) {
      SameRecordsSameSets(fs, gs, no, "");
      forall key | key in Routes(fs, no) ensures Summary(fs, no, key) == Summary(gs, no, key) {
        SameRecordsSameSets(fs, gs, no, key);
        var r := fs[FirstIndex(fs, no, key)];
        SummaryRouteOfMatch(fs, r, no, key);
        SummaryRouteOfMatch(gs, r, no, key);
      }
    }
  }

  /** The first two records of the worked example share a route and a
      summary. */
  lemma ExampleFirstTwo(f1: Flight, f2: Flight, out: FlightInfo)
    requires f1.number == f2.number && RouteKey(f1.origin, f1.dest) == RouteKey(f2.origin, f2.dest)
    requires FromFlight(f1) == out && Merge(out, f2) == out
    ensures Expected([f1] + [f2]) == map[f1.number := map[RouteKey(f1.origin, f1.dest) := out]]
  {
    SingleRecord(f1);
    CoveredRecordAbsorbed([f1], f2);
  }

  /** The fold of the worked example, for any three records shaped like it. */
  lemma ExampleFold(f1: Flight, f2: Flight, f3: Flight, out: FlightInfo, back: FlightInfo)
    requires f1.number == f2.number == f3.number
    requires RouteKey(f1.origin, f1.dest) == RouteKey(f2.origin, f2.dest) != RouteKey(f3.origin, f3.dest)
    requires FromFlight(f1) == out && Merge(out, f2) == out && FromFlight(f3) == back
    ensures Expected([f1] + [f2] + [f3])
         == map[f1.number := map[RouteKey(f1.origin, f1.dest) := out, RouteKey(f3.origin, f3.dest) := back]]
  {
    ExampleFirstTwo(f1, f2, out);
    ExpectedNewRoute([f1] + [f2], f3);
  }

  /** The worked example: BA123 flown EGLL→KJFK on two Mondays at 10:00Z and
      KJFK→EGLL on a Monday at 22:00Z gives two routes under one number. */
  lemma DirectionalExample()
    ensures var E := Expected([
        Flight("BA123", None, "EGLL", "KJFK", "B77W", Some(1704103200), None),
        Flight("BA123", None, "EGLL", "KJFK", "B77W", Some(1704708000), None),
        Flight("BA123", None, "KJFK", "EGLL", "B77W", Some(1704146400), None)]);
      && E.Keys == {"BA123"}
      && E["BA123"].Keys == {"EGLL-KJFK", "KJFK-EGLL"}
      && E["BA123"]["EGLL-KJFK"].scheduledDeparture == {36000}
      && E["BA123"]["EGLL-KJFK"].weekday == {Mon}
      && E["BA123"]["EGLL-KJFK"].model == {"B77W"}
      && E["BA123"]["EGLL-KJFK"].scheduledArrival == {}
      && E["BA123"]["EGLL-KJFK"].callsign == {}
      && E["BA123"]["KJFK-EGLL"].scheduledDeparture == {79200}
      && E["BA123"]["KJFK-EGLL"].weekday == {Mon}
  {
    var f1 := Flight("BA123", None, "EGLL", "KJFK", "B77W", Some(1704103200), None);
    var f2 := Flight("BA123", None, "EGLL", "KJFK", "B77W", Some(1704708000), None);
    var f3 := Flight("BA123", None, "KJFK", "EGLL", "B77W", Some(1704146400), None);
    var out := FlightInfo("EGLL", "KJFK", {36000}, {}, {Mon}, {"B77W"}, {});
    var back := FlightInfo("KJFK", "EGLL", {79200}, {}, {Mon}, {"B77W"}, {});
    assert RouteKey("EGLL", "KJFK") == "EGLL-KJFK";
    assert RouteKey("KJFK", "EGLL") == "KJFK-EGLL";
    assert TimeOf(1704103200) == 36000 && WeekdayOf(1704103200) == Mon;
    NextWeek(1704103200);
    assert TimeOf(1704146400) == 79200 && WeekdayOf(1704146400) == Mon;
    assert FromFlight(f1) == out;
    assert Merge(out, f2) == out;
    assert FromFlight(f3) == back;
    ExampleFold(f1, f2, f3, out, back);
    assert [f1] + [f2] + [f3] == [f1, f2, f3];
  }
}
