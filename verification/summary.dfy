/**
 * The computation inside `renderSummary`: the trip count and the total of the
 * server-provided `distance_km` values. Distances are modelled as `real`.
 */
module Summary {
  import opened Wrappers

  /**
   * A trip record as far as the summary reads it: `distanceKm` is `None` when
   * `distance_km` is missing or does not convert to a number.
   */
  datatype Trip = Trip(distanceKm: Option<real>)

  /** The `trips` value of the payload: an array of trips, or something else. */
  datatype TripsValue = TripList(trips: seq<Trip>) | NotAList

  datatype TripSummary = TripSummary(count: nat, totalKm: real)

  /** `Number(t?.distance_km) || 0`: the numeric distance, or 0 when there is none. */
  function Km(t: Trip): (r: real)
    ensures t.distanceKm.Some? ==> r == t.distanceKm.value
    ensures t.distanceKm.None? ==> r == 0.0
  {
    t.distanceKm.GetOr(0.0)
  }

  /**
   * The `reduce` over the trips, a left fold starting at 0: an empty list, or
   * one where no trip carries a distance, totals 0.
   */
  function SumKm(ts: seq<Trip>): (r: real)
    ensures (forall k | 0 <= k < |ts| :: ts[k].distanceKm.None?) ==> r == 0.0
  {
    if ts == [] then 0.0 else SumKm(ts[..|ts| - 1]) + Km(ts[|ts| - 1])
  }

  /** The trips that carry a numeric distance, in order. */
  function WithDistance(ts: seq<Trip>): (r: seq<Trip>)
    ensures forall k | 0 <= k < |r| :: r[k].distanceKm.Some?
    ensures |r| <= |ts|
  {
    if ts == [] then []
    else WithDistance(ts[..|ts| - 1]) + (if ts[|ts| - 1].distanceKm.Some? then [ts[|ts| - 1]] else [])
  }

  /** The count shown is the array's length; a non-array counts as no trips and no distance. */
  function RenderSummary(v: TripsValue): (s: TripSummary)
    ensures s.count == (if v.TripList? then |v.trips| else 0)
    ensures v.NotAList? ==> s.totalKm == 0.0
    ensures v.TripList? && v.trips == [] ==> s == TripSummary(0, 0.0)
  {
    match v
    case TripList(ts) => TripSummary(|ts|, SumKm(ts))
    case NotAList => TripSummary(0, 0.0)
  }

  /** The total of a concatenation is the sum of the totals. */
  lemma {:induction false} SumKmAppend(a: seq<Trip>, b: seq<Trip>)
    ensures SumKm(a + b) == SumKm(a) + SumKm(b)
  {
    if b != [] {
      var c := b[..|b| - 1];
      assert (a + b)[..|a + b| - 1] == a + c;
      assert (a + b)[|a + b| - 1] == b[|b| - 1];
      SumKmAppend(a, c);
    } else {
      assert a + b == a;
    }
  }

  /** Trips without a numeric distance contribute nothing to the total. */
  lemma {:induction false} SumKmIgnoresMissing(ts: seq<Trip>)
    ensures SumKm(ts) == SumKm(WithDistance(ts))
  {
    if ts != [] {
      var init, t := ts[..|ts| - 1], ts[|ts| - 1];
      SumKmIgnoresMissing(init);
      if t.distanceKm.Some? {
        SumKmAppend(WithDistance(init), [t]);
        assert [t][..0] == [];
      } else {
        assert WithDistance(ts) == WithDistance(init) + [];
        assert WithDistance(init) + [] == WithDistance(init);
        assert Km(t) == 0.0;
      }
    }
  }

  /** With no negative distances the total is not negative, and bounds every part of the list. */
  lemma {:induction false} SumKmNonNegative(ts: seq<Trip>)
    requires forall k | 0 <= k < |ts| :: Km(ts[k]) >= 0.0
    ensures SumKm(ts) >= 0.0
    ensures forall k | 0 <= k < |ts| :: Km(ts[k]) <= SumKm(ts)
  {
    if ts != [] {
      var init := ts[..|ts| - 1];
      SumKmNonNegative(init);
      forall k | 0 <= k < |ts| ensures Km(ts[k]) <= SumKm(ts) {
        if k < |init| {
          assert ts[k] == init[k];
        }
      }
    }
  }
}
