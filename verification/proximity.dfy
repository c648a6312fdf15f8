/**
 * The two proximity queries of the mission service, built on a distance
 * function that is a parameter (the haversine formula itself is not part
 * of this model): the provider's "nearby missions" list, filtered and
 * sorted by distance, and the set of providers a new mission is pushed to.
 */
module Proximity {
  import opened Records

  /** calculateDistance(lat1, lon1, lat2, lon2) in kilometres. */
  type DistanceFn = (real, real, real, real) -> real

  /** The radius used when the caller or the provider gives none. */
  const DefaultRadiusKm: real := 10.0

  /** The search radius of getNearbyMissions: the given one, 10 km when omitted. */
  function RadiusOrDefault(radiusKm: Option<real>): real {
    if radiusKm.Some? then radiusKm.value else DefaultRadiusKm
  }

  /** A mission together with its distance from the provider's position. */
  datatype NearbyMission = NearbyMission(id: nat, mission: Mission, distance: real)

  /** Both pickup coordinates are truthy (a latitude or longitude of 0 counts as missing). */
  predicate HasPickup(m: Mission) {
    Truthy(m.pickupLatitude) && Truthy(m.pickupLongitude)
  }

  /** The mission is pending, has a pickup point, and that point is within radiusKm of (lat, lon). */
  predicate OpenWithin(m: Mission, lat: real, lon: real, radiusKm: real, dist: DistanceFn) {
    && m.status == Pending
    && HasPickup(m)
    && dist(lat, lon, m.pickupLatitude.value, m.pickupLongitude.value) <= radiusKm
  }

  /** The distance attached to a listed mission. */
  function PickupDistance(m: Mission, lat: real, lon: real, dist: DistanceFn): real
    requires HasPickup(m)
  {
    dist(lat, lon, m.pickupLatitude.value, m.pickupLongitude.value)
  }

  /** The filter and map steps: the listed missions among the first n, in table order, each with its distance. */
  function Candidates(missions: seq<Mission>, n: nat, lat: real, lon: real, radiusKm: real, dist: DistanceFn): seq<NearbyMission>
    requires n <= |missions|
  {
    if n == 0 then []
    else
      var m := missions[n - 1];
      Candidates(missions, n - 1, lat, lon, radiusKm, dist)
        + (if OpenWithin(m, lat, lon, radiusKm, dist) then [NearbyMission(n - 1, m, PickupDistance(m, lat, lon, dist))] else [])
  }

  /** What it means for an entry to be listed: a pending mission with pickup point within the radius, with its distance. */
  predicate Listed(x: NearbyMission, missions: seq<Mission>, lat: real, lon: real, radiusKm: real, dist: DistanceFn) {
    && x.id < |missions|
    && x.mission == missions[x.id]
    && OpenWithin(x.mission, lat, lon, radiusKm, dist)
    && x.distance == PickupDistance(x.mission, lat, lon, dist)
  }

  lemma {:induction false} CandidatesAreListed(missions: seq<Mission>, n: nat, lat: real, lon: real, radiusKm: real, dist: DistanceFn)
    requires n <= |missions|
    ensures forall x :: x in Candidates(missions, n, lat, lon, radiusKm, dist) <==>
      x.id < n && Listed(x, missions, lat, lon, radiusKm, dist)
    ensures IdsAscending(Candidates(missions, n, lat, lon, radiusKm, dist))
  {
    if n > 0 {
      CandidatesAreListed(missions, n - 1, lat, lon, radiusKm, dist);
      var prev := Candidates(missions, n - 1, lat, lon, radiusKm, dist);
      assert forall k :: 0 <= k < |prev| ==> prev[k].id < n - 1 by {
        forall k | 0 <= k < |prev| ensures prev[k].id < n - 1 {
          assert prev[k] in prev;
        }
      }
    }
  }

  predicate SortedByDistance(s: seq<NearbyMission>) {
    forall i, j :: 0 <= i < j < |s| ==> s[i].distance <= s[j].distance
  }

  /** Inserts x after every leading entry that is not farther than x. */
  function InsertByDistance(x: NearbyMission, s: seq<NearbyMission>): seq<NearbyMission> {
    if s == [] then [x]
    else if s[0].distance <= x.distance then [s[0]] + InsertByDistance(x, s[1..])
    else [x] + s
  }

  /** A stable sort by ascending distance (Array.prototype.sort with a - b). */
  function SortByDistance(s: seq<NearbyMission>): seq<NearbyMission> {
    if s == [] then [] else InsertByDistance(s[|s| - 1], SortByDistance(s[..|s| - 1]))
  }

  /** Inserting an entry no nearer than b into entries no nearer than b gives entries no nearer than b. */
  lemma {:induction false} InsertKeepsLowerBound(x: NearbyMission, s: seq<NearbyMission>, b: real)
    requires x.distance >= b
    requires forall k :: 0 <= k < |s| ==> s[k].distance >= b
    ensures forall k :: 0 <= k < |InsertByDistance(x, s)| ==> InsertByDistance(x, s)[k].distance >= b
  {
    if s != [] && s[0].distance <= x.distance {
      InsertKeepsLowerBound(x, s[1..], b);
    }
  }

  /** Inserting adds exactly the new entry. */
  lemma {:induction false} InsertPermutes(x: NearbyMission, s: seq<NearbyMission>)
    ensures multiset(InsertByDistance(x, s)) == multiset(s) + multiset{x}
  {
    if s != [] {
      assert s == [s[0]] + s[1..];
      if s[0].distance <= x.distance {
        InsertPermutes(x, s[1..]);
      }
    }
  }

  lemma {:induction false} InsertKeepsSorted(x: NearbyMission, s: seq<NearbyMission>)
    requires SortedByDistance(s)
    ensures SortedByDistance(InsertByDistance(x, s))
    ensures multiset(InsertByDistance(x, s)) == multiset(s) + multiset{x}
  {
    InsertPermutes(x, s);
    if s != [] && s[0].distance <= x.distance {
      var rest := InsertByDistance(x, s[1..]);
      InsertKeepsSorted(x, s[1..]);
      InsertKeepsLowerBound(x, s[1..], s[0].distance);
      var r := [s[0]] + rest;
      assert InsertByDistance(x, s) == r;
      forall i, j | 0 <= i < j < |r| ensures r[i].distance <= r[j].distance {
        if i == 0 {
          assert r[j] == rest[j - 1];
        } else {
          assert r[i] == rest[i - 1] && r[j] == rest[j - 1];
        }
      }
    }
  }

  /** Entries at the same distance appear in ascending id order, that is, in table order. */
  predicate TiesById(s: seq<NearbyMission>) {
    forall i, j :: 0 <= i < j < |s| && s[i].distance == s[j].distance ==> s[i].id < s[j].id
  }

  /** Ids strictly ascending. */
  predicate IdsAscending(s: seq<NearbyMission>) {
    forall i, j :: 0 <= i < j < |s| ==> s[i].id < s[j].id
  }

  /** Inserting an entry newer than every sorted entry keeps ties in table order. */
  lemma {:induction false} InsertKeepsTiesById(x: NearbyMission, s: seq<NearbyMission>)
    requires SortedByDistance(s) && TiesById(s)
    requires forall k :: 0 <= k < |s| ==> s[k].id < x.id
    ensures TiesById(InsertByDistance(x, s))
  {
    if s != [] && s[0].distance <= x.distance {
      var rest := InsertByDistance(x, s[1..]);
      InsertKeepsTiesById(x, s[1..]);
      InsertKeepsSorted(x, s[1..]);
      assert InsertByDistance(x, s) == [s[0]] + rest;
      forall j | 0 <= j < |rest| && s[0].distance == rest[j].distance
        ensures s[0].id < rest[j].id
      {
        assert rest[j] in multiset(s[1..]) + multiset{x} by {
          assert rest[j] in rest;
        }
        if rest[j] != x {
          assert rest[j] in s[1..];
          var k :| 0 <= k < |s[1..]| && s[1..][k] == rest[j];
          assert s[k + 1] == rest[j];
        }
      }
    }
  }

  /** Sorting entries listed in table order breaks distance ties by table order. */
  lemma {:induction false} SortByDistanceStable(s: seq<NearbyMission>)
    requires IdsAscending(s)
    ensures TiesById(SortByDistance(s))
  {
    if s != [] {
      var init := s[..|s| - 1];
      var x := s[|s| - 1];
      SortByDistanceStable(init);
      SortByDistanceCorrect(init);
      var sorted := SortByDistance(init);
      forall k | 0 <= k < |sorted| ensures sorted[k].id < x.id {
        assert sorted[k] in multiset(init) by {
          assert sorted[k] in sorted;
        }
        var m :| 0 <= m < |init| && init[m] == sorted[k];
      }
      InsertKeepsTiesById(x, sorted);
    }
  }

  /** The nearby list is sorted by ascending distance and is a permutation of its input. */
  lemma {:induction false} SortByDistanceCorrect(s: seq<NearbyMission>)
    ensures SortedByDistance(SortByDistance(s))
    ensures multiset(SortByDistance(s)) == multiset(s)
  {
    if s != [] {
      var init := s[..|s| - 1];
      SortByDistanceCorrect(init);
      InsertKeepsSorted(s[|s| - 1], SortByDistance(init));
      assert s == init + [s[|s| - 1]];
    }
  }

  /** getNearbyMissions after the role check: filter, attach the distance, sort ascending by distance. */
  function NearbyMissions(missions: seq<Mission>, lat: real, lon: real, radiusKm: real, dist: DistanceFn): seq<NearbyMission> {
    SortByDistance(Candidates(missions, |missions|, lat, lon, radiusKm, dist))
  }

  /**
   * The nearby list holds exactly the pending missions whose truthy pickup
   * point is within the radius, each once and with its distance, nearest
   * first, equal distances in table order.
   */
  lemma NearbyMissionsCorrect(missions: seq<Mission>, lat: real, lon: real, radiusKm: real, dist: DistanceFn)
    ensures var r := NearbyMissions(missions, lat, lon, radiusKm, dist);
      && SortedByDistance(r)
      && TiesById(r)
      && (forall x :: x in r <==> Listed(x, missions, lat, lon, radiusKm, dist))
      && multiset(r) == multiset(Candidates(missions, |missions|, lat, lon, radiusKm, dist))
  {
    var c := Candidates(missions, |missions|, lat, lon, radiusKm, dist);
    CandidatesAreListed(missions, |missions|, lat, lon, radiusKm, dist);
    SortByDistanceCorrect(c);
    SortByDistanceStable(c);
    var r := SortByDistance(c);
    forall x ensures x in r <==> x in c {
      assert x in r <==> x in multiset(r);
      assert x in c <==> x in multiset(c);
    }
  }

  /** The radius of a provider's service area: serviceRadius || 10. */
  function ServiceRadius(u: User): real {
    if Truthy(u.serviceRadius) then u.serviceRadius.value else DefaultRadiusKm
  }

  /**
   * A provider the new mission at (lat, lon) is pushed to: the query's
   * conditions (provider, available, active, token and position present),
   * the filter's truthy position within the provider's own radius, and the
   * loop's truthy token check.
   */
  predicate Notifiable(u: User, lat: real, lon: real, dist: DistanceFn) {
    && u.role == Provider
    && u.isAvailable
    && u.status == Active
    && TruthyText(u.fcmToken)
    && Truthy(u.currentLatitude)
    && Truthy(u.currentLongitude)
    && dist(lat, lon, u.currentLatitude.value, u.currentLongitude.value) <= ServiceRadius(u)
  }

  /** The ids below n of the providers to notify, ascending (table order). */
  function NotifiableProviders(users: seq<User>, n: nat, lat: real, lon: real, dist: DistanceFn): seq<nat>
    requires n <= |users|
  {
    if n == 0 then []
    else NotifiableProviders(users, n - 1, lat, lon, dist) + (if Notifiable(users[n - 1], lat, lon, dist) then [n - 1] else [])
  }

  /** Exactly the notifiable providers below n, each once, in ascending id order. */
  lemma {:induction false} NotifiableProvidersCorrect(users: seq<User>, n: nat, lat: real, lon: real, dist: DistanceFn)
    requires n <= |users|
    ensures var ps := NotifiableProviders(users, n, lat, lon, dist);
      && (forall p: nat :: p in ps <==> p < n && Notifiable(users[p], lat, lon, dist))
      && (forall i, j :: 0 <= i < j < |ps| ==> ps[i] < ps[j])
  {
    if n > 0 {
      NotifiableProvidersCorrect(users, n - 1, lat, lon, dist);
      var prev := NotifiableProviders(users, n - 1, lat, lon, dist);
      assert forall k :: 0 <= k < |prev| ==> prev[k] < n - 1 by {
        forall k | 0 <= k < |prev| ensures prev[k] < n - 1 {
          assert prev[k] in prev;
        }
      }
    }
  }

  /** The list for a shorter table is a prefix of the list for a longer one. */
  lemma {:induction false} NotifiableProvidersPrefix(users: seq<User>, i: nat, n: nat, lat: real, lon: real, dist: DistanceFn)
    requires i <= n <= |users|
    ensures NotifiableProviders(users, i, lat, lon, dist) <= NotifiableProviders(users, n, lat, lon, dist)
  {
    if i < n {
      NotifiableProvidersPrefix(users, i, n - 1, lat, lon, dist);
    }
  }
}
