/**
 * The mission service: creation with the new-mission fan-out, the
 * lifecycle transitions (accept, start, complete, cancel) with their role,
 * ownership and status guards in the source's order, and the read queries
 * (a user's missions, nearby missions, one mission).
 *
 * Timestamps are the supplied clock value `now`; a push delivery outcome is
 * the supplied flag `pushOk` (or `delivered` per provider for the fan-out).
 * A push that fails throws after the writes already made, so the call
 * returns PushFailed with those writes kept and the later ones skipped.
 */
module MissionService {
  import opened Records
  import opened Fees
  import opened Lifecycle
  import opened Store
  import opened Proximity

  const OnlyClientsCreate := AppError(403, "Only clients can create missions")
  const OnlyProvidersNearby := AppError(403, "Only providers can view nearby missions")
  const OnlyProvidersAccept := AppError(403, "Only providers can accept missions")
  const NotAvailable := AppError(400, "Mission is not available")
  const MustBeAccepted := AppError(400, "Mission must be accepted first")
  const MustBeInProgress := AppError(400, "Mission must be in progress")
  const CannotCancelCompleted := AppError(400, "Cannot cancel completed missions")

  /** The fields a client submits for a new mission. */
  datatype MissionInput = MissionInput(
    title: string,
    description: string,
    category: string,
    pickupAddress: string,
    pickupLatitude: Option<real>,
    pickupLongitude: Option<real>,
    deliveryAddress: Option<string>,
    deliveryLatitude: Option<real>,
    deliveryLongitude: Option<real>,
    urgency: Urgency,
    clientPrice: real,
    estimatedDuration: Option<int>,
    notes: Option<string>)

  /** The controller's validation: non-empty texts and a price of at least 1. */
  predicate ValidInput(d: MissionInput) {
    && d.title != ""
    && d.description != ""
    && d.category != ""
    && d.pickupAddress != ""
    && d.clientPrice >= 1.0
  }

  /** isAdmin: the user exists and is an administrator. */
  function IsAdmin(users: seq<User>, id: nat): (b: bool)
    ensures b <==> id < |users| && users[id].role == Admin
  {
    HasRole(users, id, Admin)
  }

  /** The record createMission stores: pending, unassigned, with the fee split of its price. */
  function NewMissionRecord(clientId: nat, d: MissionInput, now: nat): Mission {
    var split := CalculateFees(d.clientPrice, PlatformCommission);
    Mission(clientId, None, d.title, d.description, d.category,
            d.pickupAddress, d.pickupLatitude, d.pickupLongitude,
            d.deliveryAddress, d.deliveryLatitude, d.deliveryLongitude,
            d.urgency, d.clientPrice, split.platformFee, split.providerEarning,
            d.estimatedDuration, d.notes, Pending, now, None, None, None)
  }

  /** The providers a new mission is pushed to: none without a truthy pickup point. */
  function FanOutTargets(users: seq<User>, m: Mission, dist: DistanceFn): seq<nat> {
    if HasPickup(m) then NotifiableProviders(users, |users|, m.pickupLatitude.value, m.pickupLongitude.value, dist)
    else []
  }

  /** One NEW_MISSION record per provider, in order. */
  function NewMissionRecords(providers: seq<nat>, missionId: nat): (r: seq<Notification>)
    ensures |r| == |providers|
  {
    if providers == [] then []
    else
      NewMissionRecords(providers[..|providers| - 1], missionId)
        + [Notification(providers[|providers| - 1], NewMission, missionId)]
  }

  /** The k-th record is the NEW_MISSION notification of the k-th provider. */
  lemma {:induction false} NewMissionRecordsAt(providers: seq<nat>, missionId: nat)
    ensures forall i :: 0 <= i < |providers| ==>
      NewMissionRecords(providers, missionId)[i] == Notification(providers[i], NewMission, missionId)
  {
    if providers != [] {
      NewMissionRecordsAt(providers[..|providers| - 1], missionId);
    }
  }

  /**
   * The outcome of the fan-out loop: when every push is delivered, one
   * record per target; otherwise records for the targets before the first
   * failed push only.
   */
  predicate FannedOut(before: seq<Notification>, after: seq<Notification>, targets: seq<nat>,
                      delivered: nat -> bool, missionId: nat, ok: bool)
  {
    && (ok <==> forall j :: 0 <= j < |targets| ==> delivered(targets[j]))
    && (ok ==> after == before + NewMissionRecords(targets, missionId))
    && (!ok ==> exists k :: 0 <= k < |targets| && !delivered(targets[k])
                 && (forall j :: 0 <= j < k ==> delivered(targets[j]))
                 && after == before + NewMissionRecords(targets[..k], missionId))
  }

  /**
   * The loop of notifyNearbyProviders: walks the users in table order,
   * pushing to each notifiable provider and then recording its NEW_MISSION
   * notification; the first failed push ends the walk. Returns the records
   * written and whether every push was delivered.
   */
  method FanOut(users: seq<User>, missionId: nat, lat: real, lon: real, dist: DistanceFn, delivered: nat -> bool)
    returns (records: seq<Notification>, ok: bool)
    ensures FannedOut([], records, NotifiableProviders(users, |users|, lat, lon, dist), delivered, missionId, ok)
  {
    records, ok := [], true;
    var i := 0;
    while i < |users| && ok
      invariant 0 <= i <= |users|
      invariant Walked(users, i, lat, lon, dist, delivered, missionId, records)
      invariant !ok ==> i < |users| && Notifiable(users[i], lat, lon, dist) && !delivered(i)
      decreases |users| - i, ok
    {
      if Notifiable(users[i], lat, lon, dist) {
        if !delivered(i) {
          ok := false;
        } else {
          WalkStep(users, i, lat, lon, dist, delivered, missionId, records);
          records := records + [Notification(i, NewMission, missionId)];
          i := i + 1;
        }
      } else {
        WalkStep(users, i, lat, lon, dist, delivered, missionId, records);
        i := i + 1;
      }
    }
    if ok {
      WalkDone(users, lat, lon, dist, delivered, missionId, records);
    } else {
      WalkStopped(users, i, lat, lon, dist, delivered, missionId, records);
    }
  }

  /**
   * The loop invariant of the fan-out after the users below n: every
   * notifiable provider among them was delivered its push and has its
   * record, in order.
   */
  predicate Walked(users: seq<User>, n: nat, lat: real, lon: real, dist: DistanceFn, delivered: nat -> bool,
                   missionId: nat, records: seq<Notification>)
    requires n <= |users|
  {
    var done := NotifiableProviders(users, n, lat, lon, dist);
    && (forall j :: 0 <= j < |done| ==> delivered(done[j]))
    && records == NewMissionRecords(done, missionId)
  }

  /** Passing user i, whose push (if any) was delivered, extends the walk. */
  lemma WalkStep(users: seq<User>, i: nat, lat: real, lon: real, dist: DistanceFn, delivered: nat -> bool,
                 missionId: nat, records: seq<Notification>)
    requires i < |users| && Walked(users, i, lat, lon, dist, delivered, missionId, records)
    requires Notifiable(users[i], lat, lon, dist) ==> delivered(i)
    ensures Walked(users, i + 1, lat, lon, dist, delivered, missionId,
                   if Notifiable(users[i], lat, lon, dist) then records + [Notification(i, NewMission, missionId)] else records)
  {
    var done := NotifiableProviders(users, i, lat, lon, dist);
    if Notifiable(users[i], lat, lon, dist) {
      assert NotifiableProviders(users, i + 1, lat, lon, dist) == done + [i];
      RecordsSnoc(done, i, missionId);
    } else {
      assert NotifiableProviders(users, i + 1, lat, lon, dist) == done;
    }
  }

  /** A walk over every user has delivered every push and written one record per target. */
  lemma WalkDone(users: seq<User>, lat: real, lon: real, dist: DistanceFn, delivered: nat -> bool,
                 missionId: nat, records: seq<Notification>)
    requires Walked(users, |users|, lat, lon, dist, delivered, missionId, records)
    ensures FannedOut([], records, NotifiableProviders(users, |users|, lat, lon, dist), delivered, missionId, true)
  {
    var targets := NotifiableProviders(users, |users|, lat, lon, dist);
    assert [] + records == records;
  }

  /** A walk stopped by a failed push to user i has written the records of the targets before i only. */
  lemma WalkStopped(users: seq<User>, i: nat, lat: real, lon: real, dist: DistanceFn, delivered: nat -> bool,
                    missionId: nat, records: seq<Notification>)
    requires i < |users| && Walked(users, i, lat, lon, dist, delivered, missionId, records)
    requires Notifiable(users[i], lat, lon, dist) && !delivered(i)
    ensures FannedOut([], records, NotifiableProviders(users, |users|, lat, lon, dist), delivered, missionId, false)
  {
    var targets := NotifiableProviders(users, |users|, lat, lon, dist);
    var done := NotifiableProviders(users, i, lat, lon, dist);
    NextTarget(users, i, lat, lon, dist);
    StopAt(targets, done, records, delivered, missionId);
  }

  /** A notifiable user at position i is the next target after those below i. */
  lemma NextTarget(users: seq<User>, i: nat, lat: real, lon: real, dist: DistanceFn)
    requires i < |users| && Notifiable(users[i], lat, lon, dist)
    ensures var targets := NotifiableProviders(users, |users|, lat, lon, dist);
      var done := NotifiableProviders(users, i, lat, lon, dist);
      |done| < |targets| && targets[..|done|] == done && targets[|done|] == i
  {
    NotifiableProvidersPrefix(users, i + 1, |users|, lat, lon, dist);
    assert NotifiableProviders(users, i + 1, lat, lon, dist) == NotifiableProviders(users, i, lat, lon, dist) + [i];
  }

  /** A walk that failed on the target after done has written the records of done only. */
  lemma StopAt(targets: seq<nat>, done: seq<nat>, records: seq<Notification>, delivered: nat -> bool, missionId: nat)
    requires |done| < |targets| && targets[..|done|] == done && !delivered(targets[|done|])
    requires forall j :: 0 <= j < |done| ==> delivered(done[j])
    requires records == NewMissionRecords(done, missionId)
    ensures FannedOut([], records, targets, delivered, missionId, false)
  {
    StopFannedOut([], targets, |done|, delivered, missionId);
    assert [] + records == records;
  }

  /** Every record of the fan-out is about an existing provider and the new mission. */
  lemma FanOutRecordsOk(users: seq<User>, missionCount: nat, missionId: nat, targets: seq<nat>, records: seq<Notification>)
    requires missionId < missionCount
    requires forall p :: p in targets ==> p < |users|
    requires records <= NewMissionRecords(targets, missionId)
    ensures NotificationsOk(|users|, missionCount, records)
  {
    NewMissionRecordsAt(targets, missionId);
    forall k | 0 <= k < |records| ensures records[k].userId < |users| {
      assert targets[k] in targets;
    }
  }

  /**
   * notifyNearbyProviders: pushes the new mission to every notifiable
   * provider near its pickup point (nobody when it has none) and appends
   * their records; the first failed push ends the walk.
   */
  method NotifyNearbyProviders(db: Db, missionId: nat, dist: DistanceFn, delivered: nat -> bool) returns (ok: bool)
    requires db.Valid() && missionId < |db.missions|
    modifies db`notifications
    ensures db.Valid()
    ensures FannedOut(old(db.notifications), db.notifications, FanOutTargets(db.users, db.missions[missionId], dist),
                      delivered, missionId, ok)
  {
    var m := db.missions[missionId];
    if !HasPickup(m) {
      return true;
    }
    var lat, lon := m.pickupLatitude.value, m.pickupLongitude.value;
    var records;
    records, ok := FanOut(db.users, missionId, lat, lon, dist, delivered);
    ghost var targets := NotifiableProviders(db.users, |db.users|, lat, lon, dist);
    NotifiableProvidersCorrect(db.users, |db.users|, lat, lon, dist);
    FannedOutAppend(db.notifications, records, targets, delivered, missionId, ok);
    FanOutRecordsOk(db.users, |db.missions|, missionId, targets, records);
    assert FanOutTargets(db.users, m, dist) == targets;
    NotificationsAppendOk(|db.users|, |db.missions|, db.notifications, records);
    db.notifications := db.notifications + records;
  }

  lemma NotificationsAppendOk(userCount: nat, missionCount: nat, notes: seq<Notification>, records: seq<Notification>)
    requires NotificationsOk(userCount, missionCount, notes) && NotificationsOk(userCount, missionCount, records)
    ensures NotificationsOk(userCount, missionCount, notes + records)
  {
  }

  /** The fan-out's records, appended to any table, give the fan-out outcome on that table. */
  lemma FannedOutAppend(before: seq<Notification>, records: seq<Notification>, targets: seq<nat>,
                        delivered: nat -> bool, missionId: nat, ok: bool)
    requires FannedOut([], records, targets, delivered, missionId, ok)
    ensures FannedOut(before, before + records, targets, delivered, missionId, ok)
    ensures records <= NewMissionRecords(targets, missionId)
  {
    if !ok {
      var k :| 0 <= k < |targets| && !delivered(targets[k])
                 && (forall j :: 0 <= j < k ==> delivered(targets[j]))
                 && records == [] + NewMissionRecords(targets[..k], missionId);
      assert records == NewMissionRecords(targets[..k], missionId);
      PrefixRecords(targets, k, missionId);
    } else {
      assert records == NewMissionRecords(targets, missionId);
    }
  }

  lemma PrefixRecords(targets: seq<nat>, k: nat, missionId: nat)
    requires k <= |targets|
    ensures NewMissionRecords(targets[..k], missionId) <= NewMissionRecords(targets, missionId)
  {
    NewMissionRecordsAt(targets, missionId);
    NewMissionRecordsAt(targets[..k], missionId);
  }

  lemma RecordsSnoc(ps: seq<nat>, p: nat, missionId: nat)
    ensures NewMissionRecords(ps + [p], missionId) == NewMissionRecords(ps, missionId) + [Notification(p, NewMission, missionId)]
  {
    assert (ps + [p])[..|ps|] == ps;
  }

  /** Stopping at the first failed push leaves the records of the targets before it. */
  lemma StopFannedOut(before: seq<Notification>, targets: seq<nat>, k: nat, delivered: nat -> bool, missionId: nat)
    requires k < |targets| && !delivered(targets[k])
    requires forall j :: 0 <= j < k ==> delivered(targets[..k][j])
    ensures FannedOut(before, before + NewMissionRecords(targets[..k], missionId), targets, delivered, missionId, false)
  {
    forall j | 0 <= j < k ensures delivered(targets[j]) {
      assert targets[..k][j] == targets[j];
    }
  }

  /**
   * createMission: only an existing CLIENT may create (403, nothing
   * created); the new mission is pending, unassigned and carries the fee
   * split of its price; then the fan-out runs.
   */
  method CreateMission(db: Db, clientId: nat, d: MissionInput, now: nat, dist: DistanceFn, delivered: nat -> bool)
    returns (r: Result<Mission>)
    requires db.Valid() && ValidInput(d)
    modifies db`missions, db`notifications
    ensures db.Valid() && Evolves(old(db.missions), db.missions)
    ensures !HasRole(db.users, clientId, Client) ==> r == Failure(OnlyClientsCreate) && unchanged(db)
    ensures HasRole(db.users, clientId, Client) ==>
      var m := NewMissionRecord(clientId, d, now);
      && db.missions == old(db.missions) + [m]
      && exists ok ::
           && FannedOut(old(db.notifications), db.notifications, FanOutTargets(db.users, m, dist), delivered, |old(db.missions)|, ok)
           && r == (if ok then Success(m) else Failure(PushFailed))
  {
    if !HasRole(db.users, clientId, Client) {
      return Failure(OnlyClientsCreate);
    }
    var m := NewMissionRecord(clientId, d, now);
    db.missions := db.missions + [m];
    var ok := NotifyNearbyProviders(db, |db.missions| - 1, dist, delivered);
    r := if ok then Success(m) else Failure(PushFailed);
  }

  /** The missions a user lists: their own as client or provider (all for an administrator), optionally of one status. */
  predicate ListedFor(m: Mission, userId: nat, role: Role, status: Option<MissionStatus>) {
    && (status.Some? ==> m.status == status.value)
    && (role == Client ==> m.clientId == userId)
    && (role == Provider ==> m.providerId == Some(userId))
  }

  /** The ids below n of the missions a user lists, newest first. */
  function UserMissionIds(missions: seq<Mission>, n: nat, userId: nat, role: Role, status: Option<MissionStatus>): seq<nat>
    requires n <= |missions|
  {
    if n == 0 then []
    else
      (if ListedFor(missions[n - 1], userId, role, status) then [n - 1] else [])
        + UserMissionIds(missions, n - 1, userId, role, status)
  }

  /** getUserMissions lists exactly the user's missions (of the given status), newest first, each once. */
  lemma {:induction false} UserMissionIdsCorrect(missions: seq<Mission>, n: nat, userId: nat, role: Role, status: Option<MissionStatus>)
    requires n <= |missions|
    ensures var ids := UserMissionIds(missions, n, userId, role, status);
      && (forall id: nat :: id in ids <==> id < n && ListedFor(missions[id], userId, role, status))
      && (forall i, j :: 0 <= i < j < |ids| ==> ids[i] > ids[j])
  {
    if n > 0 {
      UserMissionIdsCorrect(missions, n - 1, userId, role, status);
      var rest := UserMissionIds(missions, n - 1, userId, role, status);
      assert forall k :: 0 <= k < |rest| ==> rest[k] < n - 1 by {
        forall k | 0 <= k < |rest| ensures rest[k] < n - 1 {
          assert rest[k] in rest;
        }
      }
    }
  }

  /**
   * getUserMissions: the missions of the caller in the given role (as
   * client, as provider, or every mission for any other role), of the given
   * status when one is given, newest first, each once.
   */
  function GetUserMissions(missions: seq<Mission>, userId: nat, role: Role, status: Option<MissionStatus>): (ids: seq<nat>)
    ensures forall id: nat :: id in ids <==> id < |missions| && ListedFor(missions[id], userId, role, status)
    ensures forall i, j :: 0 <= i < j < |ids| ==> ids[i] > ids[j]
  {
    UserMissionIdsCorrect(missions, |missions|, userId, role, status);
    UserMissionIds(missions, |missions|, userId, role, status)
  }

  /** getMissionById: 404 for an unknown mission, then access only for its client, its provider or an administrator. */
  function GetMissionById(users: seq<User>, missions: seq<Mission>, missionId: nat, userId: nat): (r: Result<Mission>)
    ensures missionId >= |missions| ==> r == Failure(MissionNotFound)
    ensures missionId < |missions| ==>
      var m := missions[missionId];
      if m.clientId == userId || m.providerId == Some(userId) || IsAdmin(users, userId)
      then r == Success(m) else r == Failure(AccessDenied)
  {
    if missionId >= |missions| then Failure(MissionNotFound)
    else
      var m := missions[missionId];
      if m.clientId != userId && m.providerId != Some(userId) && !IsAdmin(users, userId) then Failure(AccessDenied)
      else Success(m)
  }

  /**
   * getNearbyMissions: providers only (403); otherwise exactly the pending
   * missions with a truthy pickup point within the radius (10 km when
   * omitted), each with its distance, nearest first, equal distances in
   * table order.
   */
  function GetNearbyMissions(users: seq<User>, missions: seq<Mission>, providerId: nat, lat: real, lon: real,
                             radiusKm: Option<real>, dist: DistanceFn): (r: Result<seq<NearbyMission>>)
    ensures r.Failure? <==> !HasRole(users, providerId, Provider)
    ensures r.Failure? ==> r.error == OnlyProvidersNearby
    ensures r.Success? ==>
      && SortedByDistance(r.value)
      && TiesById(r.value)
      && (forall x :: x in r.value <==> Listed(x, missions, lat, lon, RadiusOrDefault(radiusKm), dist))
  {
    if !HasRole(users, providerId, Provider) then Failure(OnlyProvidersNearby)
    else
      NearbyMissionsCorrect(missions, lat, lon, RadiusOrDefault(radiusKm), dist);
      Success(NearbyMissions(missions, lat, lon, RadiusOrDefault(radiusKm), dist))
  }

  /**
   * acceptMission: a non-provider caller gets 403, an unknown mission 404,
   * a mission that is not pending 400; otherwise the caller becomes the
   * provider, the mission is accepted, and the client gets one
   * MISSION_ACCEPTED record unless the push to the client failed.
   */
  method AcceptMission(db: Db, missionId: nat, providerId: nat, now: nat, pushOk: bool) returns (r: Result<Mission>)
    requires db.Valid()
    modifies db`missions, db`notifications
    ensures db.Valid() && Evolves(old(db.missions), db.missions)
    ensures !HasRole(db.users, providerId, Provider) ==> r == Failure(OnlyProvidersAccept) && unchanged(db)
    ensures HasRole(db.users, providerId, Provider) && missionId >= |old(db.missions)| ==>
      r == Failure(MissionNotFound) && unchanged(db)
    ensures HasRole(db.users, providerId, Provider) && missionId < |old(db.missions)|
            && old(db.missions)[missionId].status != Pending ==>
      r == Failure(NotAvailable) && unchanged(db)
    ensures HasRole(db.users, providerId, Provider) && missionId < |old(db.missions)|
            && old(db.missions)[missionId].status == Pending ==>
      var m := old(db.missions)[missionId];
      var accepted := m.(providerId := Some(providerId), status := Accepted, acceptedAt := Some(now));
      var pushFails := TruthyText(db.users[m.clientId].fcmToken) && !pushOk;
      && db.missions == old(db.missions)[missionId := accepted]
      && db.notifications == old(db.notifications)
           + (if pushFails then [] else [Notification(m.clientId, MissionAccepted, missionId)])
      && r == (if pushFails then Failure(PushFailed) else Success(accepted))
  {
    if !HasRole(db.users, providerId, Provider) {
      return Failure(OnlyProvidersAccept);
    }
    if missionId >= |db.missions| {
      return Failure(MissionNotFound);
    }
    var m := db.missions[missionId];
    if m.status != Pending {
      return Failure(NotAvailable);
    }
    var accepted := m.(providerId := Some(providerId), status := Accepted, acceptedAt := Some(now));
    db.missions := db.missions[missionId := accepted];
    if TruthyText(db.users[m.clientId].fcmToken) && !pushOk {
      return Failure(PushFailed);
    }
    db.notifications := db.notifications + [Notification(m.clientId, MissionAccepted, missionId)];
    r := Success(accepted);
  }

  /**
   * startMission: 404 for an unknown mission, 403 unless the caller is the
   * assigned provider (checked before the status), 400 unless accepted;
   * then in progress with its start time. No notification record.
   */
  method StartMission(db: Db, missionId: nat, providerId: nat, now: nat, pushOk: bool) returns (r: Result<Mission>)
    requires db.Valid()
    modifies db`missions
    ensures db.Valid() && Evolves(old(db.missions), db.missions)
    ensures missionId >= |old(db.missions)| ==> r == Failure(MissionNotFound) && unchanged(db)
    ensures missionId < |old(db.missions)| && old(db.missions)[missionId].providerId != Some(providerId) ==>
      r == Failure(AccessDenied) && unchanged(db)
    ensures missionId < |old(db.missions)| && old(db.missions)[missionId].providerId == Some(providerId)
            && old(db.missions)[missionId].status != Accepted ==>
      r == Failure(MustBeAccepted) && unchanged(db)
    ensures missionId < |old(db.missions)| && old(db.missions)[missionId].providerId == Some(providerId)
            && old(db.missions)[missionId].status == Accepted ==>
      var m := old(db.missions)[missionId];
      var started := m.(status := InProgress, startedAt := Some(now));
      && db.missions == old(db.missions)[missionId := started]
      && r == (if TruthyText(db.users[m.clientId].fcmToken) && !pushOk then Failure(PushFailed) else Success(started))
  {
    if missionId >= |db.missions| {
      return Failure(MissionNotFound);
    }
    var m := db.missions[missionId];
    if m.providerId != Some(providerId) {
      return Failure(AccessDenied);
    }
    if m.status != Accepted {
      return Failure(MustBeAccepted);
    }
    var started := m.(status := InProgress, startedAt := Some(now));
    db.missions := db.missions[missionId := started];
    r := if TruthyText(db.users[m.clientId].fcmToken) && !pushOk then Failure(PushFailed) else Success(started);
  }

  /**
   * completeMission: 404, then 403 unless the caller is the assigned
   * provider, then 400 unless in progress; then completed with its
   * completion time. No notification record.
   */
  method CompleteMission(db: Db, missionId: nat, providerId: nat, now: nat, pushOk: bool) returns (r: Result<Mission>)
    requires db.Valid()
    modifies db`missions
    ensures db.Valid() && Evolves(old(db.missions), db.missions)
    ensures missionId >= |old(db.missions)| ==> r == Failure(MissionNotFound) && unchanged(db)
    ensures missionId < |old(db.missions)| && old(db.missions)[missionId].providerId != Some(providerId) ==>
      r == Failure(AccessDenied) && unchanged(db)
    ensures missionId < |old(db.missions)| && old(db.missions)[missionId].providerId == Some(providerId)
            && old(db.missions)[missionId].status != InProgress ==>
      r == Failure(MustBeInProgress) && unchanged(db)
    ensures missionId < |old(db.missions)| && old(db.missions)[missionId].providerId == Some(providerId)
            && old(db.missions)[missionId].status == InProgress ==>
      var m := old(db.missions)[missionId];
      var completed := m.(status := Completed, completedAt := Some(now));
      && db.missions == old(db.missions)[missionId := completed]
      && r == (if TruthyText(db.users[m.clientId].fcmToken) && !pushOk then Failure(PushFailed) else Success(completed))
  {
    if missionId >= |db.missions| {
      return Failure(MissionNotFound);
    }
    var m := db.missions[missionId];
    if m.providerId != Some(providerId) {
      return Failure(AccessDenied);
    }
    if m.status != InProgress {
      return Failure(MustBeInProgress);
    }
    var completed := m.(status := Completed, completedAt := Some(now));
    db.missions := db.missions[missionId := completed];
    r := if TruthyText(db.users[m.clientId].fcmToken) && !pushOk then Failure(PushFailed) else Success(completed);
  }

  /**
   * cancelMission: 404, then 403 unless the caller is the client or the
   * assigned provider, then 400 for a completed mission; otherwise only
   * the status changes, to cancelled (the provider is kept; a cancelled
   * mission may be cancelled again).
   */
  method CancelMission(db: Db, missionId: nat, userId: nat, pushOk: bool) returns (r: Result<Mission>)
    requires db.Valid()
    modifies db`missions
    ensures db.Valid() && Evolves(old(db.missions), db.missions)
    ensures missionId >= |old(db.missions)| ==> r == Failure(MissionNotFound) && unchanged(db)
    ensures missionId < |old(db.missions)|
            && old(db.missions)[missionId].clientId != userId && old(db.missions)[missionId].providerId != Some(userId) ==>
      r == Failure(AccessDenied) && unchanged(db)
    ensures missionId < |old(db.missions)|
            && (old(db.missions)[missionId].clientId == userId || old(db.missions)[missionId].providerId == Some(userId))
            && old(db.missions)[missionId].status == Completed ==>
      r == Failure(CannotCancelCompleted) && unchanged(db)
    ensures missionId < |old(db.missions)|
            && (old(db.missions)[missionId].clientId == userId || old(db.missions)[missionId].providerId == Some(userId))
            && old(db.missions)[missionId].status != Completed ==>
      var m := old(db.missions)[missionId];
      var cancelled := m.(status := Cancelled);
      var other := OtherParty(m, userId);
      var pushFails := other.Some? && TruthyText(db.users[other.value].fcmToken) && !pushOk;
      && db.missions == old(db.missions)[missionId := cancelled]
      && r == (if pushFails then Failure(PushFailed) else Success(cancelled))
  {
    if missionId >= |db.missions| {
      return Failure(MissionNotFound);
    }
    var m := db.missions[missionId];
    if m.clientId != userId && m.providerId != Some(userId) {
      return Failure(AccessDenied);
    }
    if m.status == Completed {
      return Failure(CannotCancelCompleted);
    }
    var cancelled := m.(status := Cancelled);
    db.missions := db.missions[missionId := cancelled];
    var other := OtherParty(m, userId);
    if other.Some? && TruthyText(db.users[other.value].fcmToken) && !pushOk {
      return Failure(PushFailed);
    }
    r := Success(cancelled);
  }
}
