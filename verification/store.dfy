/**
 * The in-memory store that stands in for the relational database: one
 * table per record kind, each a sequence whose positions are the ids
 * (no record is ever deleted). Valid() is the store invariant every
 * service operation keeps.
 */
module Store {
  import opened Records
  import opened Fees
  import opened Lifecycle
  import opened RatingMath

  /** Registered e-mail addresses are unique. */
  predicate EmailsUnique(users: seq<User>) {
    forall i, j :: 0 <= i < j < |users| ==> users[i].email != users[j].email
  }

  /** The user exists and has the given role. */
  predicate HasRole(users: seq<User>, id: nat, role: Role) {
    id < |users| && users[id].role == role
  }

  /**
   * The party a mission's user deals with: the provider, if one is
   * assigned, when the user is the client, and the client otherwise.
   */
  function OtherParty(m: Mission, userId: nat): (r: Option<nat>)
    ensures r.None? <==> userId == m.clientId && m.providerId.None?
    ensures r.Some? ==> r.value == m.clientId || m.providerId == Some(r.value)
    ensures (userId == m.clientId || m.providerId == Some(userId)) && m.providerId != Some(m.clientId) && r.Some? ==>
      r.value != userId
  {
    if userId == m.clientId then m.providerId else Some(m.clientId)
  }

  /**
   * Users: unique e-mails, no negative balance, and every user's rating
   * aggregate is the one recomputed from the ratings about them.
   */
  predicate UsersOk(users: seq<User>, ratings: seq<Rating>) {
    && EmailsUnique(users)
    && (forall u :: 0 <= u < |users| ==> users[u].balance >= 0.0)
    && (forall u :: 0 <= u < |users| ==>
          users[u].totalRatings == CountAbout(ratings, u) && users[u].averageRating == StoredAverage(ratings, u))
  }

  /**
   * A mission refers to existing users, its provider matches its status,
   * its price is at least 1 and its fee split is the one computed from the
   * price at creation.
   */
  predicate MissionOk(m: Mission, userCount: nat) {
    && m.clientId < userCount
    && (m.providerId.Some? ==> m.providerId.value < userCount)
    && AssignmentMatchesStatus(m)
    && m.clientPrice >= 1.0
    && Split(m.platformFee, m.providerEarning) == CalculateFees(m.clientPrice, PlatformCommission)
  }

  predicate MissionsOk(userCount: nat, missions: seq<Mission>) {
    forall i :: 0 <= i < |missions| ==> MissionOk(missions[i], userCount)
  }

  /**
   * A payment belongs to a completed mission, is paid by its client and
   * copies the mission's price and fee split.
   */
  predicate PaymentOk(p: Payment, missions: seq<Mission>) {
    && p.missionId < |missions|
    && var m := missions[p.missionId];
    && m.status == Completed
    && p.userId == m.clientId
    && p.amount == m.clientPrice
    && p.platformFee == m.platformFee
    && p.providerEarning == m.providerEarning
  }

  /** At most one payment per mission. */
  predicate OnePaymentPerMission(payments: seq<Payment>) {
    forall i, j :: 0 <= i < j < |payments| ==> payments[i].missionId != payments[j].missionId
  }

  predicate PaymentsOk(missions: seq<Mission>, payments: seq<Payment>) {
    && (forall i :: 0 <= i < |payments| ==> PaymentOk(payments[i], missions))
    && OnePaymentPerMission(payments)
  }

  /** The rater and the rated user are the two parties of the mission, in either order. */
  predicate RatesOtherParty(r: Rating, m: Mission) {
    || (r.raterId == m.clientId && m.providerId == Some(r.ratedId))
    || (m.providerId == Some(r.raterId) && r.ratedId == m.clientId)
  }

  /** A rating belongs to a completed mission, rates the other party, and its score is in 1..5. */
  predicate RatingOk(r: Rating, missions: seq<Mission>) {
    && r.missionId < |missions|
    && missions[r.missionId].status == Completed
    && RatesOtherParty(r, missions[r.missionId])
    && 1 <= r.score <= 5
  }

  /** At most one rating per mission. */
  predicate OneRatingPerMission(ratings: seq<Rating>) {
    forall i, j :: 0 <= i < j < |ratings| ==> ratings[i].missionId != ratings[j].missionId
  }

  predicate RatingsOk(missions: seq<Mission>, ratings: seq<Rating>) {
    && (forall i :: 0 <= i < |ratings| ==> RatingOk(ratings[i], missions))
    && OneRatingPerMission(ratings)
  }

  predicate MessagesOk(userCount: nat, missionCount: nat, messages: seq<Message>) {
    forall i :: 0 <= i < |messages| ==>
      messages[i].missionId < missionCount && messages[i].senderId < userCount && messages[i].receiverId < userCount
  }

  predicate NotificationsOk(userCount: nat, missionCount: nat, notifications: seq<Notification>) {
    forall i :: 0 <= i < |notifications| ==>
      notifications[i].userId < userCount && notifications[i].missionId < missionCount
  }

  class Db {
    var users: seq<User>
    var missions: seq<Mission>
    var payments: seq<Payment>
    var ratings: seq<Rating>
    var messages: seq<Message>
    var notifications: seq<Notification>

    ghost predicate Valid()
      reads this
    {
      && UsersOk(users, ratings)
      && MissionsOk(|users|, missions)
      && PaymentsOk(missions, payments)
      && RatingsOk(missions, ratings)
      && MessagesOk(|users|, |missions|, messages)
      && NotificationsOk(|users|, |missions|, notifications)
    }

    constructor ()
      ensures Valid()
      ensures users == [] && missions == [] && payments == []
      ensures ratings == [] && messages == [] && notifications == []
    {
      users, missions, payments := [], [], [];
      ratings, messages, notifications := [], [], [];
    }
  }

  /**
   * Replacing one user record by one with the same e-mail and rating
   * aggregate and a balance that is not negative keeps the users valid.
   */
  lemma UpdateUserKeepsUsersOk(users: seq<User>, ratings: seq<Rating>, i: nat, v: User)
    requires UsersOk(users, ratings) && i < |users|
    requires v.email == users[i].email && v.balance >= 0.0
    requires v.totalRatings == users[i].totalRatings && v.averageRating == users[i].averageRating
    ensures UsersOk(users[i := v], ratings)
  {
  }

  /** The ratings of a valid store are all about existing users and scored 1..5. */
  lemma RatingsAboutUsers(users: seq<User>, missions: seq<Mission>, ratings: seq<Rating>)
    requires MissionsOk(|users|, missions) && RatingsOk(missions, ratings)
    ensures ScoresInRange(ratings)
    ensures forall i :: 0 <= i < |ratings| ==> ratings[i].ratedId < |users|
  {
    forall i | 0 <= i < |ratings| ensures ratings[i].ratedId < |users| {
      assert RatingOk(ratings[i], missions);
      assert MissionOk(missions[ratings[i].missionId], |users|);
    }
  }

  /** In a valid store every user's stored average lies in [0, 5], and in [1, 5] once rated. */
  lemma StoredAverageInRange(db: Db, u: nat)
    requires db.Valid() && u < |db.users|
    ensures 0.0 <= db.users[u].averageRating <= 5.0
    ensures db.users[u].totalRatings > 0 ==> 1.0 <= db.users[u].averageRating
  {
    RatingsAboutUsers(db.users, db.missions, db.ratings);
    if CountAbout(db.ratings, u) > 0 {
      AverageInRange(db.ratings, u);
    }
  }

  /** In a valid store no balance is negative and every mission's earning is not negative. */
  lemma EarningsNotNegative(missions: seq<Mission>, userCount: nat, i: nat)
    requires MissionsOk(userCount, missions) && i < |missions|
    ensures missions[i].providerEarning >= 0.0 && missions[i].platformFee >= 0.0
  {
    assert MissionOk(missions[i], userCount);
    SplitNotNegative(missions[i].clientPrice, PlatformCommission);
  }
}
