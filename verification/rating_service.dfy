/**
 * The rating service: after a mission is completed, one of its two parties
 * rates the other once, and the rated user's rating count and rounded mean
 * are recomputed from all ratings about them.
 */
module RatingService {
  import opened Records
  import opened Lifecycle
  import opened RatingMath
  import opened Store

  const ScoreOutOfRange := AppError(400, "Score must be between 1 and 5")
  const NotCompleted := AppError(400, "Can only rate completed missions")
  const AlreadyRated := AppError(400, "Mission already rated")

  /** The rating of a mission, if any (the mission id is unique among ratings). */
  function FindRating(ratings: seq<Rating>, missionId: nat): (r: Option<nat>)
    ensures r.Some? ==> r.value < |ratings| && ratings[r.value].missionId == missionId
    ensures r.None? ==> forall i :: 0 <= i < |ratings| ==> ratings[i].missionId != missionId
  {
    LastWhere(ratings, (x: Rating) => x.missionId == missionId)
  }

  /** A completed mission always has a provider, so the rated party of a valid store always exists. */
  lemma CompletedHasRatedParty(m: Mission, raterId: nat)
    requires AssignmentMatchesStatus(m) && m.status == Completed
    ensures OtherParty(m, raterId).Some?
  {
  }

  /**
   * updateUserRating: the user's count becomes the number of ratings about
   * them and their average the mean of those scores rounded to a tenth (0
   * when there are none); nothing else changes.
   */
  method UpdateUserRating(db: Db, userId: nat)
    requires userId < |db.users|
    modifies db`users
    ensures db.users == old(db.users)[userId := old(db.users)[userId].(
              totalRatings := CountAbout(db.ratings, userId),
              averageRating := StoredAverage(db.ratings, userId))]
  {
    var total := CountAbout(db.ratings, userId);
    var average := if total > 0 then Round1(ScoreSum(db.ratings, userId) as real / total as real) else 0.0;
    db.users := db.users[userId := db.users[userId].(totalRatings := total, averageRating := average)];
  }

  /**
   * createRating: a score outside 1..5 is refused first (400), then an
   * unknown mission (404), a mission that is not completed (400), a rater
   * who is not a party (403) and a mission already rated by either party
   * (400); nothing is written on any of these. Otherwise the rating of the
   * other party is appended and that user's aggregate recomputed.
   */
  method CreateRating(db: Db, raterId: nat, missionId: nat, score: int, comment: Option<string>) returns (r: Result<Rating>)
    requires db.Valid()
    modifies db`ratings, db`users
    ensures db.Valid()
    ensures (score < 1 || score > 5) ==> r == Failure(ScoreOutOfRange) && unchanged(db)
    ensures 1 <= score <= 5 && missionId >= |db.missions| ==> r == Failure(MissionNotFound) && unchanged(db)
    ensures 1 <= score <= 5 && missionId < |db.missions| && db.missions[missionId].status != Completed ==>
      r == Failure(NotCompleted) && unchanged(db)
    ensures 1 <= score <= 5 && missionId < |db.missions| && db.missions[missionId].status == Completed
            && db.missions[missionId].clientId != raterId && db.missions[missionId].providerId != Some(raterId) ==>
      r == Failure(AccessDenied) && unchanged(db)
    ensures 1 <= score <= 5 && missionId < |db.missions| && db.missions[missionId].status == Completed
            && (db.missions[missionId].clientId == raterId || db.missions[missionId].providerId == Some(raterId))
            && FindRating(old(db.ratings), missionId).Some? ==>
      r == Failure(AlreadyRated) && unchanged(db)
    ensures 1 <= score <= 5 && missionId < |db.missions| && db.missions[missionId].status == Completed
            && (db.missions[missionId].clientId == raterId || db.missions[missionId].providerId == Some(raterId))
            && FindRating(old(db.ratings), missionId).None? ==>
      var rated := OtherParty(db.missions[missionId], raterId);
      && rated.Some?
      && var rating := Rating(missionId, raterId, rated.value, score, comment);
      && db.ratings == old(db.ratings) + [rating]
      && FindRating(db.ratings, missionId).Some?
      && r == Success(rating)
      && rated.value < |old(db.users)|
      && db.users == old(db.users)[rated.value := old(db.users)[rated.value].(
           totalRatings := CountAbout(db.ratings, rated.value),
           averageRating := StoredAverage(db.ratings, rated.value))]
      && CountAbout(db.ratings, rated.value) == old(db.users)[rated.value].totalRatings + 1
  {
    if score < 1 || score > 5 {
      return Failure(ScoreOutOfRange);
    }
    if missionId >= |db.missions| {
      return Failure(MissionNotFound);
    }
    var m := db.missions[missionId];
    if m.status != Completed {
      return Failure(NotCompleted);
    }
    if m.clientId != raterId && m.providerId != Some(raterId) {
      return Failure(AccessDenied);
    }
    if FindRating(db.ratings, missionId).Some? {
      return Failure(AlreadyRated);
    }
    assert MissionOk(m, |db.users|);
    var rated := OtherParty(m, raterId);
    if rated.None? {
      assert false;
    }
    var rating := Rating(missionId, raterId, rated.value, score, comment);
    SaveRating(db, rating);
    r := Success(rating);
  }

  /**
   * The writes of a new rating: it is appended and the rated user's
   * aggregate recomputed with UpdateUserRating.
   */
  method SaveRating(db: Db, rating: Rating)
    requires db.Valid() && RatingOk(rating, db.missions) && FindRating(db.ratings, rating.missionId).None?
    modifies db`ratings, db`users
    ensures db.Valid()
    ensures db.ratings == old(db.ratings) + [rating]
    ensures FindRating(db.ratings, rating.missionId).Some?
    ensures var u := rating.ratedId;
      && u < |old(db.users)|
      && db.users == old(db.users)[u := old(db.users)[u].(
           totalRatings := CountAbout(db.ratings, u), averageRating := StoredAverage(db.ratings, u))]
      && CountAbout(db.ratings, u) == old(db.users)[u].totalRatings + 1
  {
    var after := db.ratings + [rating];
    ghost var u := rating.ratedId;
    assert MissionOk(db.missions[rating.missionId], |db.users|);
    ghost var rerated := db.users[u := db.users[u].(totalRatings := CountAbout(after, u), averageRating := StoredAverage(after, u))];
    AppendRatingKeepsRatingsOk(db.missions, db.ratings, rating);
    RerateKeepsUsersOk(db.users, db.ratings, rating);
    assert MissionsOk(|rerated|, db.missions) && MessagesOk(|rerated|, |db.missions|, db.messages)
      && NotificationsOk(|rerated|, |db.missions|, db.notifications);
    db.ratings := after;
    UpdateUserRating(db, rating.ratedId);
    assert db.users == rerated;
  }

  /** A rating of a completed mission that has none keeps the ratings valid. */
  lemma AppendRatingKeepsRatingsOk(missions: seq<Mission>, ratings: seq<Rating>, rating: Rating)
    requires RatingsOk(missions, ratings) && RatingOk(rating, missions)
    requires FindRating(ratings, rating.missionId).None?
    ensures RatingsOk(missions, ratings + [rating])
    ensures FindRating(ratings + [rating], rating.missionId) == Some(|ratings|)
  {
  }

  /**
   * Recomputing the rated user's aggregate after a new rating keeps the
   * users valid: that user's count grows by one, and no other user's
   * aggregate changes.
   */
  lemma RerateKeepsUsersOk(users: seq<User>, ratings: seq<Rating>, rating: Rating)
    requires UsersOk(users, ratings) && rating.ratedId < |users|
    ensures var u := rating.ratedId;
      var after := ratings + [rating];
      && UsersOk(users[u := users[u].(totalRatings := CountAbout(after, u), averageRating := StoredAverage(after, u))], after)
      && CountAbout(after, u) == users[u].totalRatings + 1
  {
    var after := ratings + [rating];
    forall v | 0 <= v < |users|
      ensures CountAbout(after, v) == CountAbout(ratings, v) + (if v == rating.ratedId then 1 else 0)
      ensures v != rating.ratedId ==> StoredAverage(after, v) == StoredAverage(ratings, v)
    {
      AppendRating(ratings, rating, v);
    }
  }
}
