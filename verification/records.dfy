/**
 * The records of the errand marketplace: users, missions, payments, ratings,
 * messages and in-app notifications, together with the error value every
 * service raises (an HTTP status and a message).
 *
 * Ids are positions in the store's tables (records are never deleted), so a
 * record does not carry its own id.
 */
module Records {

  datatype Option<T> = None | Some(value: T)

  datatype Role = Client | Provider | Admin

  /** Every status other than ACTIVE is modelled as Inactive. */
  datatype UserStatus = Active | Inactive

  datatype MissionStatus = Pending | Accepted | InProgress | Completed | Cancelled

  datatype Urgency = Low | Medium | High | Urgent

  datatype PaymentStatus = PaymentPending | PaymentCompleted | PaymentFailed

  /** The two kinds of notification record the services persist. */
  datatype NotificationKind = NewMission | MissionAccepted

  datatype User = User(
    email: string,
    passwordHash: string,
    firstName: string,
    lastName: string,
    phone: Option<string>,
    role: Role,
    status: UserStatus,
    currentLatitude: Option<real>,
    currentLongitude: Option<real>,
    isAvailable: bool,
    serviceRadius: Option<real>,
    balance: real,
    averageRating: real,
    totalRatings: nat,
    fcmToken: Option<string>,
    stripeCustomerId: Option<string>,
    lastActiveAt: Option<nat>)

  datatype Mission = Mission(
    clientId: nat,
    providerId: Option<nat>,
    title: string,
    description: string,
    category: string,
    pickupAddress: string,
    pickupLatitude: Option<real>,
    pickupLongitude: Option<real>,
    deliveryAddress: Option<string>,
    deliveryLatitude: Option<real>,
    deliveryLongitude: Option<real>,
    urgency: Urgency,
    clientPrice: real,
    platformFee: real,
    providerEarning: real,
    estimatedDuration: Option<int>,
    notes: Option<string>,
    status: MissionStatus,
    createdAt: nat,
    acceptedAt: Option<nat>,
    startedAt: Option<nat>,
    completedAt: Option<nat>)

  datatype Payment = Payment(
    missionId: nat,
    userId: nat,
    amount: real,
    platformFee: real,
    providerEarning: real,
    stripePaymentId: string,
    stripePaymentIntent: string,
    status: PaymentStatus)

  datatype Rating = Rating(missionId: nat, raterId: nat, ratedId: nat, score: int, comment: Option<string>)

  datatype Message = Message(
    missionId: nat,
    senderId: nat,
    receiverId: nat,
    content: string,
    isRead: bool,
    createdAt: nat)

  datatype Notification = Notification(userId: nat, kind: NotificationKind, missionId: nat)

  /** An application error: the HTTP status the error handler sends and its message. */
  datatype AppError = AppError(status: nat, message: string)

  datatype Result<T> = Success(value: T) | Failure(error: AppError)

  /** JavaScript truthiness of an optional number: null, undefined and 0 are falsy. */
  predicate Truthy(x: Option<real>) {
    x.Some? && x.value != 0.0
  }

  /** JavaScript truthiness of an optional string: null, undefined and "" are falsy. */
  predicate TruthyText(s: Option<string>) {
    s.Some? && s.value != ""
  }

  /**
   * The last position of a table whose record satisfies p, if any: a
   * unique-key lookup (findUnique) when at most one record can match.
   */
  function LastWhere<T>(s: seq<T>, p: T -> bool): (r: Option<nat>)
    ensures r.Some? ==> r.value < |s| && p(s[r.value])
    ensures r.None? ==> forall i :: 0 <= i < |s| ==> !p(s[i])
  {
    if s == [] then None
    else if p(s[|s| - 1]) then Some(|s| - 1)
    else LastWhere(s[..|s| - 1], p)
  }

  /** Raised by every service that looks up a mission id it cannot find. */
  const MissionNotFound := AppError(404, "Mission not found")

  /** Raised by every service when the caller is not a party to the record. */
  const AccessDenied := AppError(403, "Access denied")

  /**
   * A push delivery that threw. The push helper rethrows, so the service
   * call fails after the writes it has already made; the error handler is
   * not part of this model and the failure is given the generic status 500.
   */
  const PushFailed := AppError(500, "Push notification failed")

  /** A Prisma update of a record that does not exist throws; modelled like PushFailed. */
  const RecordMissing := AppError(500, "Record to update not found")
}
