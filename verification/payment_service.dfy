/**
 * The payment service: a client pays a completed mission once, a confirmed
 * payment credits the provider's balance with the mission's earning, a
 * provider withdraws from that balance, and Stripe's webhook events confirm
 * or fail payments.
 *
 * Every Stripe call is replaced by its result, passed in: the customer id
 * Stripe would create, the payment intent's id and client secret, and
 * whether the retrieved intent has succeeded.
 */
module PaymentService {
  import opened Records
  import opened Fees
  import opened Store

  const MustBeCompleted := AppError(400, "Mission must be completed before payment")
  const PaymentExists := AppError(400, "Payment already exists for this mission")
  const PaymentNotFound := AppError(404, "Payment not found")
  const AlreadyCompleted := AppError(400, "Payment already completed")
  const NotSucceeded := AppError(400, "Payment not succeeded")
  const OnlyProvidersEarnings := AppError(403, "Only providers can view earnings")
  const OnlyProvidersPayout := AppError(403, "Only providers can request payouts")
  const InsufficientBalance := AppError(400, "Insufficient balance")
  const BelowMinimumPayout := AppError(400, "Minimum payout amount is 10€")

  /** The smallest payout a provider may request, in euros. */
  const MinimumPayout: real := 10.0

  /** The payment of a mission, if any (the mission id is unique among payments). */
  function FindPayment(payments: seq<Payment>, missionId: nat): (r: Option<nat>)
    ensures r.Some? ==> r.value < |payments| && payments[r.value].missionId == missionId
    ensures r.None? ==> forall i :: 0 <= i < |payments| ==> payments[i].missionId != missionId
  {
    LastWhere(payments, (p: Payment) => p.missionId == missionId)
  }

  /** What createPaymentIntent hands back: the intent's client secret, the new payment and the charge. */
  datatype PaymentIntent = PaymentIntent(
    clientSecret: Option<string>,
    paymentId: nat,
    payment: Payment,
    amountCents: int,
    customerId: string)

  /** client_secret || '': the secret stored on the payment record. */
  function StoredSecret(clientSecret: Option<string>): string {
    if clientSecret.Some? then clientSecret.value else ""
  }

  /**
   * createPaymentIntent: 404 for an unknown mission, 403 unless the caller
   * is its client, 400 unless it is completed, 400 when it already has a
   * payment; nothing is written on any of these. Otherwise the client's
   * Stripe customer id is reused when present and created and stored when
   * absent, the mission is charged its price in cents, and a pending
   * payment copying the mission's price and fee split is appended.
   */
  method CreatePaymentIntent(db: Db, missionId: nat, clientId: nat, newCustomerId: string,
                             intentId: string, clientSecret: Option<string>)
    returns (r: Result<PaymentIntent>)
    requires db.Valid()
    modifies db`users, db`payments
    ensures db.Valid()
    ensures missionId >= |db.missions| ==> r == Failure(MissionNotFound) && unchanged(db)
    ensures missionId < |db.missions| && db.missions[missionId].clientId != clientId ==>
      r == Failure(AccessDenied) && unchanged(db)
    ensures missionId < |db.missions| && db.missions[missionId].clientId == clientId
            && db.missions[missionId].status != Completed ==>
      r == Failure(MustBeCompleted) && unchanged(db)
    ensures missionId < |db.missions| && db.missions[missionId].clientId == clientId
            && db.missions[missionId].status == Completed && FindPayment(old(db.payments), missionId).Some? ==>
      r == Failure(PaymentExists) && unchanged(db)
    ensures missionId < |db.missions| && db.missions[missionId].clientId == clientId
            && db.missions[missionId].status == Completed && FindPayment(old(db.payments), missionId).None? ==>
      var m := db.missions[missionId];
      var client := old(db.users)[clientId];
      var reuse := TruthyText(client.stripeCustomerId);
      var p := Payment(missionId, clientId, m.clientPrice, m.platformFee, m.providerEarning,
                       intentId, StoredSecret(clientSecret), PaymentPending);
      && db.users == (if reuse then old(db.users) else old(db.users)[clientId := client.(stripeCustomerId := Some(newCustomerId))])
      && db.payments == old(db.payments) + [p]
      && FindPayment(db.payments, missionId) == Some(|old(db.payments)|)
      && r == Success(PaymentIntent(clientSecret, |old(db.payments)|, p, Cents(m.clientPrice),
                                    if reuse then client.stripeCustomerId.value else newCustomerId))
  {
    if missionId >= |db.missions| {
      return Failure(MissionNotFound);
    }
    var m := db.missions[missionId];
    if m.clientId != clientId {
      return Failure(AccessDenied);
    }
    if m.status != Completed {
      return Failure(MustBeCompleted);
    }
    if FindPayment(db.payments, missionId).Some? {
      return Failure(PaymentExists);
    }
    assert MissionOk(m, |db.users|);
    var client := db.users[clientId];
    var customerId: string;
    if TruthyText(client.stripeCustomerId) {
      customerId := client.stripeCustomerId.value;
    } else {
      customerId := newCustomerId;
      UpdateUserKeepsUsersOk(db.users, db.ratings, clientId, client.(stripeCustomerId := Some(newCustomerId)));
      db.users := db.users[clientId := client.(stripeCustomerId := Some(newCustomerId))];
    }
    var p := Payment(missionId, clientId, m.clientPrice, m.platformFee, m.providerEarning,
                     intentId, StoredSecret(clientSecret), PaymentPending);
    db.payments := db.payments + [p];
    r := Success(PaymentIntent(clientSecret, |db.payments| - 1, p, Cents(m.clientPrice), customerId));
  }

  /** The users after crediting a mission's provider with an amount; unchanged when it has no provider. */
  function Credited(users: seq<User>, m: Mission, amount: real): (r: seq<User>)
    ensures |r| == |users|
    ensures forall u :: 0 <= u < |users| && Some(u) != m.providerId ==> r[u] == users[u]
    ensures m.providerId.Some? && m.providerId.value < |users| ==>
      r[m.providerId.value] == users[m.providerId.value].(balance := users[m.providerId.value].balance + amount)
  {
    if m.providerId.Some? && m.providerId.value < |users| then
      var pv := m.providerId.value;
      users[pv := users[pv].(balance := users[pv].balance + amount)]
    else users
  }

  /** The provider's payment push throws: the mission has a provider with a token and delivery failed. */
  predicate PaymentPushFails(users: seq<User>, m: Mission, pushOk: bool) {
    m.providerId.Some? && m.providerId.value < |users| && TruthyText(users[m.providerId.value].fcmToken) && !pushOk
  }

  /**
   * confirmPayment: 404 for an unknown payment, 400 when already completed,
   * 400 with no change when the intent has not succeeded; otherwise the
   * payment becomes completed and the mission's provider (if any) is
   * credited exactly the payment's earning. The payment as read before the
   * update is returned.
   */
  method ConfirmPayment(db: Db, paymentId: nat, intentSucceeded: bool, pushOk: bool) returns (r: Result<Payment>)
    requires db.Valid()
    modifies db`payments, db`users
    ensures db.Valid()
    ensures paymentId >= |old(db.payments)| ==> r == Failure(PaymentNotFound) && unchanged(db)
    ensures paymentId < |old(db.payments)| && old(db.payments)[paymentId].status == PaymentCompleted ==>
      r == Failure(AlreadyCompleted) && unchanged(db)
    ensures paymentId < |old(db.payments)| && old(db.payments)[paymentId].status != PaymentCompleted && !intentSucceeded ==>
      r == Failure(NotSucceeded) && unchanged(db)
    ensures paymentId < |old(db.payments)| && old(db.payments)[paymentId].status != PaymentCompleted && intentSucceeded ==>
      var p := old(db.payments)[paymentId];
      var m := db.missions[p.missionId];
      && db.payments == old(db.payments)[paymentId := p.(status := PaymentCompleted)]
      && db.users == Credited(old(db.users), m, p.providerEarning)
      && r == (if PaymentPushFails(old(db.users), m, pushOk) then Failure(PushFailed) else Success(p))
  {
    if paymentId >= |db.payments| {
      return Failure(PaymentNotFound);
    }
    var p := db.payments[paymentId];
    if p.status == PaymentCompleted {
      return Failure(AlreadyCompleted);
    }
    if !intentSucceeded {
      return Failure(NotSucceeded);
    }
    assert PaymentOk(p, db.missions);
    var m := db.missions[p.missionId];
    var pushFails := PaymentPushFails(db.users, m, pushOk);
    SetStatusKeepsPaymentsOk(db.missions, db.payments, paymentId, PaymentCompleted);
    EarningsNotNegative(db.missions, |db.users|, p.missionId);
    CreditKeepsUsersOk(db.users, db.ratings, m, p.providerEarning);
    db.payments := db.payments[paymentId := p.(status := PaymentCompleted)];
    db.users := Credited(db.users, m, p.providerEarning);
    r := if pushFails then Failure(PushFailed) else Success(p);
  }

  /** Changing the status of one payment keeps the payments valid. */
  lemma SetStatusKeepsPaymentsOk(missions: seq<Mission>, payments: seq<Payment>, k: nat, status: PaymentStatus)
    requires PaymentsOk(missions, payments) && k < |payments|
    ensures PaymentsOk(missions, payments[k := payments[k].(status := status)])
  {
    var after := payments[k := payments[k].(status := status)];
    assert forall i :: 0 <= i < |after| ==> after[i].missionId == payments[i].missionId;
    assert forall i :: 0 <= i < |after| ==> PaymentOk(after[i], missions) by {
      forall i | 0 <= i < |after| ensures PaymentOk(after[i], missions) {
        assert PaymentOk(payments[i], missions);
      }
    }
  }

  /** Crediting a non-negative amount keeps the users valid. */
  lemma CreditKeepsUsersOk(users: seq<User>, ratings: seq<Rating>, m: Mission, amount: real)
    requires UsersOk(users, ratings) && amount >= 0.0
    ensures UsersOk(Credited(users, m, amount), ratings)
  {
    if m.providerId.Some? && m.providerId.value < |users| {
      var pv := m.providerId.value;
      UpdateUserKeepsUsersOk(users, ratings, pv, users[pv].(balance := users[pv].balance + amount));
    }
  }

  /** getPaymentByMissionId: 404 when the mission has no payment, 403 unless the caller is its client or provider. */
  function GetPaymentByMissionId(missions: seq<Mission>, payments: seq<Payment>, missionId: nat, userId: nat): (r: Result<Payment>)
    requires PaymentsOk(missions, payments)
    ensures (forall i :: 0 <= i < |payments| ==> payments[i].missionId != missionId) ==> r == Failure(PaymentNotFound)
    ensures FindPayment(payments, missionId).Some? ==>
      var p := payments[FindPayment(payments, missionId).value];
      && missionId < |missions|
      && if missions[missionId].clientId == userId || missions[missionId].providerId == Some(userId)
         then r == Success(p) else r == Failure(AccessDenied)
    ensures r.Success? ==>
      && r.value in payments && r.value.missionId == missionId
      && (missions[missionId].clientId == userId || missions[missionId].providerId == Some(userId))
    ensures r.Failure? && r.error == AccessDenied ==>
      missionId < |missions| && missions[missionId].clientId != userId && missions[missionId].providerId != Some(userId)
    ensures r.Failure? ==> r.error == PaymentNotFound || r.error == AccessDenied
  {
    var k := FindPayment(payments, missionId);
    if k.None? then Failure(PaymentNotFound)
    else
      assert PaymentOk(payments[k.value], missions);
      var m := missions[missionId];
      if m.clientId != userId && m.providerId != Some(userId) then Failure(AccessDenied)
      else Success(payments[k.value])
  }

  /** A mission that counts towards a provider's earnings: completed by that provider. */
  predicate CompletedBy(m: Mission, providerId: nat) {
    m.providerId == Some(providerId) && m.status == Completed
  }

  /** The mission's payment exists and is completed. */
  predicate PaidOut(payments: seq<Payment>, missionId: nat) {
    var k := FindPayment(payments, missionId);
    k.Some? && payments[k.value].status == PaymentCompleted
  }

  /** The sum of the earnings of the first n missions completed by the provider. */
  function EarnedTotal(missions: seq<Mission>, n: nat, providerId: nat): real
    requires n <= |missions|
  {
    if n == 0 then 0.0
    else
      EarnedTotal(missions, n - 1, providerId)
        + (if CompletedBy(missions[n - 1], providerId) then missions[n - 1].providerEarning else 0.0)
  }

  /** The same sum restricted to the missions whose payment is completed. */
  function EarnedPaid(missions: seq<Mission>, payments: seq<Payment>, n: nat, providerId: nat): real
    requires n <= |missions|
  {
    if n == 0 then 0.0
    else
      EarnedPaid(missions, payments, n - 1, providerId)
        + (if CompletedBy(missions[n - 1], providerId) && PaidOut(payments, n - 1) then missions[n - 1].providerEarning else 0.0)
  }

  /** The number of the first n missions completed by the provider. */
  function CompletedCount(missions: seq<Mission>, n: nat, providerId: nat): nat
    requires n <= |missions|
  {
    if n == 0 then 0
    else CompletedCount(missions, n - 1, providerId) + (if CompletedBy(missions[n - 1], providerId) then 1 else 0)
  }

  /** With no negative earning, the paid part lies between 0 and the total. */
  lemma {:induction false} PaidWithinTotal(missions: seq<Mission>, payments: seq<Payment>, n: nat, providerId: nat)
    requires n <= |missions|
    requires forall i :: 0 <= i < n ==> missions[i].providerEarning >= 0.0
    ensures 0.0 <= EarnedPaid(missions, payments, n, providerId) <= EarnedTotal(missions, n, providerId)
  {
    if n > 0 {
      PaidWithinTotal(missions, payments, n - 1, providerId);
    }
  }

  /** A provider with no completed mission has earned nothing. */
  lemma {:induction false} NoCompletedNoEarnings(missions: seq<Mission>, payments: seq<Payment>, n: nat, providerId: nat)
    requires n <= |missions|
    requires CompletedCount(missions, n, providerId) == 0
    ensures EarnedTotal(missions, n, providerId) == 0.0 && EarnedPaid(missions, payments, n, providerId) == 0.0
  {
    if n > 0 {
      NoCompletedNoEarnings(missions, payments, n - 1, providerId);
    }
  }

  datatype Earnings = Earnings(
    totalEarnings: real,
    paidEarnings: real,
    pendingEarnings: real,
    currentBalance: real,
    completedMissions: nat)

  /**
   * getProviderEarnings: providers only (403); the total and paid sums over
   * the provider's completed missions, the pending difference, the current
   * balance and the number of completed missions.
   */
  function GetProviderEarnings(users: seq<User>, missions: seq<Mission>, payments: seq<Payment>, providerId: nat)
    : (r: Result<Earnings>)
    requires MissionsOk(|users|, missions)
    ensures r.Failure? <==> !HasRole(users, providerId, Provider)
    ensures r.Failure? ==> r.error == OnlyProvidersEarnings
    ensures r.Success? ==>
      var e := r.value;
      && e.totalEarnings == EarnedTotal(missions, |missions|, providerId)
      && e.paidEarnings == EarnedPaid(missions, payments, |missions|, providerId)
      && 0.0 <= e.paidEarnings <= e.totalEarnings
      && 0.0 <= e.pendingEarnings == e.totalEarnings - e.paidEarnings
      && e.currentBalance == users[providerId].balance
      && e.completedMissions == CompletedCount(missions, |missions|, providerId)
  {
    if !HasRole(users, providerId, Provider) then Failure(OnlyProvidersEarnings)
    else
      assert forall i :: 0 <= i < |missions| ==> missions[i].providerEarning >= 0.0 by {
        forall i | 0 <= i < |missions| ensures missions[i].providerEarning >= 0.0 {
          EarningsNotNegative(missions, |users|, i);
        }
      }
      PaidWithinTotal(missions, payments, |missions|, providerId);
      var total := EarnedTotal(missions, |missions|, providerId);
      var paid := EarnedPaid(missions, payments, |missions|, providerId);
      Success(Earnings(total, paid, total - paid, users[providerId].balance, CompletedCount(missions, |missions|, providerId)))
  }

  /**
   * requestPayout: 403 for a caller who is not a provider, then 400 when
   * the balance is below the amount, then 400 below the minimum payout;
   * otherwise the balance drops by exactly the amount (and, by the store
   * invariant, never below 0).
   */
  method RequestPayout(db: Db, providerId: nat, amount: real) returns (r: Result<real>)
    requires db.Valid() && amount > 0.0
    modifies db`users
    ensures db.Valid()
    ensures !HasRole(old(db.users), providerId, Provider) ==> r == Failure(OnlyProvidersPayout) && unchanged(db)
    ensures HasRole(old(db.users), providerId, Provider) && old(db.users)[providerId].balance < amount ==>
      r == Failure(InsufficientBalance) && unchanged(db)
    ensures HasRole(old(db.users), providerId, Provider) && old(db.users)[providerId].balance >= amount
            && amount < MinimumPayout ==>
      r == Failure(BelowMinimumPayout) && unchanged(db)
    ensures HasRole(old(db.users), providerId, Provider) && old(db.users)[providerId].balance >= amount
            && amount >= MinimumPayout ==>
      var u := old(db.users)[providerId];
      && db.users == old(db.users)[providerId := u.(balance := u.balance - amount)]
      && r == Success(amount)
  {
    if !HasRole(db.users, providerId, Provider) {
      return Failure(OnlyProvidersPayout);
    }
    var u := db.users[providerId];
    if u.balance < amount {
      return Failure(InsufficientBalance);
    }
    if amount < MinimumPayout {
      return Failure(BelowMinimumPayout);
    }
    UpdateUserKeepsUsersOk(db.users, db.ratings, providerId, u.(balance := u.balance - amount));
    db.users := db.users[providerId := u.(balance := u.balance - amount)];
    r := Success(amount);
  }

  /** The Stripe events the webhook distinguishes; every other type is OtherEvent. */
  datatype StripeEvent =
    | IntentSucceeded(intentId: string)
    | IntentFailed(intentId: string)
    | OtherEvent(eventType: string)

  /** findFirst by Stripe intent id: the first payment, in table order, carrying it. */
  function FirstPaymentWithIntent(payments: seq<Payment>, intentId: string): (r: Option<nat>)
    ensures r.Some? ==> r.value < |payments| && payments[r.value].stripePaymentId == intentId
    ensures r.Some? ==> forall j :: 0 <= j < r.value ==> payments[j].stripePaymentId != intentId
    ensures r.None? ==> forall j :: 0 <= j < |payments| ==> payments[j].stripePaymentId != intentId
  {
    if payments == [] then None
    else if payments[0].stripePaymentId == intentId then Some(0)
    else
      var rest := FirstPaymentWithIntent(payments[1..], intentId);
      if rest.Some? then Some(rest.value + 1) else None
  }

  /**
   * handleStripeWebhook: a succeeded intent confirms its payment only when
   * that payment is pending; a failed intent marks its payment failed
   * whatever its status (a completed one included); other event types and
   * unknown intents change nothing.
   */
  method HandleStripeWebhook(db: Db, event: StripeEvent, intentSucceeded: bool, pushOk: bool) returns (r: Result<()>)
    requires db.Valid()
    modifies db`payments, db`users
    ensures db.Valid()
    ensures event.OtherEvent? ==> r == Success(()) && unchanged(db)
    ensures event.IntentFailed? ==>
      var k := FirstPaymentWithIntent(old(db.payments), event.intentId);
      && r == Success(())
      && db.users == old(db.users)
      && db.payments == (if k.None? then old(db.payments)
                         else old(db.payments)[k.value := old(db.payments)[k.value].(status := PaymentFailed)])
    ensures event.IntentSucceeded? ==>
      var k := FirstPaymentWithIntent(old(db.payments), event.intentId);
      if k.None? || old(db.payments)[k.value].status != PaymentPending then r == Success(()) && unchanged(db)
      else
        var p := old(db.payments)[k.value];
        var m := db.missions[p.missionId];
        if !intentSucceeded then r == Failure(NotSucceeded) && unchanged(db)
        else
          && db.payments == old(db.payments)[k.value := p.(status := PaymentCompleted)]
          && db.users == Credited(old(db.users), m, p.providerEarning)
          && r == (if PaymentPushFails(old(db.users), m, pushOk) then Failure(PushFailed) else Success(()))
  {
    match event
    case OtherEvent(_) =>
      r := Success(());
    case IntentFailed(intentId) =>
      var k := FirstPaymentWithIntent(db.payments, intentId);
      if k.Some? {
        SetStatusKeepsPaymentsOk(db.missions, db.payments, k.value, PaymentFailed);
        db.payments := db.payments[k.value := db.payments[k.value].(status := PaymentFailed)];
      }
      r := Success(());
    case IntentSucceeded(intentId) =>
      var k := FirstPaymentWithIntent(db.payments, intentId);
      if k.Some? && db.payments[k.value].status == PaymentPending {
        var confirmed := ConfirmPayment(db, k.value, intentSucceeded, pushOk);
        r := if confirmed.Success? then Success(()) else Failure(confirmed.error);
      } else {
        r := Success(());
      }
  }
}
