/** paystack-webhook.js: the Express route that receives Paystack's webhook
    and applies the credits directly to the WordPress user meta. */
module PaystackWebhook {
  import opened Wrappers
  import opened Meta
  import opened Paystack
  import Js
  import Pricing

  /** The HTTP reply; NoReply when the handler throws before answering. */
  datatype Reply = Reply(status: int, text: string) | NoReply

  /** The reply and the meta store after one delivery. */
  datatype Step = Step(reply: Reply, users: Users)

  const InvalidSignature := Reply(401, "Invalid signature")
  const Ignored := Reply(200, "Event ignored")
  const UserNotFound := Reply(200, "User not found")
  const AlreadyProcessed := Reply(200, "Already processed")
  const Insufficient := Reply(200, "Payment insufficient")
  const Processed := Reply(200, "Webhook processed successfully")

  /** `get_user_by("email", email)`. */
  function UserByEmail(users: Users, userByEmail: map<string, UserId>, email: Option<string>): Option<UserId>
  {
    if email.Some? && email.value in userByEmail && userByEmail[email.value] in users
    then Some(userByEmail[email.value]) else None
  }

  /** A `charge.success` event whose data and customer are present and whose
      email names a user: the deliveries that reach the duplicate guard. */
  predicate Addressed(users: Users, userByEmail: map<string, UserId>, event: Option<Event>)
  {
    && event.Some? && IsChargeSuccess(event.value)
    && event.value.data.Some? && event.value.data.value.customer.Some?
    && UserByEmail(users, userByEmail, event.value.data.value.customer.value.email).Some?
  }

  function UserOf(users: Users, userByEmail: map<string, UserId>, event: Option<Event>): UserId
    requires Addressed(users, userByEmail, event)
  {
    UserByEmail(users, userByEmail, event.value.data.value.customer.value.email).value
  }

  /** `calevid_tx_${reference}`; a missing reference renders as "undefined". */
  function LockKeyOf(event: Option<Event>): string
    requires event.Some? && event.value.data.Some?
  {
    TxKey(Js.StringOf(event.value.data.value.reference))
  }

  /** One delivery to the handler. `signatureValid` is the outcome of the
      HMAC-SHA512 comparison. A credit is applied only for a positive, finite
      credit count (see the findings: as written, a missing amount passes). */
  function WebhookStep(users: Users, userByEmail: map<string, UserId>, signatureValid: bool,
                       event: Option<Event>, now: int): (s: Step)
    ensures !signatureValid ==> s == Step(InvalidSignature, users)
    ensures signatureValid && !(event.Some? && IsChargeSuccess(event.value)) ==> s == Step(Ignored, users)
    ensures s.reply != Processed ==> s.users == users
    // reading `data.reference` or `data.customer.email` on a missing object throws
    ensures signatureValid && event.Some? && IsChargeSuccess(event.value)
            && (event.value.data.None? || event.value.data.value.customer.None?)
            ==> s == Step(NoReply, users)
    ensures signatureValid && event.Some? && IsChargeSuccess(event.value)
            && event.value.data.Some? && event.value.data.value.customer.Some?
            && UserByEmail(users, userByEmail, event.value.data.value.customer.value.email).None?
            ==> s == Step(UserNotFound, users)
    // the duplicate guard is consulted before the amount
    ensures signatureValid && Addressed(users, userByEmail, event)
            && JsTruthy(Lookup(users[UserOf(users, userByEmail, event)], LockKeyOf(event)))
            ==> s == Step(AlreadyProcessed, users)
    ensures signatureValid && Addressed(users, userByEmail, event)
            && !JsTruthy(Lookup(users[UserOf(users, userByEmail, event)], LockKeyOf(event)))
            && !(event.value.data.value.amount.Some? && Pricing.Credits(event.value.data.value.amount.value) > 0)
            ==> s == Step(Insufficient, users)
    // an authentic, addressed, unlocked charge is credited exactly when it buys a credit
    ensures s.reply == Processed <==>
      && signatureValid && Addressed(users, userByEmail, event)
      && !JsTruthy(Lookup(users[UserOf(users, userByEmail, event)], LockKeyOf(event)))
      && event.value.data.value.amount.Some?
      && Pricing.Credits(event.value.data.value.amount.value) > 0
    ensures s.reply == Processed ==> UserOf(users, userByEmail, event) in s.users
    ensures s.reply == Processed ==>
      var uid, key := UserOf(users, userByEmail, event), LockKeyOf(event);
      var m, m' := users[uid], s.users[uid];
      var credits := Pricing.Credits(event.value.data.value.amount.value);
      && s.users == users[uid := m']
      && Lookup(m', CreditsKey) == Some(Number(JsNumberOr0(Lookup(m, CreditsKey)) + credits))
      && key in m' && m'[key].TxRecord? && m'[key].creditsAdded == credits
      && PendingKey !in m'
      && AgreeOutside(m, m', {CreditsKey, PendingKey, key})
  {
    if !signatureValid then Step(InvalidSignature, users)
    else if !(event.Some? && IsChargeSuccess(event.value)) then Step(Ignored, users)
    else if event.value.data.None? || event.value.data.value.customer.None? then Step(NoReply, users)
    else
      var charge := event.value.data.value;
      match UserByEmail(users, userByEmail, charge.customer.value.email)
      case None => Step(UserNotFound, users)
      case Some(uid) =>
        var key := TxKey(Js.StringOf(charge.reference));
        var m := users[uid];
        if JsTruthy(Lookup(m, key)) then Step(AlreadyProcessed, users)
        else
          var credits := Pricing.JsCredits(charge.amount);
          if !(credits.Finite? && credits.value > 0) then Step(Insufficient, users)
          else
            TxKeyDistinct(Js.StringOf(charge.reference), "");
            var m' := m[CreditsKey := Number(JsNumberOr0(Lookup(m, CreditsKey)) + credits.value)]
                       [key := TxRecord(now, charge.amount.value as real / 100.0, credits.value)]
                       - {PendingKey};
            Step(Processed, users[uid := m'])
  }

  /** After a delivery has been credited, every later authentic delivery of a
      `charge.success` for the same user and reference is acknowledged as
      already processed and changes nothing. */
  lemma ReplayAfterCreditIsNoOp(users: Users, userByEmail: map<string, UserId>, event: Option<Event>,
                                now: int, event': Option<Event>, now': int)
    requires WebhookStep(users, userByEmail, true, event, now).reply == Processed
    requires Addressed(users, userByEmail, event')
    requires UserOf(users, userByEmail, event') == UserOf(users, userByEmail, event)
    requires LockKeyOf(event') == LockKeyOf(event)
    ensures
      var s := WebhookStep(users, userByEmail, true, event, now);
      WebhookStep(s.users, userByEmail, true, event', now') == Step(AlreadyProcessed, s.users)
  {
    var s := WebhookStep(users, userByEmail, true, event, now);
    var uid := UserOf(users, userByEmail, event);
    assert UserByEmail(s.users, userByEmail, event'.value.data.value.customer.value.email) == Some(uid);
  }

  /** A first-time buyer paying 15000 kobo for reference "abc123" gets one
      credit and a lock record; the identical replay is acknowledged and
      changes nothing. */
  lemma OneCreditScenario(now: int, now': int)
    ensures
      var users := map[7 := map[]];
      var byEmail := map["a@b.com" := 7];
      var event := Some(Event(Some(ChargeSuccess),
                              Some(Charge(Some("abc123"), Some(Customer(Some("a@b.com"))), Some(15000)))));
      var s := WebhookStep(users, byEmail, true, event, now);
      && s.reply == Processed
      && Lookup(s.users[7], CreditsKey) == Some(Number(1))
      && Lookup(s.users[7], TxKey("abc123")) == Some(TxRecord(now, 150.0, 1))
      && WebhookStep(s.users, byEmail, true, event, now') == Step(AlreadyProcessed, s.users)
  {
    var users: Users := map[7 := map[]];
    var byEmail := map["a@b.com" := 7];
    var event := Some(Event(Some(ChargeSuccess),
                            Some(Charge(Some("abc123"), Some(Customer(Some("a@b.com"))), Some(15000)))));
    assert Pricing.Credits(15000) == 1;
    assert Js.StringOf(Some("abc123")) == "abc123";
    var s := WebhookStep(users, byEmail, true, event, now);
    assert s.reply == Processed;
    ReplayAfterCreditIsNoOp(users, byEmail, event, now, event, now');
  }

  /** The stored balance written by lines 80-96 as the source has them, with
      JavaScript arithmetic: None when the handler stops with "Payment
      insufficient", otherwise the value written to `calevid_credits`. */
  function CreditsWrittenAsWritten(current: int, amount: Option<int>): (r: Option<Js.Number>)
    ensures r.None? <==> amount.Some? && amount.value < Pricing.KoboPerCredit
    ensures r == Some(Js.NaN) <==> amount.None?
    ensures amount.Some? && r.Some? ==> r == Some(Js.Finite(current + Pricing.Credits(amount.value)))
  {
    var credits := Pricing.JsCredits(amount);
    if Js.AtMostZero(credits) then None else Some(Js.Add(Js.Finite(current), credits))
  }

  /** As written, a `charge.success` without an amount is not stopped by the
      `creditsToAdd <= 0` guard, and NaN is stored as the balance. */
  lemma MissingAmountStoresNaN(current: int)
    ensures CreditsWrittenAsWritten(current, None) == Some(Js.NaN)
  {
  }

  /** The `/paystack-webhook` handler run against `store`, statement by
      statement, except that the amount guard is the corrected one from the
      findings (a finite, positive credit count) rather than `creditsToAdd <= 0`. */
  method HandleWebhook(store: Store, signatureValid: bool, event: Option<Event>, now: int)
    returns (reply: Reply)
    requires store.Valid()
    modifies store
    ensures store.Valid() && store.userByEmail == old(store.userByEmail)
    ensures Step(reply, store.users)
         == WebhookStep(old(store.users), old(store.userByEmail), signatureValid, event, now)
  {
    if !signatureValid {
      return InvalidSignature;
    }
    if event.None? || event.value.event != Some(ChargeSuccess) {
      return Ignored;
    }
    var data := event.value.data;
    if data.None? {
      return NoReply;
    }
    var reference := data.value.reference;
    var customer := data.value.customer;
    if customer.None? {
      return NoReply;
    }
    var email := customer.value.email;
    if email.None? || email.value !in store.userByEmail {
      return UserNotFound;
    }
    var userId := store.userByEmail[email.value];
    var txKey := TxKey(Js.StringOf(reference));
    if JsTruthy(store.Get(userId, txKey)) {
      return AlreadyProcessed;
    }

    var creditsToAdd := Pricing.JsCredits(data.value.amount);
    if !(creditsToAdd.Finite? && creditsToAdd.value > 0) {
      return Insufficient;
    }

    var currentCredits := JsNumberOr0(store.Get(userId, CreditsKey));
    store.Update(userId, CreditsKey, Number(currentCredits + creditsToAdd.value));
    store.Update(userId, txKey, TxRecord(now, data.value.amount.value as real / 100.0, creditsToAdd.value));
    store.Delete(userId, PendingKey);
    return Processed;
  }
}
