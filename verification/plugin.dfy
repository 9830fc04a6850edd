/** ai-video-generator.php: the two AJAX handlers of the WordPress plugin
    that touch the ledger. `calevid_set_intent` stores what the user is about
    to buy; `calevid_verify_payment` marks a payment reference as seen. */
module Plugin {
  import opened Wrappers
  import opened Text
  import opened Meta
  import opened Paystack
  import PaystackWebhook
  import VerifyPhp

  /** `wp_send_json_success($data)` / `wp_send_json_error($data)`; both end the request. */
  datatype AjaxReply = Success(data: Option<string>) | Error(message: string)

  datatype Step = Step(reply: AjaxReply, users: Users)

  const LoginRequired := Error("Login required")
  const InvalidIntent := Error("Invalid intent")
  const MissingReference := Error("Missing reference")
  const AlreadyProcessed := Success(Some("Payment already processed"))
  const Pending := Success(Some("Payment pending credit application"))

  /** `calevid_set_intent`. `session` is the logged-in user, if any; `intent`
      is the decoded `intent` field when it decodes to an array (None for
      anything else). */
  function SetIntentStep(users: Users, session: Option<UserId>,
                         intent: Option<map<string, Scalar>>): (s: Step)
    requires session.Some? ==> session.value in users
    ensures session.None? ==> s == Step(LoginRequired, users)
    ensures s.reply.Success? <==> session.Some? && intent.Some? && |intent.value| > 0
    ensures !s.reply.Success? ==> s.users == users
    ensures s.reply.Success? ==>
      var uid := session.value;
      && uid in s.users && s.users == users[uid := s.users[uid]]
      && Lookup(s.users[uid], PendingKey) == Some(Purchase(intent.value))
      && AgreeOutside(users[uid], s.users[uid], {PendingKey})
  {
    if session.None? then Step(LoginRequired, users)
    else if intent.None? || |intent.value| == 0 then Step(InvalidIntent, users)
    else
      var uid := session.value;
      Step(Success(None), users[uid := users[uid][PendingKey := Purchase(intent.value)]])
  }

  /** `calevid_verify_payment`. `reference` is the sanitised `reference`
      field; `now` is `time()`. The first call for a reference stores the time
      under its lock key; the balance is never touched. */
  function MarkPaymentStep(users: Users, session: Option<UserId>, reference: string, now: int): (s: Step)
    requires session.Some? ==> session.value in users
    ensures session.None? ==> s == Step(LoginRequired, users)
    ensures session.Some? && PhpFalsyString(reference) ==> s == Step(MissingReference, users)
    ensures session.Some? && !PhpFalsyString(reference) ==>
      var uid := session.value;
      if PhpTruthy(Lookup(users[uid], TxKey(reference))) then s == Step(AlreadyProcessed, users)
      else
        && s.reply == Pending
        && uid in s.users && s.users == users[uid := s.users[uid]]
        && Lookup(s.users[uid], TxKey(reference)) == Some(Number(now))
        && AgreeOutside(users[uid], s.users[uid], {TxKey(reference)})
    ensures forall u :: u in users ==> u in s.users && Lookup(s.users[u], CreditsKey) == Lookup(users[u], CreditsKey)
  {
    if session.None? then Step(LoginRequired, users)
    else if PhpFalsyString(reference) then Step(MissingReference, users)
    else
      var uid := session.value;
      var key := TxKey(reference);
      TxKeyDistinct(reference, reference);
      if PhpTruthy(Lookup(users[uid], key)) then Step(AlreadyProcessed, users)
      else Step(Pending, users[uid := users[uid][key := Number(now)]])
  }

  /** A repeated `calevid_verify_payment` for the same reference (with a
      non-zero clock on the first) answers "already processed" and leaves the
      first-seen time in place. */
  lemma MarkPaymentTwice(users: Users, uid: UserId, reference: string, now: int, now': int)
    requires uid in users && !PhpFalsyString(reference) && now != 0
    ensures
      var s := MarkPaymentStep(users, Some(uid), reference, now);
      var s' := MarkPaymentStep(s.users, Some(uid), reference, now');
      s' == Step(AlreadyProcessed, s.users)
      && PhpTruthy(Lookup(s.users[uid], TxKey(reference)))
  {
  }

  /** The marker shares its key with the credit flows' duplicate guard: once
      `calevid_verify_payment` has marked a reference, a later Paystack
      webhook for that user and reference is answered "Already processed" and
      credits nothing, and verify.php for them does not credit either. */
  lemma MarkerPreemptsCredit(users: Users, userByEmail: map<string, UserId>, uid: UserId,
                             reference: string, now: int,
                             event: Option<Event>, now': int,
                             req: VerifyPhp.Request, secretKey: Option<string>,
                             gateway: VerifyPhp.Gateway)
    requires uid in users && !PhpFalsyString(reference) && now != 0
    requires !PhpTruthy(Lookup(users[uid], TxKey(reference)))
    requires
      var s := MarkPaymentStep(users, Some(uid), reference, now);
      && PaystackWebhook.Addressed(s.users, userByEmail, event)
      && PaystackWebhook.UserOf(s.users, userByEmail, event) == uid
      && PaystackWebhook.LockKeyOf(event) == TxKey(reference)
    requires VerifyPhp.WellFormed(req) && VerifyPhp.UserOf(req) == uid
    requires VerifyPhp.ReferenceOf(req) == reference
    ensures
      var s := MarkPaymentStep(users, Some(uid), reference, now);
      && PaystackWebhook.WebhookStep(s.users, userByEmail, true, event, now')
         == PaystackWebhook.Step(PaystackWebhook.AlreadyProcessed, s.users)
      && !VerifyPhp.VerifyStep(s.users, req, secretKey, gateway, now').outcome.Applied?
  {
  }

  /** The `calevid_set_intent` handler run against `store`. */
  method SetIntent(store: Store, session: Option<UserId>, intent: Option<map<string, Scalar>>)
    returns (reply: AjaxReply)
    requires store.Valid() && (session.Some? ==> session.value in store.users)
    modifies store
    ensures store.Valid() && store.userByEmail == old(store.userByEmail)
    ensures Step(reply, store.users) == SetIntentStep(old(store.users), session, intent)
  {
    if session.None? {
      return LoginRequired;
    }
    if intent.None? || |intent.value| == 0 {
      return InvalidIntent;
    }
    store.Update(session.value, PendingKey, Purchase(intent.value));
    return Success(None);
  }

  /** The `calevid_verify_payment` handler run against `store`. */
  method MarkPayment(store: Store, session: Option<UserId>, reference: string, now: int)
    returns (reply: AjaxReply)
    requires store.Valid() && (session.Some? ==> session.value in store.users)
    modifies store
    ensures store.Valid() && store.userByEmail == old(store.userByEmail)
    ensures Step(reply, store.users) == MarkPaymentStep(old(store.users), session, reference, now)
  {
    if session.None? {
      return LoginRequired;
    }
    var uid := session.value;
    if PhpFalsyString(reference) {
      return MissingReference;
    }
    var txKey := TxKey(reference);
    if PhpTruthy(store.Get(uid, txKey)) {
      return AlreadyProcessed;
    }
    store.Update(uid, txKey, Number(now));
    return Pending;
  }
}
