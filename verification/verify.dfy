/** verify.php: the payment verification endpoint. It checks
    the request, asks Paystack whether the transaction succeeded, and applies
    the purchased credits (and an optional plan) to the user's meta at most
    once per payment reference. */
module VerifyPhp {
  import opened Wrappers
  import opened Text
  import opened Meta
  import Pricing

  /** The decoded JSON body. `reference` is PHP's string cast of the field
      (None when absent or null); `userId` is the integer `user_id`. */
  datatype Input = Input(reference: Option<string>, userId: Option<int>)

  /** The HTTP method and `json_decode(php://input, true)`; `input` is
      None when that does not give an array. */
  datatype Request = Request(verb: string, input: Option<Input>)

  /** `data` of the Paystack verify answer. */
  datatype Transaction = Transaction(status: Option<string>, amount: Option<int>)

  /** The decoded Paystack verify answer: `status` tells whether
      `$paystack['status'] === true`; `data` is None when it is empty. */
  datatype Verification = Verification(status: bool, data: Option<Transaction>)

  /** What the call to Paystack's verify endpoint produced: no response at
      all, or a body that decodes (Some) or not (None). */
  datatype Gateway = Unreachable | Answered(body: Option<Verification>)

  datatype Outcome =
    | Rejected(code: int, message: string)
    | AlreadyProcessed
    | Applied(creditsAdded: int, newBalance: int)

  /** The HTTP status of the JSON reply. */
  function HttpStatus(o: Outcome): int
  {
    if o.Rejected? then o.code else 200
  }

  /** The reply and the meta store after the request. */
  datatype Step = Step(outcome: Outcome, users: Users)

  const InvalidMethod := "Invalid request method"
  const InvalidJson := "Invalid JSON payload"
  const MissingFields := "Missing reference or user"
  const InvalidUser := "Invalid user"
  const Misconfigured := "Server misconfigured"
  const Unreachable := "Payment gateway unreachable"
  const VerificationFailed := "Payment verification failed"
  const Insufficient := "Payment amount insufficient for credits"

  /** PHP `empty()` of a field read as a string or as an integer. */
  predicate PhpEmptyString(v: Option<string>)
  {
    v.None? || PhpFalsyString(v.value)
  }

  predicate PhpEmptyInt(v: Option<int>)
  {
    v.None? || v.value == 0
  }

  /** The request passes the method, JSON and missing-field checks. */
  predicate WellFormed(req: Request)
  {
    && req.verb == "POST"
    && req.input.Some?
    && !PhpEmptyString(req.input.value.reference)
    && !PhpEmptyInt(req.input.value.userId)
  }

  /** The reference used from then on: the trimmed field. */
  function ReferenceOf(req: Request): string
    requires WellFormed(req)
  {
    PhpTrim(req.input.value.reference.value)
  }

  function UserOf(req: Request): UserId
    requires WellFormed(req)
  {
    req.input.value.userId.value
  }

  /** `getenv('PAYSTACK_SECRET_KEY')` is truthy. */
  predicate SecretConfigured(secretKey: Option<string>)
  {
    secretKey.Some? && !PhpFalsyString(secretKey.value)
  }

  /** Paystack answered `status === true` and `data.status === 'success'`. */
  predicate Confirmed(g: Gateway)
  {
    && g.Answered? && g.body.Some? && g.body.value.status
    && g.body.value.data.Some? && g.body.value.data.value.status == Some("success")
  }

  /** `(int)$paystack['data']['amount']`; a missing amount casts to 0. */
  function AmountKobo(g: Gateway): int
    requires Confirmed(g)
  {
    g.body.value.data.value.amount.GetOr(0)
  }

  /** The plan table: monthly video limit per plan name. */
  function PlanLimit(plan: string): (limit: Option<int>)
    ensures limit.Some? <==> plan in {"starter", "standard", "pro"}
    ensures limit.Some? ==> limit.value in {15, 25, 50}
    ensures limit == Some(15) <==> plan == "starter"
    ensures limit == Some(25) <==> plan == "standard"
    ensures limit == Some(50) <==> plan == "pro"
  {
    if plan == "starter" then Some(15)
    else if plan == "standard" then Some(25)
    else if plan == "pro" then Some(50)
    else None
  }

  /** The plan the pending purchase intent names, when the intent is an
      array whose `plan` is a string in the plan table. (A `plan` that PHP
      finds empty is never a table key, so the `!empty` test is subsumed.) */
  function PendingPlan(m: UserMeta): Option<string>
  {
    if PendingKey in m && m[PendingKey].Purchase? && "plan" in m[PendingKey].fields
       && m[PendingKey].fields["plan"].Str? && PlanLimit(m[PendingKey].fields["plan"].s).Some?
    then Some(m[PendingKey].fields["plan"].s)
    else None
  }

  const PlanKeys: set<string> := {PlanKey, LimitKey, UsedKey, PlanStartKey}

  /** The optional plan handling: set plan, limit, usage 0 and start time. */
  function ApplyPlan(m: UserMeta, now: int): (m': UserMeta)
    ensures AgreeOutside(m, m', PlanKeys)
    ensures PendingPlan(m).None? ==> m' == m
    ensures PendingPlan(m).Some? ==>
      && Lookup(m', PlanKey) == Some(Text(PendingPlan(m).value))
      && Lookup(m', LimitKey) == Some(Number(PlanLimit(PendingPlan(m).value).value))
      && Lookup(m', UsedKey) == Some(Number(0))
      && Lookup(m', PlanStartKey) == Some(Number(now))
  {
    match PendingPlan(m)
    case None => m
    case Some(plan) =>
      m[PlanKey := Text(plan)][LimitKey := Number(PlanLimit(plan).value)]
       [UsedKey := Number(0)][PlanStartKey := Number(now)]
  }

  /** The user's meta after a successful verification: new balance, plan
      handling, lock record, intent deleted. */
  function Credited(m: UserMeta, reference: string, amountKobo: int, credits: int,
                    newBalance: int, now: int): (m': UserMeta)
    ensures Lookup(m', CreditsKey) == Some(Number(newBalance))
    ensures Lookup(m', TxKey(reference)) == Some(TxRecord(now, amountKobo as real / 100.0, credits))
    ensures PendingKey !in m'
    // the plan keys follow the plan rule applied to the intent as it was
    ensures forall k :: k in PlanKeys ==> Lookup(m', k) == Lookup(ApplyPlan(m, now), k)
    ensures AgreeOutside(m, m', PlanKeys + {CreditsKey, PendingKey, TxKey(reference)})
  {
    TxKeyDistinct(reference, reference);
    assert PendingPlan(m[CreditsKey := Number(newBalance)]) == PendingPlan(m);
    var withPlan := ApplyPlan(m[CreditsKey := Number(newBalance)], now);
    withPlan[TxKey(reference) := TxRecord(now, amountKobo as real / 100.0, credits)] - {PendingKey}
  }

  /** The part of verify.php after Paystack confirmed the payment: the
      duplicate guard, the conversion to credits and the ledger update. */
  function Settle(users: Users, uid: UserId, reference: string, amountKobo: int, now: int): (s: Step)
    requires uid in users
    ensures !s.outcome.Applied? ==> s.users == users
    ensures !s.outcome.Rejected? || s.outcome == Rejected(400, Insufficient)
    // a locked reference is never credited again; an unlocked one is credited
    // exactly when the amount buys at least one credit
    ensures s.outcome.AlreadyProcessed? <==> PhpTruthy(Lookup(users[uid], TxKey(reference)))
    ensures s.outcome.Applied? <==>
      !PhpTruthy(Lookup(users[uid], TxKey(reference))) && Pricing.Credits(amountKobo) > 0
    ensures s.outcome.Applied? ==> uid in s.users
    ensures s.outcome.Applied? ==>
      var m, m' := users[uid], s.users[uid];
      && s.users == users[uid := m']
      && s.outcome.creditsAdded == Pricing.Credits(amountKobo) > 0
      && s.outcome.newBalance == PhpInt(Lookup(m, CreditsKey)) + s.outcome.creditsAdded
      && Lookup(m', CreditsKey) == Some(Number(s.outcome.newBalance))
      && TxKey(reference) in m' && m'[TxKey(reference)].TxRecord?
      && m'[TxKey(reference)].creditsAdded == s.outcome.creditsAdded
      && PendingKey !in m'
      && AgreeOutside(m, m', PlanKeys + {CreditsKey, PendingKey, TxKey(reference)})
  {
    var m := users[uid];
    if PhpTruthy(Lookup(m, TxKey(reference))) then Step(AlreadyProcessed, users)
    else
      var credits := Pricing.Credits(amountKobo);
      if credits <= 0 then Step(Rejected(400, Insufficient), users)
      else
        var newBalance := PhpInt(Lookup(m, CreditsKey)) + credits;
        TxKeyDistinct(reference, reference);
        Step(Applied(credits, newBalance),
             users[uid := Credited(m, reference, amountKobo, credits, newBalance, now)])
  }

  /** One request to verify.php against the meta store `users`. */
  function VerifyStep(users: Users, req: Request, secretKey: Option<string>,
                      gateway: Gateway, now: int): (s: Step)
    // every reply other than "credits applied" leaves the store as it was
    ensures !s.outcome.Applied? ==> s.users == users
    // success and "already processed" are answered 200, every rejection 4xx or 5xx
    ensures s.outcome.Applied? || s.outcome.AlreadyProcessed? ==> HttpStatus(s.outcome) == 200
    ensures s.outcome.Rejected? ==> 400 <= HttpStatus(s.outcome) < 600
    ensures req.verb != "POST" ==> s.outcome == Rejected(405, InvalidMethod)
    ensures req.verb == "POST" && !WellFormed(req) ==> s.outcome.Rejected? && s.outcome.code == 400
    ensures req.verb == "POST" && req.input.None? ==> s.outcome == Rejected(400, InvalidJson)
    ensures req.verb == "POST" && req.input.Some? && !WellFormed(req) ==> s.outcome == Rejected(400, MissingFields)
    // then, in the script's order: unknown user, no secret, no answer, not confirmed
    ensures WellFormed(req) && UserOf(req) !in users ==> s.outcome == Rejected(404, InvalidUser)
    ensures WellFormed(req) && UserOf(req) in users && !SecretConfigured(secretKey)
            ==> s.outcome == Rejected(500, Misconfigured)
    ensures WellFormed(req) && UserOf(req) in users && SecretConfigured(secretKey) && gateway.Unreachable?
            ==> s.outcome == Rejected(502, Unreachable)
    ensures WellFormed(req) && UserOf(req) in users && SecretConfigured(secretKey)
            && gateway.Answered? && !Confirmed(gateway)
            ==> s.outcome == Rejected(400, VerificationFailed)
    // the ledger is reached exactly when every check passes; only it credits
    ensures s.outcome.Applied? || s.outcome.AlreadyProcessed? ==>
      WellFormed(req) && UserOf(req) in users && SecretConfigured(secretKey) && Confirmed(gateway)
    ensures WellFormed(req) && UserOf(req) in users && SecretConfigured(secretKey) && Confirmed(gateway) ==>
      s == Settle(users, UserOf(req), ReferenceOf(req), AmountKobo(gateway), now)
  {
    if req.verb != "POST" then Step(Rejected(405, InvalidMethod), users)
    else if req.input.None? then Step(Rejected(400, InvalidJson), users)
    else if !WellFormed(req) then Step(Rejected(400, MissingFields), users)
    else
      var reference, uid := ReferenceOf(req), UserOf(req);
      if uid !in users then Step(Rejected(404, InvalidUser), users)
      else if !SecretConfigured(secretKey) then Step(Rejected(500, Misconfigured), users)
      else if gateway.Unreachable? then Step(Rejected(502, Unreachable), users)
      else if !Confirmed(gateway) then Step(Rejected(400, VerificationFailed), users)
      else Settle(users, uid, reference, AmountKobo(gateway), now)
  }

  /** The plan handling of a successful verification: a pending intent naming
      a plan from the table sets plan, limit, usage 0 and start time; any other
      intent, or none, leaves those four keys as they were. */
  lemma VerifyPlanHandling(users: Users, req: Request, secretKey: Option<string>,
                           gateway: Gateway, now: int)
    requires VerifyStep(users, req, secretKey, gateway, now).outcome.Applied?
    ensures
      var uid := UserOf(req);
      var m, m' := users[uid], VerifyStep(users, req, secretKey, gateway, now).users[uid];
      match PendingPlan(m)
      case Some(plan) =>
        && Lookup(m', PlanKey) == Some(Text(plan))
        && Lookup(m', LimitKey) == Some(Number(PlanLimit(plan).value))
        && Lookup(m', UsedKey) == Some(Number(0))
        && Lookup(m', PlanStartKey) == Some(Number(now))
      case None =>
        forall k :: k in PlanKeys ==> Lookup(m', k) == Lookup(m, k)
  {
    var uid, ref := UserOf(req), ReferenceOf(req);
    TxKeyDistinct(ref, ref);
    var m := users[uid];
    assert PendingPlan(m[CreditsKey := Number(0)]) == PendingPlan(m);
  }

  /** Once a reference has been credited to a user, no later request for the
      same user and reference (whatever Paystack then answers) credits again
      or changes the store: sequential replays are harmless. */
  lemma LockedReferenceNeverCreditsAgain(
    users: Users, req: Request, secretKey: Option<string>, gateway: Gateway, now: int,
    req': Request, secretKey': Option<string>, gateway': Gateway, now': int)
    requires VerifyStep(users, req, secretKey, gateway, now).outcome.Applied?
    requires WellFormed(req') && UserOf(req') == UserOf(req) && ReferenceOf(req') == ReferenceOf(req)
    ensures
      var s := VerifyStep(users, req, secretKey, gateway, now);
      var s' := VerifyStep(s.users, req', secretKey', gateway', now');
      && !s'.outcome.Applied?
      && s'.users == s.users
  {
    var s := VerifyStep(users, req, secretKey, gateway, now);
    var uid, ref := UserOf(req), ReferenceOf(req);
    assert uid in s.users && PhpTruthy(Lookup(s.users[uid], TxKey(ref)));
  }

  /** `empty()` is tested before `trim()`: a reference made only of trimmed
      characters passes the missing-field check and is then used as "". */
  lemma BlankReferenceIsUsedEmpty(blank: string, uid: int)
    requires blank != [] && forall i :: 0 <= i < |blank| ==> IsPhpTrimChar(blank[i])
    requires uid != 0
    ensures
      var req := Request("POST", Some(Input(Some(blank), Some(uid))));
      WellFormed(req) && ReferenceOf(req) == ""
  {
    assert IsPhpTrimChar(blank[0]) && !IsPhpTrimChar('0');
  }

  /** The lock lives in one user's meta and `user_id` comes from the request
      body, so one reference and one Paystack answer credit user 7 and then
      user 8. */
  lemma ReferenceCreditedToTwoUsers(now: int)
    ensures
      var users: Users := map[7 := map[], 8 := map[]];
      var paid := Answered(Some(Verification(true, Some(Transaction(Some("success"), Some(15000))))));
      var s := VerifyStep(users, Request("POST", Some(Input(Some("r1"), Some(7)))), Some("sk"), paid, now);
      var s' := VerifyStep(s.users, Request("POST", Some(Input(Some("r1"), Some(8)))), Some("sk"), paid, now);
      s.outcome == Applied(1, 1) && s'.outcome == Applied(1, 1)
  {
    var ref := "r1";
    assert !IsPhpTrimChar(ref[0]) && !IsPhpTrimChar(ref[1]);
    assert TrimStart(ref, IsPhpTrimChar) == ref;
    assert TrimEnd(ref, IsPhpTrimChar) == ref;
    assert PhpTrim(ref) == ref;
    assert Pricing.Credits(15000) == 1;
    var users: Users := map[7 := map[], 8 := map[]];
    var paid := Answered(Some(Verification(true, Some(Transaction(Some("success"), Some(15000))))));
    var s := VerifyStep(users, Request("POST", Some(Input(Some(ref), Some(7)))), Some("sk"), paid, now);
    assert s.outcome == Applied(1, 1);
    assert s.users[8] == map[];
  }

  /** Some user's meta holds a truthy lock for `reference`. */
  predicate LockedForAnyUser(users: Users, reference: string)
  {
    exists u :: u in users && PhpTruthy(Lookup(users[u], TxKey(reference)))
  }

  /** verify.php with its duplicate guard consulting every user's meta, so
      that a payment reference is credited to one user at most. */
  function VerifyStepOnce(users: Users, req: Request, secretKey: Option<string>,
                          gateway: Gateway, now: int): (s: Step)
    ensures WellFormed(req) && LockedForAnyUser(users, ReferenceOf(req)) ==>
      !s.outcome.Applied? && s.users == users
    ensures !(WellFormed(req) && LockedForAnyUser(users, ReferenceOf(req))) ==>
      s == VerifyStep(users, req, secretKey, gateway, now)
  {
    if WellFormed(req) && UserOf(req) in users && SecretConfigured(secretKey) && Confirmed(gateway)
       && LockedForAnyUser(users, ReferenceOf(req))
    then Step(AlreadyProcessed, users)
    else VerifyStep(users, req, secretKey, gateway, now)
  }

  /** With the corrected guard, once a reference has been credited no later
      request with that reference credits anyone, whichever `user_id` it names. */
  lemma ReferenceCreditsOnlyOnce(
    users: Users, req: Request, secretKey: Option<string>, gateway: Gateway, now: int,
    req': Request, secretKey': Option<string>, gateway': Gateway, now': int)
    requires VerifyStepOnce(users, req, secretKey, gateway, now).outcome.Applied?
    requires WellFormed(req') && ReferenceOf(req') == ReferenceOf(req)
    ensures
      var s := VerifyStepOnce(users, req, secretKey, gateway, now);
      var s' := VerifyStepOnce(s.users, req', secretKey', gateway', now');
      !s'.outcome.Applied? && s'.users == s.users
  {
    var s := VerifyStepOnce(users, req, secretKey, gateway, now);
    var uid := UserOf(req);
    assert uid in s.users && PhpTruthy(Lookup(s.users[uid], TxKey(ReferenceOf(req))));
    assert LockedForAnyUser(s.users, ReferenceOf(req'));
  }

  /** The plan handling step of verify.php on `store`. */
  method ApplyPendingPlan(store: Store, uid: UserId, now: int)
    requires store.Valid() && uid in store.users
    modifies store
    ensures store.Valid() && store.userByEmail == old(store.userByEmail)
    ensures store.users == old(store.users)[uid := ApplyPlan(old(store.users)[uid], now)]
  {
    var intent := store.Get(uid, PendingKey);
    if intent.Some? && intent.value.Purchase? && "plan" in intent.value.fields {
      var plan := intent.value.fields["plan"];
      if plan.Str? && PlanLimit(plan.s).Some? {
        store.Update(uid, PlanKey, Text(plan.s));
        store.Update(uid, LimitKey, Number(PlanLimit(plan.s).value));
        store.Update(uid, UsedKey, Number(0));
        store.Update(uid, PlanStartKey, Number(now));
      }
    }
  }

  /** verify.php from the duplicate guard on, run against `store`. */
  method SettlePayment(store: Store, uid: UserId, reference: string, amountKobo: int, now: int)
    returns (outcome: Outcome)
    requires store.Valid() && uid in store.users
    modifies store
    ensures store.Valid() && store.userByEmail == old(store.userByEmail)
    ensures Step(outcome, store.users) == Settle(old(store.users), uid, reference, amountKobo, now)
  {
    var txKey := TxKey(reference);
    if PhpTruthy(store.Get(uid, txKey)) {
      return AlreadyProcessed;
    }
    var creditsToAdd := Pricing.Credits(amountKobo);
    if creditsToAdd <= 0 {
      return Rejected(400, Insufficient);
    }
    var newBalance := ApplyVerifiedPayment(store, uid, reference, amountKobo, creditsToAdd, now);
    return Applied(creditsToAdd, newBalance);
  }

  /** The mutating tail of verify.php: balance update, plan handling, lock
      record and intent deletion. */
  method ApplyVerifiedPayment(store: Store, uid: UserId, reference: string, amountKobo: int,
                              creditsToAdd: int, now: int) returns (newBalance: int)
    requires store.Valid() && uid in store.users
    modifies store
    ensures store.Valid() && store.userByEmail == old(store.userByEmail)
    ensures var m := old(store.users)[uid];
      && newBalance == PhpInt(Lookup(m, CreditsKey)) + creditsToAdd
      && store.users == old(store.users)[uid := Credited(m, reference, amountKobo, creditsToAdd, newBalance, now)]
  {
    ghost var users, m := store.users, store.users[uid];
    var currentCredits := PhpInt(store.Get(uid, CreditsKey));
    newBalance := currentCredits + creditsToAdd;
    store.Update(uid, CreditsKey, Number(newBalance));
    ApplyPendingPlan(store, uid, now);
    ghost var withPlan := ApplyPlan(m[CreditsKey := Number(newBalance)], now);
    assert store.users == users[uid := withPlan];
    store.Update(uid, TxKey(reference), TxRecord(now, amountKobo as real / 100.0, creditsToAdd));
    store.Delete(uid, PendingKey);
    assert store.users[uid]
        == withPlan[TxKey(reference) := TxRecord(now, amountKobo as real / 100.0, creditsToAdd)] - {PendingKey};
  }

  /** verify.php run against `store`, statement by statement. */
  method Verify(store: Store, req: Request, secretKey: Option<string>, gateway: Gateway, now: int)
    returns (outcome: Outcome)
    requires store.Valid()
    modifies store
    ensures store.Valid() && store.userByEmail == old(store.userByEmail)
    ensures Step(outcome, store.users) == VerifyStep(old(store.users), req, secretKey, gateway, now)
  {
    if req.verb != "POST" {
      return Rejected(405, InvalidMethod);
    }
    if req.input.None? {
      return Rejected(400, InvalidJson);
    }
    var input := req.input.value;
    if PhpEmptyString(input.reference) || PhpEmptyInt(input.userId) {
      return Rejected(400, MissingFields);
    }
    var reference := PhpTrim(input.reference.value);
    var uid := input.userId.value;

    if uid !in store.users {
      return Rejected(404, InvalidUser);
    }
    if secretKey.None? || PhpFalsyString(secretKey.value) {
      return Rejected(500, Misconfigured);
    }
    if gateway.Unreachable? {
      return Rejected(502, Unreachable);
    }
    var paystack := gateway.body;
    if paystack.None? || !paystack.value.status || paystack.value.data.None?
       || paystack.value.data.value.status != Some("success") {
      return Rejected(400, VerificationFailed);
    }

    outcome := SettlePayment(store, uid, reference, paystack.value.data.value.amount.GetOr(0), now);
  }
}
