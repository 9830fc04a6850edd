/** index.js: the Node.js webhook front end. It authenticates Paystack's
    webhook, acknowledges it at once, and for a successful charge produces a
    credit-apply request for WordPress. Everything here is a value computed
    from the environment and the delivery; sending the reply and the request
    is left to the caller. */
module Backend {
  import opened Wrappers
  import opened Text
  import opened Paystack
  import Js
  import Pricing

  /** The environment variables the front end reads. */
  datatype Env = Env(paystackSecret: Option<string>, webhookSecret: Option<string>, siteUrl: Option<string>)

  /** `JSON.parse` of the raw body: it throws (Unparseable), or gives an
      object (Some) or a value without fields, such as null (None). */
  datatype Body = Unparseable | Parsed(value: Option<Event>)

  /** The raw body, the `x-paystack-signature` header and the parsed body. */
  datatype Delivery = Delivery(raw: string, signature: Option<string>, body: Body)

  /** The GET request to WordPress: endpoint and query parameters. */
  datatype CreditRequest = CreditRequest(endpoint: string, secret: string, email: string,
                                         credits: string, reference: string)

  /** The HTTP status answered to Paystack and the credit request, if any. */
  datatype Decision = Decision(status: int, request: Option<CreditRequest>)

  const ApplyCreditsPath: string := "/wp-json/calevid/v1/apply-credits"

  /** `s.replace(/\/+$/, "")`: `s` without its maximal run of trailing slashes. */
  function StripTrailingSlashes(s: string): (r: string)
    ensures |r| <= |s| && r == s[..|r|]
    ensures forall i :: |r| <= i < |s| ==> s[i] == '/'
    ensures r == [] || r[|r| - 1] != '/'
  {
    if s != [] && s[|s| - 1] == '/' then StripTrailingSlashes(s[..|s| - 1]) else s
  }

  /** `WP_SITE_URL`: the variable (or "") trimmed, then stripped of trailing
      slashes. The result never ends in '/' and never starts with
      whitespace; it is the trimmed value up to its final run of slashes. */
  function NormaliseSiteUrl(raw: Option<string>): (url: string)
    ensures url == [] || url[|url| - 1] != '/'
    ensures url != [] ==> !IsJsTrimChar(url[0])
    ensures var t := JsTrim(raw.GetOr(""));
      |url| <= |t| && url == t[..|url|] && forall i :: |url| <= i < |t| ==> t[i] == '/'
  {
    StripTrailingSlashes(JsTrim(raw.GetOr("")))
  }

  /** Whitespace before the trailing slashes survives: "a /" becomes "a ". */
  lemma NormalisedUrlMayEndInSpace()
    ensures NormaliseSiteUrl(Some("a /")) == "a "
  {
    var s := "a /";
    assert !IsJsTrimChar(s[0]) && !IsJsTrimChar(s[2]);
    assert TrimStart(s, IsJsTrimChar) == s;
    assert TrimEnd(s, IsJsTrimChar) == s;
    assert s[..2] == "a ";
    assert StripTrailingSlashes("a ") == "a ";
  }

  /** The computed HMAC (with the secret, or "" when unset) equals the header;
      a missing header never matches. `hmac` stands for HMAC-SHA512 in hex. */
  predicate Authentic(env: Env, hmac: (string, string) -> string, d: Delivery)
  {
    d.signature == Some(hmac(env.paystackSecret.GetOr(""), d.raw))
  }

  /** `(customer?.email || "")`. */
  function EmailOf(charge: Charge): string
  {
    if charge.customer.Some? && charge.customer.value.email.Some?
    then charge.customer.value.email.value else ""
  }

  /** The guard `if (!email || credits <= 0) return;` as written: NaN credits pass it. */
  predicate ForwardAsWritten(email: string, credits: Js.Number)
  {
    email != "" && !Js.AtMostZero(credits)
  }

  /** The evidently intended guard: a non-empty email and a positive credit count. */
  predicate Forward(email: string, credits: Js.Number)
  {
    email != "" && credits.Finite? && credits.value > 0
  }

  /** The handler with the forwarding guard as a parameter. */
  function DecideWith(env: Env, hmac: (string, string) -> string, d: Delivery,
                      forward: (string, Js.Number) -> bool): (r: Decision)
    ensures !Authentic(env, hmac, d) ==> r == Decision(401, None)
    ensures Authentic(env, hmac, d) && d.body.Unparseable? ==> r == Decision(400, None)
    ensures Authentic(env, hmac, d) && d.body.Parsed? ==> r.status == 200
    ensures r.request.Some? <==>
      && CarriesCharge(env, hmac, d)
      && forward(JsTrim(EmailOf(d.body.value.value.data.value)),
                 Pricing.JsCredits(d.body.value.value.data.value.amount))
    ensures r.request.Some? ==>
      var charge, req := d.body.value.value.data.value, r.request.value;
      && req.endpoint == NormaliseSiteUrl(env.siteUrl) + ApplyCreditsPath
      && req.secret == JsTrim(env.webhookSecret.GetOr(""))
      && req.email == JsTrim(EmailOf(charge))
      && req.credits == Js.NumberText(Pricing.JsCredits(charge.amount))
      && req.reference == Js.StringOf(charge.reference)
  {
    if !Authentic(env, hmac, d) then Decision(401, None)
    else if d.body.Unparseable? then Decision(400, None)
    else
      var v := d.body.value;
      // acknowledged with 200 before anything else happens
      if v.None? || !IsChargeSuccess(v.value) || v.value.data.None? then Decision(200, None)
      else
        var charge := v.value.data.value;
        var email := JsTrim(EmailOf(charge));
        var credits := Pricing.JsCredits(charge.amount);
        if !forward(email, credits) then Decision(200, None)
        else
          Decision(200, Some(CreditRequest(
            NormaliseSiteUrl(env.siteUrl) + ApplyCreditsPath,
            JsTrim(env.webhookSecret.GetOr("")),
            email,
            Js.NumberText(credits),
            Js.StringOf(charge.reference))))
  }

  /** index.js lines 41-90 as written. */
  function DecideAsWritten(env: Env, hmac: (string, string) -> string, d: Delivery): (r: Decision)
    ensures !Authentic(env, hmac, d) ==> r == Decision(401, None)
    ensures Authentic(env, hmac, d) && d.body.Unparseable? ==> r == Decision(400, None)
    ensures Authentic(env, hmac, d) && d.body.Parsed? ==> r.status == 200
    // a missing amount is forwarded as well as one buying a credit
    ensures r.request.Some? <==>
      && CarriesCharge(env, hmac, d)
      && JsTrim(EmailOf(d.body.value.value.data.value)) != ""
      && (d.body.value.value.data.value.amount.None?
          || d.body.value.value.data.value.amount.value >= Pricing.KoboPerCredit)
    ensures r.request.Some? && d.body.value.value.data.value.amount.None? ==> r.request.value.credits == "NaN"
  {
    DecideWith(env, hmac, d, ForwardAsWritten)
  }

  /** The charge a delivery carries when it is an authentic, parseable
      `charge.success` with data. */
  predicate CarriesCharge(env: Env, hmac: (string, string) -> string, d: Delivery)
  {
    && Authentic(env, hmac, d) && d.body.Parsed? && d.body.value.Some?
    && IsChargeSuccess(d.body.value.value) && d.body.value.value.data.Some?
  }

  /** The webhook decision, with the intended forwarding guard. */
  function Decide(env: Env, hmac: (string, string) -> string, d: Delivery): (r: Decision)
    ensures !Authentic(env, hmac, d) ==> r == Decision(401, None)
    ensures Authentic(env, hmac, d) && d.body.Unparseable? ==> r == Decision(400, None)
    // every authenticated, parseable delivery is acknowledged, whatever follows
    ensures Authentic(env, hmac, d) && d.body.Parsed? ==> r.status == 200
    ensures r.request.Some? <==>
      && CarriesCharge(env, hmac, d)
      && JsTrim(EmailOf(d.body.value.value.data.value)) != ""
      && d.body.value.value.data.value.amount.Some?
      && Pricing.Credits(d.body.value.value.data.value.amount.value) > 0
    ensures r.request.Some? ==>
      var charge, req := d.body.value.value.data.value, r.request.value;
      && req.endpoint == NormaliseSiteUrl(env.siteUrl) + ApplyCreditsPath
      && req.secret == JsTrim(env.webhookSecret.GetOr(""))
      && req.email == JsTrim(EmailOf(charge))
      && AllDigits(req.credits) && DigitsValue(req.credits) == Pricing.Credits(charge.amount.value)
      && req.reference == Js.StringOf(charge.reference)
  {
    DecideWith(env, hmac, d, Forward)
  }

  /** End to end with the checkout: paying for `qty` credits produces a
      request whose credit count reads back as exactly `qty`. */
  lemma PurchaseRequestsExactlyQty(env: Env, hmac: (string, string) -> string, d: Delivery, qty: nat)
    requires CarriesCharge(env, hmac, d)
    requires JsTrim(EmailOf(d.body.value.value.data.value)) != ""
    requires d.body.value.value.data.value.amount == Some(Pricing.ChargeKobo(qty))
    requires qty > 0
    ensures Decide(env, hmac, d).request.Some?
    ensures DigitsValue(Decide(env, hmac, d).request.value.credits) == qty
  {
    Pricing.ChargeConvertsBack(qty);
  }

  /** With PAYSTACK_SECRET_KEY unset the HMAC is keyed with "", so anyone can
      sign a body the handler accepts: the check fails open. */
  lemma UnsetSecretAcceptsEmptyKeySignature(env: Env, hmac: (string, string) -> string,
                                            raw: string, body: Body)
    requires env.paystackSecret.None?
    ensures Decide(env, hmac, Delivery(raw, Some(hmac("", raw)), body)).status != 401
  {
  }

  /** The finding at index.js:72-74: an authentic `charge.success` without an
      amount passes the guard as written and yields a request whose credits
      are "NaN"; the intended guard drops it. */
  lemma MissingAmountForwardsNaN(env: Env, hmac: (string, string) -> string, raw: string)
    ensures
      var event := Event(Some(ChargeSuccess), Some(Charge(Some("ref"), Some(Customer(Some("x"))), None)));
      var d := Delivery(raw, Some(hmac(env.paystackSecret.GetOr(""), raw)), Parsed(Some(event)));
      && DecideAsWritten(env, hmac, d).request.Some?
      && DecideAsWritten(env, hmac, d).request.value.credits == "NaN"
      && Decide(env, hmac, d) == Decision(200, None)
  {
    assert !IsJsTrimChar('x');
    assert TrimStart("x", IsJsTrimChar) == "x";
    assert TrimEnd("x", IsJsTrimChar) == "x";
  }
}
