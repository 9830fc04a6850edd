/** The WordPress user-meta store the ledger lives in: per user, a map from
    meta key to the value last written under it. */
module Meta {
  import opened Wrappers
  import opened Text

  type UserId = int

  /** A scalar inside a decoded JSON object (the purchase intent). */
  datatype Scalar = Str(s: string) | Int(i: int) | Bool(b: bool) | Null

  /** The values the core writes as user meta. */
  datatype MetaValue =
    | Number(n: int)                      // balance, plan limit, usage, timestamps
    | Text(s: string)                     // plan name
    | TxRecord(time: int, amountKes: real, creditsAdded: int)   // the per-reference lock
    | Purchase(fields: map<string, Scalar>)                     // the pending purchase intent

  type UserMeta = map<string, MetaValue>
  type Users = map<UserId, UserMeta>

  const CreditsKey: string := "calevid_credits"
  const PendingKey: string := "calevid_pending_purchase"
  const PlanKey: string := "calevid_plan"
  const LimitKey: string := "calevid_limit"
  const UsedKey: string := "calevid_used"
  const PlanStartKey: string := "calevid_plan_start"

  /** The meta keys with a fixed name. */
  const FixedKeys: set<string> := {CreditsKey, PendingKey, PlanKey, LimitKey, UsedKey, PlanStartKey}

  /** `calevid_tx_<reference>`: the key marking a payment reference as processed. */
  function TxKey(reference: string): (k: string)
  {
    "calevid_tx_" + reference
  }

  /** Lock keys never collide with the fixed keys, and distinct references
      have distinct lock keys. */
  lemma TxKeyDistinct(reference: string, other: string)
    ensures TxKey(reference) !in FixedKeys
    ensures TxKey(reference) == TxKey(other) <==> reference == other
  {
    var k := TxKey(reference);
    assert k[8] == 't';
    assert CreditsKey[8] == 'c' && PendingKey[8] == 'p' && PlanKey[8] == 'p';
    assert LimitKey[8] == 'l' && UsedKey[8] == 'u' && PlanStartKey[8] == 'p';
    if TxKey(reference) == TxKey(other) {
      assert reference == k[11..] == TxKey(other)[11..] == other;
    }
  }

  /** The value under `key`, if any. */
  function Lookup(m: UserMeta, key: string): Option<MetaValue>
  {
    if key in m then Some(m[key]) else None
  }

  /** PHP truthiness of `get_user_meta($uid, $key, true)`, which yields ''
      for a missing key. */
  predicate PhpTruthy(v: Option<MetaValue>)
  {
    match v
    case None => false
    case Some(Number(n)) => n != 0
    case Some(Text(s)) => !PhpFalsyString(s)
    case Some(TxRecord(_, _, _)) => true
    case Some(Purchase(fields)) => |fields| > 0
  }

  /** JavaScript truthiness of the same read: objects are always truthy and
      only the empty string is a falsy string. */
  predicate JsTruthy(v: Option<MetaValue>)
  {
    match v
    case None => false
    case Some(Number(n)) => n != 0
    case Some(Text(s)) => s != ""
    case Some(TxRecord(_, _, _)) => true
    case Some(Purchase(_)) => true
  }

  /** `(int)get_user_meta($uid, $key, true)`: '' casts to 0, an array to 0
      or 1 by emptiness. A text value is read as 0. */
  function PhpInt(v: Option<MetaValue>): int
  {
    match v
    case None => 0
    case Some(Number(n)) => n
    case Some(Text(_)) => 0
    case Some(TxRecord(_, _, _)) => 1
    case Some(Purchase(fields)) => if |fields| > 0 then 1 else 0
  }

  /** `get_user_meta(userId, key, true) || 0` used as a number. A truthy
      value that is not a number is read as 0. */
  function JsNumberOr0(v: Option<MetaValue>): int
  {
    match v
    case Some(Number(n)) => n
    case _ => 0
  }

  /** `m` and `m'` agree on every key outside `keys`. */
  ghost predicate AgreeOutside(m: UserMeta, m': UserMeta, keys: set<string>)
  {
    forall k :: k !in keys ==> Lookup(m, k) == Lookup(m', k)
  }

  /** The WordPress users and their meta. `userByEmail` is the email index
      `get_user_by('email', …)` consults; it is never changed by the core. */
  class Store {
    var users: Users
    var userByEmail: map<string, UserId>

    ghost predicate Valid()
      reads this
    {
      forall e :: e in userByEmail ==> userByEmail[e] in users
    }

    constructor (users: Users, userByEmail: map<string, UserId>)
      requires forall e :: e in userByEmail ==> userByEmail[e] in users
      ensures Valid()
      ensures this.users == users && this.userByEmail == userByEmail
    {
      this.users := users;
      this.userByEmail := userByEmail;
    }

    /** `get_user_meta($uid, $key, true)`. */
    function Get(uid: UserId, key: string): Option<MetaValue>
      reads this
      requires uid in users
    {
      Lookup(users[uid], key)
    }

    /** `update_user_meta($uid, $key, $value)`. */
    method Update(uid: UserId, key: string, value: MetaValue)
      requires Valid() && uid in users
      modifies this
      ensures Valid() && userByEmail == old(userByEmail)
      ensures users == old(users)[uid := old(users)[uid][key := value]]
    {
      users := users[uid := users[uid][key := value]];
    }

    /** `delete_user_meta($uid, $key)`. */
    method Delete(uid: UserId, key: string)
      requires Valid() && uid in users
      modifies this
      ensures Valid() && userByEmail == old(userByEmail)
      ensures users == old(users)[uid := old(users)[uid] - {key}]
    {
      users := users[uid := users[uid] - {key}];
    }
  }
}
