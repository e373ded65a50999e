/**
 * Users and refresh tokens. A token is named by its hash; rows live in a table keyed by hash, and
 * `issued` and `access` record what has been signed and handed out, which nothing can take back.
 */
module AuthTables {
  import opened Wrappers

  datatype User = User(active: bool, sessionVersion: nat)

  datatype TokenRow = TokenRow(userId: nat, createdAt: int, expiresAt: int, revoked: bool)

  /** What the signature of a refresh token says. */
  datatype Signed = Signed(userId: nat, expiresAt: int)

  datatype AccessToken = AccessToken(userId: nat, sessionVersion: nat)

  datatype Store = Store(
    users: seq<User>,
    rows: map<nat, TokenRow>,
    issued: map<nat, Signed>,
    access: set<AccessToken>)

  /** The user's unrevoked, unexpired tokens. */
  function Active(rows: map<nat, TokenRow>, u: nat, now: int): set<nat> {
    set h | h in rows && rows[h].userId == u && !rows[h].revoked && rows[h].expiresAt > now
  }

  function Revoke(rows: map<nat, TokenRow>, hashes: set<nat>): map<nat, TokenRow> {
    map h | h in rows :: if h in hashes then rows[h].(revoked := true) else rows[h]
  }

  function TokensOf(rows: map<nat, TokenRow>, users: set<nat>): set<nat> {
    set h | h in rows && rows[h].userId in users
  }

  ghost predicate Distinct(order: seq<nat>) {
    forall j, k :: 0 <= j < k < |order| ==> order[j] != order[k]
  }

  /** The database's answer to "active tokens, newest first"; equal creation times come in any order. */
  ghost predicate NewestFirst(rows: map<nat, TokenRow>, u: nat, now: int, order: seq<nat>) {
    && Distinct(order)
    && (forall k :: 0 <= k < |order| ==> order[k] in Active(rows, u, now))
    && (forall h :: h in Active(rows, u, now) ==> h in order)
    && (forall j, k :: 0 <= j < k < |order| ==> rows[order[j]].createdAt >= rows[order[k]].createdAt)
  }

  function Prune(rows: map<nat, TokenRow>, order: seq<nat>, max: nat): map<nat, TokenRow> {
    if |order| <= max then rows else Revoke(rows, set h | h in order[max..])
  }

  /** A freshly signed refresh token, and the order in which the database then lists the user's tokens. */
  datatype Mint = Mint(hash: nat, signedExpiresAt: int, rowExpiresAt: int, order: seq<nat>)

  function WithRow(store: Store, u: nat, now: int, mint: Mint): Store {
    store.(rows := store.rows[mint.hash := TokenRow(u, now, mint.rowExpiresAt, false)])
  }

  /** The hash is new, the signature expires no later than the row, and the listing is right. */
  ghost predicate Mintable(store: Store, u: nat, now: int, mint: Mint) {
    && mint.hash !in store.issued
    && mint.signedExpiresAt <= mint.rowExpiresAt
    && NewestFirst(WithRow(store, u, now, mint).rows, u, now, mint.order)
  }

  function Issue(store: Store, max: nat, now: int, u: nat, mint: Mint): Store
    requires u < |store.users|
  {
    store.(rows := Prune(WithRow(store, u, now, mint).rows, mint.order, max),
           issued := store.issued[mint.hash := Signed(u, mint.signedExpiresAt)],
           access := store.access + {AccessToken(u, store.users[u].sessionVersion)})
  }

  function Bumped(users: seq<User>, ids: set<nat>): (r: seq<User>)
    ensures |r| == |users|
    ensures forall u :: 0 <= u < |users| ==>
              r[u].active == users[u].active &&
              r[u].sessionVersion == users[u].sessionVersion + (if u in ids then 1 else 0)
  {
    seq(|users|, u requires 0 <= u < |users| =>
      if u in ids then users[u].(sessionVersion := users[u].sessionVersion + 1) else users[u])
  }

  /** Every unrevoked token of the given users is revoked and their session versions move on. */
  function RevokeFamilies(store: Store, ids: set<nat>): Store {
    store.(rows := Revoke(store.rows, TokensOf(store.rows, ids)), users := Bumped(store.users, ids))
  }

  datatype Rotation = Rotated(access: AccessToken, refresh: nat) | Invalid | Reuse

  /** Some revoked row of the user is still kept. */
  predicate Evidence(rows: map<nat, TokenRow>, u: nat, now: int) {
    exists h | h in rows :: rows[h].userId == u && rows[h].revoked && rows[h].expiresAt > now
  }

  function Refresh(store: Store, max: nat, now: int, h: nat, mint: Mint): (Store, Rotation) {
    if h !in store.issued || store.issued[h].expiresAt <= now || store.issued[h].userId >= |store.users| then (store, Invalid)
    else
      var u := store.issued[h].userId;
      if h !in store.rows || store.rows[h].userId != u then
        if Evidence(store.rows, u, now) then (RevokeFamilies(store, {u}), Reuse) else (store, Invalid)
      else if store.rows[h].revoked then (RevokeFamilies(store, {u}), Reuse)
      else if store.rows[h].expiresAt <= now || !store.users[u].active then (store, Invalid)
      else
        (Issue(store.(rows := Revoke(store.rows, {h})), max, now, u, mint),
         Rotated(AccessToken(u, store.users[u].sessionVersion), mint.hash))
  }

  function Login(store: Store, max: nat, now: int, u: nat, mint: Mint): (Store, Option<AccessToken>) {
    if u >= |store.users| || !store.users[u].active then (store, None)
    else (Issue(store, max, now, u, mint), Some(AccessToken(u, store.users[u].sessionVersion)))
  }

  function Logout(store: Store, token: Option<nat>, user: Option<nat>): Store {
    match (token, user)
    case (Some(h), Some(u)) => store.(rows := Revoke(store.rows, {h}), users := Bumped(store.users, {u}))
    case (Some(h), None) => store.(rows := Revoke(store.rows, {h}))
    case (None, Some(u)) => RevokeFamilies(store, {u})
    case (None, None) => store
  }

  function Cleanup(store: Store, now: int): Store {
    store.(rows := map h | h in store.rows && store.rows[h].expiresAt > now :: store.rows[h])
  }

  /** Whether a signed access token is still accepted. */
  predicate Validate(store: Store, token: AccessToken) {
    token.userId < |store.users| && store.users[token.userId].active &&
    store.users[token.userId].sessionVersion == token.sessionVersion
  }
}
