/** What a presented token is answered, in terms of the rows kept about it, now and after any run. */
module AuthAnswers {
  import opened Wrappers
  import opened AuthTables
  import opened AuthSafety

  /** A signature of ours that has not expired. */
  predicate Good(store: Store, now: int, h: nat) {
    h in store.issued && store.issued[h].expiresAt > now
  }

  /** The row of a signed token of an existing user is there and has not been revoked. */
  predicate Unrevoked(store: Store, h: nat) {
    h in store.rows && !store.rows[h].revoked
  }

  predicate OwnerActive(store: Store, h: nat) {
    h in store.issued && store.issued[h].userId < |store.users| && store.users[store.issued[h].userId].active
  }

  /** Every row stays, and the given ones are revoked. */
  ghost predicate OnlyRevoked(before: map<nat, TokenRow>, after: map<nat, TokenRow>, gone: set<nat>) {
    forall k :: k in before ==> k in after && after[k] == before[k].(revoked := before[k].revoked || k in gone)
  }

  /** The tokens listed beyond the limit. */
  function Crowded(mint: Mint, max: nat): set<nat> {
    if |mint.order| <= max then {} else set h | h in mint.order[max..]
  }

  /** Tokens for the user's own version and this instant; beyond the limit the listed tokens are revoked. */
  ghost predicate HandsOut(before: Store, after: Store, max: nat, now: int, u: nat, mint: Mint, spent: set<nat>)
    requires u < |before.users|
  {
    && after.users == before.users
    && after.issued == before.issued[mint.hash := Signed(u, mint.signedExpiresAt)]
    && after.access == before.access + {AccessToken(u, before.users[u].sessionVersion)}
    && after.rows.Keys == before.rows.Keys + {mint.hash}
    && after.rows[mint.hash] == TokenRow(u, now, mint.rowExpiresAt, mint.hash in Crowded(mint, max))
    && OnlyRevoked(before.rows - {mint.hash}, after.rows, spent + Crowded(mint, max))
  }

  /**
   * A token rotates exactly when its signature is good, its row unrevoked and its owner active; it is
   * reuse exactly when its signature is good and its row revoked; everything else is refused.
   */
  lemma RotationMeans(store: Store, max: nat, now: int, h: nat, mint: Mint)
    requires Inv(store, now)
    ensures var (after, r) := Refresh(store, max, now, h, mint);
      && (r.Rotated? <==> Good(store, now, h) && Unrevoked(store, h) && OwnerActive(store, h))
      && (r == Reuse <==> Good(store, now, h) && !Unrevoked(store, h))
      && (r == Invalid ==> after == store)
      && (r.Rotated? ==>
            var u := store.issued[h].userId;
            && r == Rotated(AccessToken(u, store.users[u].sessionVersion), mint.hash)
            && HandsOut(store, after, max, now, u, mint, {h}))
  {
    if Good(store, now, h) {
      RowIsThere(store, now, h);
    }
  }

  /** A login succeeds exactly for an active user. */
  lemma LoginMeans(store: Store, max: nat, now: int, u: nat, mint: Mint)
    ensures var (after, token) := Login(store, max, now, u, mint);
      && (token.Some? <==> u < |store.users| && store.users[u].active)
      && (token.None? ==> after == store)
      && (token.Some? ==> token.value == AccessToken(u, store.users[u].sessionVersion) && HandsOut(store, after, max, now, u, mint, {}))
  {
  }

  // Over runs

  /** The step is a rotation that detects reuse of a token of the user. */
  ghost predicate DetectsReuse(store: Store, now: int, step: Step, u: nat) {
    && step.Rotate? && Good(store, now, step.token) && !Unrevoked(store, step.token)
    && store.issued[step.token].userId == u && Mintable(WithRevoked(store, step.token), u, now, step.mint)
  }

  /** The step is a rotation that the user gets new tokens from. */
  ghost predicate Renews(store: Store, now: int, step: Step, u: nat) {
    && step.Rotate? && Good(store, now, step.token) && Unrevoked(store, step.token) && OwnerActive(store, step.token)
    && store.issued[step.token].userId == u && Mintable(WithRevoked(store, step.token), u, now, step.mint)
  }

  /** The step is a login of the user that succeeds. */
  ghost predicate LogsIn(store: Store, now: int, step: Step, u: nat) {
    step.LogIn? && step.userId == u && u < |store.users| && store.users[u].active && Mintable(store, u, now, step.mint)
  }

  /** Every way a token is revoked: rotated, crowded out, logged out, or in a family that is ended. */
  ghost predicate Revokes(store: Store, max: nat, now: int, step: Step, h: nat)
    requires h in store.issued
  {
    var u := store.issued[h].userId;
    || DetectsReuse(store, now, step, u)
    || (Renews(store, now, step, u) && (step.token == h || h in Crowded(step.mint, max)))
    || (LogsIn(store, now, step, u) && h in Crowded(step.mint, max))
    || (step.LogOut? && (step.presented == Some(h) || (step.presented.None? && step.caller == Some(u))))
    || (step.ForceOut? && u in step.ids)
  }

  /** Every way a user's access tokens are ended. */
  ghost predicate Ends(store: Store, now: int, step: Step, u: nat) {
    DetectsReuse(store, now, step, u) || (step.LogOut? && step.caller == Some(u)) || (step.ForceOut? && u in step.ids)
  }

  lemma QuietRevokes(store: Store, max: nat, now: int, step: Step, h: nat)
    requires Good(store, now, h) && Unrevoked(store, h) && store.rows[h].expiresAt > now && store.rows[h].userId == store.issued[h].userId
    requires !step.LogIn? && !step.Rotate?
    ensures var after := Next(store, max, now, step);
      h in after.rows && (after.rows[h].revoked <==> Revokes(store, max, now, step, h))
  {
  }

  /** A step revokes a token exactly in one of those ways. */
  lemma NextRevokes(store: Store, max: nat, now: int, step: Step, h: nat)
    requires Inv(store, now) && Good(store, now, h) && Unrevoked(store, h)
    ensures var after := Next(store, max, now, step);
      h in after.rows && (after.rows[h].revoked <==> Revokes(store, max, now, step, h))
  {
    RowIsThere(store, now, h);
    match step
    case LogIn(u, mint) =>
      LoginMeans(store, max, now, u, mint);
      if Mintable(store, u, now, mint) {
        ListedAreOwn(store, u, now, mint, max, h);
      }
      hide Login, Mintable, Crowded, Inv;
    case Rotate(k, mint) =>
      if k in store.issued && Mintable(WithRevoked(store, k), store.issued[k].userId, now, mint) {
        RotationRevokes(store, max, now, k, mint, h);
      }
      hide Refresh, Mintable, Crowded, Inv, Revokes;
    case AddUser(_) => QuietRevokes(store, max, now, step, h);
    case SetActive(_, _) => QuietRevokes(store, max, now, step, h);
    case LogOut(_, _) => QuietRevokes(store, max, now, step, h);
    case CleanUp => QuietRevokes(store, max, now, step, h);
    case ForceOut(_) => QuietRevokes(store, max, now, step, h);
  }

  lemma ListedAreOwn(store: Store, u: nat, now: int, mint: Mint, max: nat, h: nat)
    requires Mintable(store, u, now, mint) && h in store.issued && h in store.rows
    ensures h != mint.hash && (h in Crowded(mint, max) ==> store.rows[h].userId == u)
  {
  }

  lemma RotationRevokes(store: Store, max: nat, now: int, k: nat, mint: Mint, h: nat)
    requires Inv(store, now) && Good(store, now, h) && Unrevoked(store, h) && store.rows[h].userId == store.issued[h].userId
    requires k in store.issued && Mintable(WithRevoked(store, k), store.issued[k].userId, now, mint)
    ensures var after := Refresh(store, max, now, k, mint).0;
      h in after.rows && (after.rows[h].revoked <==> Revokes(store, max, now, Rotate(k, mint), h))
  {
    RotationMeans(store, max, now, k, mint);
    ListedAreOwn(WithRevoked(store, k), store.issued[k].userId, now, mint, max, h);
    hide Mintable, Crowded, Inv, Issue;
  }

  lemma NextEnds(store: Store, max: nat, now: int, step: Step, u: nat)
    requires Inv(store, now) && u < |store.users|
    ensures var after := Next(store, max, now, step);
      && u < |after.users|
      && after.users[u].sessionVersion == store.users[u].sessionVersion + (if Ends(store, now, step, u) then 1 else 0)
      && after.users[u].active == if step.SetActive? && step.userId == u then step.active else store.users[u].active
  {
    match step
    case Rotate(k, mint) =>
      if k in store.issued && Mintable(WithRevoked(store, k), store.issued[k].userId, now, mint) {
        RotationMeans(store, max, now, k, mint);
      }
      hide Mintable, Inv, Issue, OnlyRevoked;
    case _ =>
      hide Mintable, Inv;
  }

  /** No step of the run revokes the token. */
  ghost predicate NeverRevoked(store: Store, max: nat, run: seq<Timed>, h: nat)
    requires h in store.issued
    decreases |run|
  {
    |run| == 0 ||
    (!Revokes(store, max, run[0].now, run[0].step, h) &&
     var next := Next(store, max, run[0].now, run[0].step);
     h in next.issued && NeverRevoked(next, max, run[1..], h))
  }

  /** How often the run ends the user's access tokens. */
  ghost function Endings(store: Store, max: nat, run: seq<Timed>, u: nat): nat
    decreases |run|
  {
    if |run| == 0 then 0
    else (if Ends(store, run[0].now, run[0].step, u) then 1 else 0) +
         Endings(Next(store, max, run[0].now, run[0].step), max, run[1..], u)
  }

  /** Whether a user is active after a run: as they were last set. */
  function ActiveAfter(active: bool, run: seq<Timed>, u: nat): bool {
    if |run| == 0 then active
    else
      var last := run[|run| - 1].step;
      if last.SetActive? && last.userId == u then last.active else ActiveAfter(active, run[..|run| - 1], u)
  }

  lemma {:induction false} ActiveFirst(active: bool, run: seq<Timed>, u: nat)
    requires |run| > 0
    ensures ActiveAfter(active, run, u) ==
            ActiveAfter(if run[0].step.SetActive? && run[0].step.userId == u then run[0].step.active else active, run[1..], u)
  {
    if |run| > 1 {
      ActiveFirst(active, run[..|run| - 1], u);
      assert run[..|run| - 1][1..] == run[1..][..|run| - 2];
    }
  }

  lemma {:induction false} RunEnds(store: Store, max: nat, now: int, run: seq<Timed>, until: int, u: nat)
    requires Inv(store, now) && Clocked(now, run, until) && u < |store.users|
    ensures var end := Run(store, max, run);
      && u < |end.users|
      && end.users[u].sessionVersion == store.users[u].sessionVersion + Endings(store, max, run, u)
      && end.users[u].active == ActiveAfter(store.users[u].active, run, u)
    decreases |run|
  {
    if |run| > 0 {
      var t, step := run[0].now, run[0].step;
      TimePasses(store, now, t);
      NextEnds(store, max, t, step, u);
      NextKeepsRows(store, max, t, step);
      NextKeepsAccess(store, max, t, step);
      ActiveFirst(store.users[u].active, run, u);
      hide Next, RowsSound, AccessSound, Ends;
      RunEnds(Next(store, max, t, step), max, t, run[1..], until, u);
    }
  }

  lemma {:induction false} RunRevokes(store: Store, max: nat, now: int, run: seq<Timed>, until: int, h: nat)
    requires Inv(store, now) && Clocked(now, run, until) && Good(store, until, h) && Unrevoked(store, h)
    ensures Unrevoked(Run(store, max, run), h) <==> NeverRevoked(store, max, run, h)
    decreases |run|
  {
    if |run| > 0 {
      var t, step := run[0].now, run[0].step;
      var next := Next(store, max, t, step);
      TimePasses(store, now, t);
      NextRevokes(store, max, t, step, h);
      NextKeepsRows(store, max, t, step);
      NextKeepsAccess(store, max, t, step);
      NextIsLater(store, max, t, step);
      RunIsLater(next, max, run[1..]);
      hide Next, RowsSound, AccessSound, Revokes;
      if !next.rows[h].revoked {
        RunRevokes(next, max, t, run[1..], until, h);
      }
    }
  }

  /**
   * After any run, an unrevoked token whose signature has not expired rotates exactly when no step
   * revoked it and its owner was last set active, and is reuse exactly when some step did revoke it.
   */
  lemma TokenRotatesExactly(store: Store, max: nat, now: int, h: nat, run: seq<Timed>, later: int, mint: Mint)
    requires Inv(store, now) && Clocked(now, run, later) && Good(store, later, h) && Unrevoked(store, h)
    ensures var u := store.issued[h].userId;
      var r := Refresh(Run(store, max, run), max, later, h, mint).1;
      && u < |store.users|
      && (r.Rotated? <==> NeverRevoked(store, max, run, h) && ActiveAfter(store.users[u].active, run, u))
      && (r == Reuse <==> !NeverRevoked(store, max, run, h))
      && (r.Rotated? ==> r == Rotated(AccessToken(u, store.users[u].sessionVersion + Endings(store, max, run, u)), mint.hash))
  {
    RunRevokes(store, max, now, run, later, h);
    RunEnds(store, max, now, run, later, store.issued[h].userId);
    RunKeepsInv(store, max, now, run, later);
    RunIsLater(store, max, run);
    RotationMeans(Run(store, max, run), max, later, h, mint);
    hide Run, Refresh, AccessSound, NeverRevoked, Endings, ActiveAfter, HandsOut;
  }

  /** So does the token a login hands out, when it is not crowded out at once. */
  lemma LoginTokenRotates(store: Store, max: nat, now: int, u: nat, mint: Mint, run: seq<Timed>, later: int, next: Mint)
    requires Inv(store, now) && u < |store.users| && store.users[u].active && Mintable(store, u, now, mint)
    requires mint.hash !in Crowded(mint, max) && Clocked(now, run, later) && mint.signedExpiresAt > later
    ensures var after := Login(store, max, now, u, mint).0;
      && mint.hash in after.issued
      && (Refresh(Run(after, max, run), max, later, mint.hash, next).1.Rotated? <==>
          NeverRevoked(after, max, run, mint.hash) && ActiveAfter(true, run, u))
  {
    var after := Login(store, max, now, u, mint).0;
    LoginMeans(store, max, now, u, mint);
    NextKeepsRows(store, max, now, LogIn(u, mint));
    NextKeepsAccess(store, max, now, LogIn(u, mint));
    hide Login, Mintable, Run, Refresh, RowsSound, AccessSound, NeverRevoked, ActiveAfter, Endings, Crowded;
    TokenRotatesExactly(after, max, now, mint.hash, run, later, next);
  }

  /** And the token a rotation hands out. */
  lemma RotatedTokenRotates(store: Store, max: nat, now: int, h: nat, mint: Mint, run: seq<Timed>, later: int, next: Mint)
    requires Inv(store, now) && h in store.issued && Mintable(WithRevoked(store, h), store.issued[h].userId, now, mint)
    requires Refresh(store, max, now, h, mint).1.Rotated?
    requires mint.hash !in Crowded(mint, max) && Clocked(now, run, later) && mint.signedExpiresAt > later
    ensures var after := Refresh(store, max, now, h, mint).0;
      && mint.hash in after.issued
      && (Refresh(Run(after, max, run), max, later, mint.hash, next).1.Rotated? <==>
          NeverRevoked(after, max, run, mint.hash) && ActiveAfter(true, run, store.issued[h].userId))
  {
    var after := Refresh(store, max, now, h, mint).0;
    RotationMeans(store, max, now, h, mint);
    RefreshIsRotate(store, max, now, h, mint);
    NextKeepsRows(store, max, now, Rotate(h, mint));
    NextKeepsAccess(store, max, now, Rotate(h, mint));
    hide Refresh, Mintable, Run, RowsSound, AccessSound, NeverRevoked, ActiveAfter, Endings, Crowded;
    TokenRotatesExactly(after, max, now, mint.hash, run, later, next);
  }

  /** After any run, an accepted access token is still accepted exactly when nothing ended its user's tokens and they were last set active. */
  lemma AccessLastsExactly(store: Store, max: nat, now: int, token: AccessToken, run: seq<Timed>, later: int)
    requires Inv(store, now) && Clocked(now, run, later) && Validate(store, token)
    ensures Validate(Run(store, max, run), token) <==>
            Endings(store, max, run, token.userId) == 0 && ActiveAfter(true, run, token.userId)
  {
    RunEnds(store, max, now, run, later, token.userId);
    hide Run, Inv, Endings, ActiveAfter;
  }
}
