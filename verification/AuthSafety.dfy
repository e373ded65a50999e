/** What holds of every run of logins, rotations, logouts, forced logouts and cleanups. */
module AuthSafety {
  import opened Wrappers
  import opened AuthTables

  datatype Step =
    | AddUser(user: User)
    | SetActive(userId: nat, active: bool)
    | LogIn(userId: nat, mint: Mint)
    | Rotate(token: nat, mint: Mint)
    | LogOut(presented: Option<nat>, caller: Option<nat>)
    | CleanUp
    | ForceOut(ids: set<nat>)

  datatype Timed = At(now: int, step: Step)

  function WithRevoked(store: Store, h: nat): Store {
    store.(rows := Revoke(store.rows, {h}))
  }

  /** One transaction; a mint that the signer or the database could not have produced does nothing. */
  ghost function Next(store: Store, max: nat, now: int, step: Step): Store {
    match step
    case AddUser(user) => store.(users := store.users + [user])
    case SetActive(u, active) =>
      if u < |store.users| then store.(users := store.users[u := store.users[u].(active := active)]) else store
    case LogIn(u, mint) => if Mintable(store, u, now, mint) then Login(store, max, now, u, mint).0 else store
    case Rotate(h, mint) =>
      if h in store.issued && Mintable(WithRevoked(store, h), store.issued[h].userId, now, mint)
      then Refresh(store, max, now, h, mint).0 else store
    case LogOut(token, user) => Logout(store, token, user)
    case CleanUp => Cleanup(store, now)
    case ForceOut(ids) => RevokeFamilies(store, ids)
  }

  ghost function Run(store: Store, max: nat, run: seq<Timed>): Store
    decreases |run|
  {
    if |run| == 0 then store else Run(Next(store, max, run[0].now, run[0].step), max, run[1..])
  }

  /** The clock never goes back, from `from` until `until`. */
  predicate Clocked(from: int, run: seq<Timed>, until: int) {
    && from <= until
    && (forall k | 0 <= k < |run| :: from <= run[k].now <= until)
    && (forall j, k | 0 <= j < k < |run| :: run[j].now <= run[k].now)
  }

  // The invariant

  ghost predicate RowsSound(store: Store, now: int) {
    && (forall h :: h in store.issued ==> store.issued[h].userId < |store.users|)
    && (forall h :: h in store.rows ==>
          h in store.issued && store.rows[h].userId == store.issued[h].userId &&
          store.issued[h].expiresAt <= store.rows[h].expiresAt && store.rows[h].createdAt <= now)
    && (forall h :: h in store.issued && store.issued[h].expiresAt > now ==> h in store.rows)
  }

  ghost predicate AccessSound(store: Store) {
    forall t :: t in store.access ==> t.userId < |store.users| && t.sessionVersion <= store.users[t.userId].sessionVersion
  }

  ghost predicate Inv(store: Store, now: int) {
    RowsSound(store, now) && AccessSound(store)
  }

  lemma TimePasses(store: Store, before: int, now: int)
    requires Inv(store, before) && before <= now
    ensures Inv(store, now)
  {
  }

  lemma IssueKeepsRows(store: Store, max: nat, now: int, u: nat, mint: Mint)
    requires RowsSound(store, now) && u < |store.users|
    requires mint.hash !in store.issued && mint.signedExpiresAt <= mint.rowExpiresAt
    ensures RowsSound(Issue(store, max, now, u, mint), now)
  {
  }

  lemma RefreshKeepsRows(store: Store, max: nat, now: int, h: nat, mint: Mint)
    requires RowsSound(store, now)
    requires mint.hash !in store.issued && mint.signedExpiresAt <= mint.rowExpiresAt
    ensures RowsSound(Refresh(store, max, now, h, mint).0, now)
  {
    if Refresh(store, max, now, h, mint).1.Rotated? {
      IssueKeepsRows(WithRevoked(store, h), max, now, store.issued[h].userId, mint);
    }
  }

  /** Steps that only revoke or delete rows, or change users. */
  lemma RevokingKeepsRows(a: Store, b: Store, now: int)
    requires RowsSound(a, now)
    requires b.issued == a.issued && |a.users| <= |b.users|
    requires forall h :: h in b.rows ==> h in a.rows && b.rows[h] == a.rows[h].(revoked := b.rows[h].revoked)
    requires forall h :: h in a.rows && a.rows[h].expiresAt > now ==> h in b.rows
    ensures RowsSound(b, now)
  {
  }

  lemma QuietStepKeepsRows(store: Store, max: nat, now: int, step: Step)
    requires RowsSound(store, now) && !step.LogIn? && !step.Rotate?
    ensures RowsSound(Next(store, max, now, step), now)
  {
    hide RowsSound;
    RevokingKeepsRows(store, Next(store, max, now, step), now);
  }

  lemma NextKeepsRows(store: Store, max: nat, now: int, step: Step)
    requires RowsSound(store, now)
    ensures RowsSound(Next(store, max, now, step), now)
  {
    hide RowsSound, Issue, Refresh;
    match step
    case LogIn(u, mint) =>
      if Mintable(store, u, now, mint) && u < |store.users| {
        IssueKeepsRows(store, max, now, u, mint);
      }
    case Rotate(h, mint) =>
      if h in store.issued && Mintable(WithRevoked(store, h), store.issued[h].userId, now, mint) {
        RefreshKeepsRows(store, max, now, h, mint);
      }
    case AddUser(_) => QuietStepKeepsRows(store, max, now, step);
    case SetActive(_, _) => QuietStepKeepsRows(store, max, now, step);
    case LogOut(_, _) => QuietStepKeepsRows(store, max, now, step);
    case CleanUp => QuietStepKeepsRows(store, max, now, step);
    case ForceOut(_) => QuietStepKeepsRows(store, max, now, step);
  }

  lemma NextKeepsAccess(store: Store, max: nat, now: int, step: Step)
    requires AccessSound(store)
    ensures AccessSound(Next(store, max, now, step))
  {
  }

  lemma {:induction false} RunKeepsInv(store: Store, max: nat, now: int, run: seq<Timed>, until: int)
    requires Inv(store, now) && Clocked(now, run, until)
    ensures Inv(Run(store, max, run), until)
    decreases |run|
  {
    if |run| == 0 {
      TimePasses(store, now, until);
    } else {
      var t := run[0].now;
      TimePasses(store, now, t);
      NextKeepsRows(store, max, t, run[0].step);
      NextKeepsAccess(store, max, t, run[0].step);
      RunKeepsInv(Next(store, max, t, run[0].step), max, t, run[1..], until);
    }
  }

  /** A token whose signature is still good always has its row, so the missing-row branch is never needed. */
  lemma RowIsThere(store: Store, now: int, h: nat)
    requires Inv(store, now) && h in store.issued && store.issued[h].expiresAt > now
    ensures h in store.rows && store.rows[h].userId == store.issued[h].userId && store.rows[h].expiresAt > now
  {
  }

  // What never comes back

  /** Users stay, versions only grow, signatures stay, and a revoked token stays revoked while its row is kept. */
  ghost predicate Later(a: Store, b: Store) {
    && |a.users| <= |b.users|
    && (forall u :: 0 <= u < |a.users| ==> a.users[u].sessionVersion <= b.users[u].sessionVersion)
    && (forall h :: h in a.issued ==> h in b.issued && b.issued[h] == a.issued[h])
    && (forall h :: h in a.issued && (h in a.rows ==> a.rows[h].revoked) ==> (h in b.rows ==> b.rows[h].revoked))
    && a.access <= b.access
  }

  lemma IssueIsLater(store: Store, max: nat, now: int, u: nat, mint: Mint)
    requires u < |store.users| && mint.hash !in store.issued
    ensures Later(store, Issue(store, max, now, u, mint))
  {
  }

  lemma RefreshIsLater(store: Store, max: nat, now: int, h: nat, mint: Mint)
    requires mint.hash !in store.issued
    ensures Later(store, Refresh(store, max, now, h, mint).0)
  {
    if Refresh(store, max, now, h, mint).1.Rotated? {
      IssueIsLater(WithRevoked(store, h), max, now, store.issued[h].userId, mint);
    }
  }

  /** Steps that issue nothing. */
  lemma RevokingIsLater(store: Store, max: nat, now: int, step: Step)
    requires !step.LogIn? && !step.Rotate?
    ensures Later(store, Next(store, max, now, step))
  {
  }

  lemma LaterItself(store: Store)
    ensures Later(store, store)
  {
  }

  lemma NextIsLater(store: Store, max: nat, now: int, step: Step)
    ensures Later(store, Next(store, max, now, step))
  {
    hide Later, Issue, Refresh;
    LaterItself(store);
    match step
    case LogIn(u, mint) =>
      if Mintable(store, u, now, mint) && u < |store.users| {
        IssueIsLater(store, max, now, u, mint);
      }
    case Rotate(h, mint) =>
      if h in store.issued && Mintable(WithRevoked(store, h), store.issued[h].userId, now, mint) {
        RefreshIsLater(store, max, now, h, mint);
      }
    case AddUser(_) => RevokingIsLater(store, max, now, step);
    case SetActive(_, _) => RevokingIsLater(store, max, now, step);
    case LogOut(_, _) => RevokingIsLater(store, max, now, step);
    case CleanUp => RevokingIsLater(store, max, now, step);
    case ForceOut(_) => RevokingIsLater(store, max, now, step);
  }

  lemma {:induction false} RunIsLater(store: Store, max: nat, run: seq<Timed>)
    ensures Later(store, Run(store, max, run))
    decreases |run|
  {
    if |run| > 0 {
      NextIsLater(store, max, run[0].now, run[0].step);
      RunIsLater(Next(store, max, run[0].now, run[0].step), max, run[1..]);
    }
  }

  /** Each refresh token rotates successfully at most once, whatever happens in between. */
  lemma RotatesAtMostOnce(store: Store, max: nat, now: int, h: nat, mint: Mint, run: seq<Timed>, later: int, second: Mint)
    requires h in store.issued && mint.hash !in store.issued
    requires Refresh(store, max, now, h, mint).1.Rotated?
    ensures !Refresh(Run(Refresh(store, max, now, h, mint).0, max, run), max, later, h, second).1.Rotated?
  {
    RunIsLater(Refresh(store, max, now, h, mint).0, max, run);
  }

  lemma RefreshIsRotate(store: Store, max: nat, now: int, h: nat, mint: Mint)
    requires h in store.issued && Mintable(WithRevoked(store, h), store.issued[h].userId, now, mint)
    ensures Refresh(store, max, now, h, mint).0 == Next(store, max, now, Rotate(h, mint))
  {
  }

  /** While its signature is good, every further use of a rotated token is recognised as reuse. */
  lemma SecondUseIsReuse(store: Store, max: nat, now: int, h: nat, mint: Mint, run: seq<Timed>, later: int, second: Mint)
    requires Inv(store, now) && h in store.issued
    requires Mintable(WithRevoked(store, h), store.issued[h].userId, now, mint)
    requires Refresh(store, max, now, h, mint).1.Rotated?
    requires Clocked(now, run, later) && store.issued[h].expiresAt > later
    ensures Refresh(Run(Refresh(store, max, now, h, mint).0, max, run), max, later, h, second).1 == Reuse
  {
    var rotated := Refresh(store, max, now, h, mint).0;
    RefreshIsRotate(store, max, now, h, mint);
    NextKeepsRows(store, max, now, Rotate(h, mint));
    NextKeepsAccess(store, max, now, Rotate(h, mint));
    RunKeepsInv(rotated, max, now, run, later);
    RunIsLater(rotated, max, run);
    RowIsThere(Run(rotated, max, run), later, h);
  }

  /** A detected reuse leaves the user no unrevoked token, and none of their access tokens is ever accepted again. */
  lemma ReuseIsFinal(store: Store, max: nat, now: int, h: nat, mint: Mint, run: seq<Timed>)
    requires Inv(store, now) && Refresh(store, max, now, h, mint).1 == Reuse
    ensures h in store.issued
    ensures var after := Refresh(store, max, now, h, mint).0;
      forall k :: k in after.rows && after.rows[k].userId == store.issued[h].userId ==> after.rows[k].revoked
    ensures forall t :: t in store.access && t.userId == store.issued[h].userId ==>
      !Validate(Run(Refresh(store, max, now, h, mint).0, max, run), t)
  {
    RunIsLater(Refresh(store, max, now, h, mint).0, max, run);
  }

  /** The same holds of a logout by the user, and of a forced logout, for the access tokens. */
  lemma LogoutEndsAccess(store: Store, max: nat, now: int, token: Option<nat>, u: nat, run: seq<Timed>)
    requires Inv(store, now) && u < |store.users|
    ensures forall t :: t in store.access && t.userId == u ==> !Validate(Run(Logout(store, token, Some(u)), max, run), t)
    ensures token.Some? ==> forall h, second, later ::
      h == token.value && h in store.issued ==> !Refresh(Run(Logout(store, token, Some(u)), max, run), max, later, h, second).1.Rotated?
  {
    RunIsLater(Logout(store, token, Some(u)), max, run);
  }

  lemma ForcedLogoutEndsAll(store: Store, max: nat, now: int, ids: set<nat>, run: seq<Timed>)
    requires Inv(store, now)
    ensures forall t :: t in store.access && t.userId in ids ==> !Validate(Run(RevokeFamilies(store, ids), max, run), t)
    ensures forall h, second, later :: h in store.issued && store.issued[h].userId in ids ==>
      !Refresh(Run(RevokeFamilies(store, ids), max, run), max, later, h, second).1.Rotated?
  {
    RunIsLater(RevokeFamilies(store, ids), max, run);
  }

  // Frames and positive cases

  /** Ending one user's family leaves every other user's rows and versions alone. */
  lemma FamilyIsOneUser(store: Store, max: nat, now: int, h: nat, mint: Mint)
    requires Inv(store, now) && Refresh(store, max, now, h, mint).1 == Reuse
    ensures var after := Refresh(store, max, now, h, mint).0;
      var u := store.issued[h].userId;
      && (forall k :: k in store.rows && store.rows[k].userId != u ==> k in after.rows && after.rows[k] == store.rows[k])
      && (forall v :: 0 <= v < |store.users| && v != u ==> after.users[v] == store.users[v])
      && after.users[u] == store.users[u].(sessionVersion := store.users[u].sessionVersion + 1)
      && after.rows.Keys == store.rows.Keys
  {
  }

  /** What a login hands out works: the access token is accepted, and an unpruned refresh token rotates. */
  lemma IssuedTokensWork(store: Store, max: nat, now: int, u: nat, mint: Mint, next: Mint)
    requires Inv(store, now) && Login(store, max, now, u, mint).1.Some?
    ensures var (after, token) := Login(store, max, now, u, mint);
      && token.value == AccessToken(u, store.users[u].sessionVersion)
      && Validate(after, token.value)
      && (mint.hash in Active(after.rows, u, now) && mint.signedExpiresAt > now ==>
            Refresh(after, max, now, mint.hash, next).1 == Rotated(token.value, next.hash))
  {
  }

  predicate StaysOff(run: seq<Timed>, u: nat) {
    forall k | 0 <= k < |run| :: run[k].step != SetActive(u, true)
  }

  lemma NextStaysOff(store: Store, max: nat, now: int, step: Step, u: nat)
    requires u < |store.users| && !store.users[u].active && step != SetActive(u, true)
    ensures u < |Next(store, max, now, step).users| && !Next(store, max, now, step).users[u].active
  {
  }

  /** A deactivated user cannot log in, rotate, or use any access token until somebody activates them again. */
  lemma {:induction false} DeactivatedIsLockedOut(store: Store, max: nat, u: nat, run: seq<Timed>)
    requires u < |store.users| && !store.users[u].active && StaysOff(run, u)
    ensures var end := Run(store, max, run);
      && u < |end.users|
      && (forall version :: !Validate(end, AccessToken(u, version)))
      && (forall now, mint :: Login(end, max, now, u, mint).1.None?)
      && (forall h, now, mint :: h in end.issued && end.issued[h].userId == u ==> !Refresh(end, max, now, h, mint).1.Rotated?)
    decreases |run|
  {
    if |run| > 0 {
      NextStaysOff(store, max, run[0].now, run[0].step, u);
      DeactivatedIsLockedOut(Next(store, max, run[0].now, run[0].step), max, u, run[1..]);
    }
  }
}
