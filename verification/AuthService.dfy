/** The session service: its tables as fields, its transactions as methods that keep the invariant of every run. */
module AuthService {
  import opened Wrappers
  import opened AuthTables
  import opened AuthSafety
  import opened AuthPruning
  import opened AuthCleanup
  import opened AuthAnswers

  /** Rows agree with what was signed, versions with what was handed out, and nobody has too many active tokens. */
  ghost predicate Sound(store: Store, max: nat, now: int) {
    Inv(store, now) && Bounded(store, max, now)
  }

  lemma SoundInTime(store: Store, max: nat, before: int, now: int)
    requires Sound(store, max, before) && before <= now
    ensures Sound(store, max, now)
  {
    TimePasses(store, before, now);
    FewerIsBounded(store, store, max, before, now);
  }

  lemma StepKeepsSound(store: Store, max: nat, now: int, step: Step)
    requires Sound(store, max, now)
    ensures Sound(Next(store, max, now, step), max, now)
  {
    hide Next, RowsSound, AccessSound, Bounded;
    assert Inv(store, now);
    NextBounded(store, max, now, step);
    NextKeepsRows(store, max, now, step);
    NextKeepsAccess(store, max, now, step);
  }

  lemma IssueKeepsSound(store: Store, max: nat, now: int, u: nat, mint: Mint)
    requires Sound(store, max, now) && u < |store.users| && Mintable(store, u, now, mint)
    ensures Sound(Issue(store, max, now, u, mint), max, now)
  {
    IssueKeepsRows(store, max, now, u, mint);
    IssueBounded(store, max, now, u, mint);
    hide RowsSound, Bounded, Mintable;
  }

  lemma RevokingKeepsSound(store: Store, max: nat, now: int, h: nat)
    requires Sound(store, max, now)
    ensures Sound(WithRevoked(store, h), max, now)
  {
    StepKeepsSound(store, max, now, LogOut(Some(h), None));
  }

  /** The users' families are over: no unrevoked token is left, and no access token handed out is accepted. */
  ghost predicate Ended(store: Store, ids: set<nat>) {
    && (forall k :: k in store.rows && store.rows[k].userId in ids ==> store.rows[k].revoked)
    && (forall t :: t in store.access && t.userId in ids ==> !Validate(store, t))
  }

  /** Users outside the set keep their rows and versions. */
  ghost predicate OthersKept(before: Store, after: Store, ids: set<nat>) {
    && (forall k :: k in before.rows && before.rows[k].userId !in ids ==> k in after.rows && after.rows[k] == before.rows[k])
    && |after.users| == |before.users|
    && (forall v :: 0 <= v < |before.users| && v !in ids ==> after.users[v] == before.users[v])
  }

  lemma FamiliesEnd(store: Store, max: nat, now: int, ids: set<nat>)
    requires Sound(store, max, now)
    ensures Sound(RevokeFamilies(store, ids), max, now)
    ensures Ended(RevokeFamilies(store, ids), ids) && OthersKept(store, RevokeFamilies(store, ids), ids)
  {
    FamiliesStaySound(store, max, now, ids);
    TokensRevoked(store, ids);
    VersionsMoveOn(store, ids);
    hide Sound, RevokeFamilies, OthersKept, Validate;
  }

  lemma FamiliesStaySound(store: Store, max: nat, now: int, ids: set<nat>)
    requires Sound(store, max, now)
    ensures Sound(RevokeFamilies(store, ids), max, now) && AccessSound(store)
  {
    hide RowsSound, AccessSound, Bounded, RevokeFamilies, Mintable, Refresh, Issue;
    StepKeepsSound(store, max, now, ForceOut(ids));
  }

  lemma TokensRevoked(store: Store, ids: set<nat>)
    ensures forall k :: k in RevokeFamilies(store, ids).rows && RevokeFamilies(store, ids).rows[k].userId in ids ==>
      RevokeFamilies(store, ids).rows[k].revoked
    ensures OthersKept(store, RevokeFamilies(store, ids), ids)
  {
  }

  lemma VersionsMoveOn(store: Store, ids: set<nat>)
    requires AccessSound(store)
    ensures RevokeFamilies(store, ids).access == store.access
    ensures forall t :: t in store.access && t.userId in ids ==> !Validate(RevokeFamilies(store, ids), t)
  {
  }

  /** Moving versions on one user at a time is moving them on together. */
  lemma BumpedOneMore(users: seq<User>, ids: set<nat>, u: nat)
    requires u !in ids
    ensures Bumped(Bumped(users, ids), {u}) == Bumped(users, ids + {u})
  {
  }

  lemma IssuedIsAccepted(store: Store, max: nat, now: int, u: nat, mint: Mint)
    requires u < |store.users| && store.users[u].active
    ensures Validate(Issue(store, max, now, u, mint), AccessToken(u, store.users[u].sessionVersion))
  {
  }

  lemma SoundRotationMeans(store: Store, max: nat, now: int, h: nat, mint: Mint)
    requires Sound(store, max, now)
    ensures var (after, r) := Refresh(store, max, now, h, mint);
      && (r.Rotated? <==> Good(store, now, h) && Unrevoked(store, h) && OwnerActive(store, h))
      && (r == Reuse <==> Good(store, now, h) && !Unrevoked(store, h))
      && (r.Rotated? ==>
            var u := store.issued[h].userId;
            && r == Rotated(AccessToken(u, store.users[u].sessionVersion), mint.hash)
            && HandsOut(store, after, max, now, u, mint, {h}))
  {
    hide Inv, Bounded, Refresh, HandsOut;
    RotationMeans(store, max, now, h, mint);
  }

  lemma LogoutKeepsSound(store: Store, max: nat, now: int, presented: Option<nat>, caller: Option<nat>)
    requires Sound(store, max, now)
    ensures var after := Logout(store, presented, caller);
      && Sound(after, max, now) && after.access == store.access
      && (presented.Some? && presented.value in after.rows ==> after.rows[presented.value].revoked)
      && (caller.Some? ==> forall t :: t in store.access && t.userId == caller.value ==> !Validate(after, t))
  {
    hide RowsSound, Bounded;
    StepKeepsSound(store, max, now, AuthSafety.LogOut(presented, caller));
    LogoutRefuses(store, presented, caller);
  }

  lemma LogoutRefuses(store: Store, presented: Option<nat>, caller: Option<nat>)
    requires AccessSound(store)
    ensures var after := Logout(store, presented, caller);
      && after.access == store.access
      && (presented.Some? && presented.value in after.rows ==> after.rows[presented.value].revoked)
      && (caller.Some? ==> forall t :: t in store.access && t.userId == caller.value ==> !Validate(after, t))
  {
  }

  class Sessions {
    var users: seq<User>
    var rows: map<nat, TokenRow>
    var issued: map<nat, Signed>
    var access: set<AccessToken>
    const max: nat
    /** The instant of the latest transaction; the clock never goes back. */
    ghost var last: int

    ghost function State(): Store
      reads this
    {
      Store(users, rows, issued, access)
    }

    ghost predicate Valid()
      reads this
    {
      Sound(State(), max, last)
    }

    constructor (users: seq<User>, max: nat, ghost now: int)
      ensures Valid() && State() == Store(users, map[], map[], {}) && this.max == max && last == now
    {
      this.users, rows, issued, access := users, map[], map[], {};
      this.max := max;
      last := now;
      new;
      assert forall u :: Active(rows, u, now) == {};
    }

    method CompleteLogin(now: int, u: nat, mint: Mint) returns (r: Option<AccessToken>)
      requires Valid() && last <= now
      requires u < |users| && users[u].active ==> Mintable(State(), u, now, mint)
      modifies this
      ensures Valid() && last == now
      ensures (State(), r) == Login(old(State()), max, now, u, mint)
      ensures r.Some? <==> u < |old(users)| && old(users)[u].active
      ensures r.Some? ==> r.value == AccessToken(u, old(users)[u].sessionVersion) && Validate(State(), r.value) &&
                          HandsOut(old(State()), State(), max, now, u, mint, {})
      ensures r.None? ==> State() == old(State())
    {
      LoginMeans(State(), max, now, u, mint);
      hide Sound, Mintable, Issue, HandsOut;
      SoundInTime(State(), max, last, now);
      last := now;
      if u >= |users| || !users[u].active {
        return None;
      }
      IssuedIsAccepted(State(), max, now, u, mint);
      var token := IssueTokens(now, u, mint);
      return Some(token);
    }

    method IssueTokens(now: int, u: nat, mint: Mint) returns (token: AccessToken)
      requires Valid() && last == now
      requires u < |users| && Mintable(State(), u, now, mint)
      modifies this
      ensures Valid() && last == now
      ensures State() == Issue(old(State()), max, now, u, mint)
      ensures token == AccessToken(u, old(users)[u].sessionVersion) && token in access
      ensures forall v :: |Active(rows, v, now)| <= max
    {
      IssueKeepsSound(State(), max, now, u, mint);
      hide Inv, NewestFirst, Active, Prune;
      token := AccessToken(u, users[u].sessionVersion);
      access := access + {token};
      issued := issued[mint.hash := Signed(u, mint.signedExpiresAt)];
      rows := rows[mint.hash := TokenRow(u, now, mint.rowExpiresAt, false)];
      PruneActiveRefreshTokens(now, u, mint.order);
    }

    /** `order` is the database's listing of the user's active tokens, newest first. */
    method PruneActiveRefreshTokens(now: int, u: nat, order: seq<nat>)
      requires NewestFirst(rows, u, now, order)
      modifies this`rows
      ensures rows == Prune(old(rows), order, max)
      ensures Active(rows, u, now) <= Active(old(rows), u, now)
      ensures |Active(rows, u, now)| == if |Active(old(rows), u, now)| <= max then |Active(old(rows), u, now)| else max
      ensures forall s, p :: s in Active(rows, u, now) && p in Active(old(rows), u, now) && p !in Active(rows, u, now) ==>
        old(rows)[s].createdAt >= old(rows)[p].createdAt
      ensures forall v :: v != u ==> Active(rows, v, now) == Active(old(rows), v, now)
    {
      PruneKeepsNewest(rows, u, now, order, max);
      if |order| <= max {
        return;
      }
      var excess := order[max..];
      rows := Revoke(rows, set h | h in excess);
    }

    method RevokeTokenFamily(u: nat)
      requires Valid()
      modifies this`rows, this`users
      ensures Valid()
      ensures State() == RevokeFamilies(old(State()), {u})
      ensures Ended(State(), {u}) && OthersKept(old(State()), State(), {u})
    {
      FamiliesEnd(State(), max, last, {u});
      hide Sound, Ended, OthersKept;
      rows := Revoke(rows, TokensOf(rows, {u}));
      users := Bumped(users, {u});
    }

    /** One presented token: at most one rotation, and every sign of reuse ends the whole family. */
    method RotateRefreshToken(now: int, h: nat, mint: Mint) returns (r: Rotation)
      requires Valid() && last <= now
      requires h in issued && Refresh(State(), max, now, h, mint).1.Rotated? ==>
        Mintable(WithRevoked(State(), h), issued[h].userId, now, mint)
      modifies this
      ensures Valid() && last == now
      ensures (State(), r) == Refresh(old(State()), max, now, h, mint)
      ensures r.Rotated? <==> Good(old(State()), now, h) && Unrevoked(old(State()), h) && OwnerActive(old(State()), h)
      ensures r == Reuse <==> Good(old(State()), now, h) && !Unrevoked(old(State()), h)
      ensures r.Rotated? ==>
        var u := old(issued)[h].userId;
        && r == Rotated(AccessToken(u, old(users)[u].sessionVersion), mint.hash)
        && HandsOut(old(State()), State(), max, now, u, mint, {h})
      ensures r == Invalid ==> State() == old(State())
      ensures r == Reuse ==> h in issued && Ended(State(), {issued[h].userId}) && OthersKept(old(State()), State(), {issued[h].userId})
      ensures r.Rotated? ==> Validate(State(), r.access) && (h in rows ==> rows[h].revoked || h == mint.hash)
    {
      hide Sound, Mintable, Issue, Ended, OthersKept, RevokeFamilies, HandsOut;
      SoundInTime(State(), max, last, now);
      SoundRotationMeans(State(), max, now, h, mint);
      last := now;
      if h !in issued || issued[h].expiresAt <= now || issued[h].userId >= |users| {
        return Invalid;
      }
      var u := issued[h].userId;
      if h !in rows || rows[h].userId != u {
        if !Evidence(rows, u, now) {
          return Invalid;
        }
        FamiliesKeepIssued(State(), {u});
        RevokeTokenFamily(u);
        return Reuse;
      }
      if rows[h].revoked {
        FamiliesKeepIssued(State(), {u});
        RevokeTokenFamily(u);
        return Reuse;
      }
      if rows[h].expiresAt <= now || !users[u].active {
        return Invalid;
      }
      RevokingKeepsSound(State(), max, now, h);
      IssuedIsAccepted(WithRevoked(State(), h), max, now, u, mint);
      RotatedIsRevoked(State(), max, now, h, u, mint);
      rows := Revoke(rows, {h});
      var token := IssueTokens(now, u, mint);
      return Rotated(token, mint.hash);
    }

    method LogOut(presented: Option<nat>, caller: Option<nat>)
      requires Valid()
      modifies this`rows, this`users
      ensures Valid()
      ensures State() == Logout(old(State()), presented, caller)
      ensures presented.Some? && presented.value in rows ==> rows[presented.value].revoked
      ensures caller.Some? ==> forall t :: t in access && t.userId == caller.value ==> !Validate(State(), t)
      ensures presented.None? && caller.Some? ==> Ended(State(), {caller.value})
    {
      hide Sound, Validate, Ended, OthersKept, RevokeFamilies, AuthSafety.Next;
      LogoutKeepsSound(State(), max, last, presented, caller);
      if presented.Some? {
        rows := Revoke(rows, {presented.value});
        if caller.Some? {
          users := Bumped(users, {caller.value});
        }
      } else if caller.Some? {
        RevokeTokenFamily(caller.value);
      }
    }

    method CleanupRefreshTokens(now: int)
      requires Valid() && last <= now
      modifies this`rows, this`last
      ensures Valid() && last == now
      ensures State() == Cleanup(old(State()), now)
      ensures forall h :: h in rows <==> h in old(rows) && old(rows)[h].expiresAt > now
      ensures forall h :: h in rows ==> rows[h] == old(rows)[h]
      ensures Alike(State(), old(State()), now)
      ensures forall h, mint :: Refresh(State(), max, now, h, mint).1 == Refresh(old(State()), max, now, h, mint).1
    {
      ghost var before := State();
      SoundInTime(before, max, last, now);
      StepKeepsSound(before, max, now, CleanUp);
      CleanupAlike(before, now);
      last := now;
      rows := map h | h in rows && rows[h].expiresAt > now :: rows[h];
      assert State() == Cleanup(before, now);
      assert Inv(State(), now) && Inv(before, now);
      hide Sound, Refresh, Alike, Cleanup, Inv;
      forall h, mint
        ensures Refresh(State(), max, now, h, mint).1 == Refresh(before, max, now, h, mint).1
      {
        RefreshAlike(State(), before, max, now, h, mint);
      }
    }

    /** Closing the till ends every waiter's and rider's session. */
    method InvalidateAllWaiterSessions(waiters: seq<nat>)
      requires Valid()
      requires forall j, k :: 0 <= j < k < |waiters| ==> waiters[j] != waiters[k]
      modifies this`rows, this`users
      ensures Valid()
      ensures State() == RevokeFamilies(old(State()), Elements(waiters))
      ensures Ended(State(), Elements(waiters)) && OthersKept(old(State()), State(), Elements(waiters))
    {
      FamiliesEnd(State(), max, last, Elements(waiters));
      hide Sound, Ended, OthersKept, Bumped, Revoke, TokensOf;
      if |waiters| == 0 {
        NobodyEnds(State());
        assert Elements(waiters) == {};
        return;
      }
      rows := Revoke(rows, TokensOf(rows, Elements(waiters)));
      NobodyBumped(users);
      assert Elements(waiters[..0]) == {};
      for n := 0 to |waiters|
        invariant rows == Revoke(old(rows), TokensOf(old(rows), Elements(waiters)))
        invariant users == Bumped(old(users), Elements(waiters[..n]))
        invariant issued == old(issued) && access == old(access) && last == old(last)
      {
        assert waiters[..n + 1] == waiters[..n] + [waiters[n]];
        assert Elements(waiters[..n + 1]) == Elements(waiters[..n]) + {waiters[n]};
        BumpedOneMore(old(users), Elements(waiters[..n]), waiters[n]);
        users := Bumped(users, {waiters[n]});
      }
      assert waiters[..|waiters|] == waiters;
    }
  }

  lemma NobodyBumped(users: seq<User>)
    ensures Bumped(users, {}) == users
  {
  }

  lemma NobodyEnds(store: Store)
    ensures RevokeFamilies(store, {}) == store
  {
    assert Revoke(store.rows, {}) == store.rows;
    assert Bumped(store.users, {}) == store.users;
    assert TokensOf(store.rows, {}) == {};
  }

  lemma FamiliesKeepIssued(store: Store, ids: set<nat>)
    ensures RevokeFamilies(store, ids).issued == store.issued
  {
  }

  lemma RotatedIsRevoked(store: Store, max: nat, now: int, h: nat, u: nat, mint: Mint)
    requires h in store.rows && u < |store.users|
    ensures var after := Issue(WithRevoked(store, h), max, now, u, mint);
      h in after.rows && (after.rows[h].revoked || h == mint.hash)
  {
  }
}
