/** Deleting expired rows is invisible: runs that differ only in their cleanups answer every refresh alike. */
module AuthCleanup {
  import opened Wrappers
  import opened AuthTables
  import opened AuthSafety

  /** The rows that are still unexpired. */
  ghost function Kept(rows: map<nat, TokenRow>, now: int): map<nat, TokenRow> {
    map h | h in rows && rows[h].expiresAt > now :: rows[h]
  }

  /** The two stores differ only in expired rows. */
  ghost predicate Alike(a: Store, b: Store, now: int) {
    a.users == b.users && a.issued == b.issued && a.access == b.access && Kept(a.rows, now) == Kept(b.rows, now)
  }

  lemma AlikeRow(a: Store, b: Store, now: int, h: nat)
    requires Alike(a, b, now)
    ensures h in a.rows && a.rows[h].expiresAt > now <==> h in b.rows && b.rows[h].expiresAt > now
    ensures h in a.rows && a.rows[h].expiresAt > now ==> a.rows[h] == b.rows[h]
  {
    assert h in Kept(a.rows, now) <==> h in Kept(b.rows, now);
    assert h in Kept(a.rows, now) ==> Kept(a.rows, now)[h] == Kept(b.rows, now)[h];
  }

  lemma RowsAlike(a: Store, b: Store, now: int)
    requires a.users == b.users && a.issued == b.issued && a.access == b.access
    requires forall h :: h in a.rows && a.rows[h].expiresAt > now <==> h in b.rows && b.rows[h].expiresAt > now
    requires forall h :: h in a.rows && a.rows[h].expiresAt > now ==> a.rows[h] == b.rows[h]
    ensures Alike(a, b, now)
  {
  }

  lemma AlikeRows(a: Store, b: Store, now: int)
    requires Alike(a, b, now)
    ensures forall h :: h in a.rows && a.rows[h].expiresAt > now <==> h in b.rows && b.rows[h].expiresAt > now
    ensures forall h :: h in a.rows && a.rows[h].expiresAt > now ==> a.rows[h] == b.rows[h]
  {
    forall h
      ensures h in a.rows && a.rows[h].expiresAt > now <==> h in b.rows && b.rows[h].expiresAt > now
      ensures h in a.rows && a.rows[h].expiresAt > now ==> a.rows[h] == b.rows[h]
    {
      AlikeRow(a, b, now, h);
    }
  }

  lemma AlikeLater(a: Store, b: Store, before: int, now: int)
    requires Alike(a, b, before) && before <= now
    ensures Alike(a, b, now)
  {
    AlikeRows(a, b, before);
    RowsAlike(a, b, now);
  }

  lemma RevokeAlike(a: Store, b: Store, now: int, hashes: set<nat>, others: set<nat>)
    requires Alike(a, b, now)
    requires forall h :: h in Kept(a.rows, now) ==> (h in hashes <==> h in others)
    ensures Alike(a.(rows := Revoke(a.rows, hashes)), b.(rows := Revoke(b.rows, others)), now)
  {
    AlikeRows(a, b, now);
    RowsAlike(a.(rows := Revoke(a.rows, hashes)), b.(rows := Revoke(b.rows, others)), now);
  }

  lemma FamiliesAlike(a: Store, b: Store, now: int, ids: set<nat>)
    requires Alike(a, b, now)
    ensures Alike(RevokeFamilies(a, ids), RevokeFamilies(b, ids), now)
  {
    AlikeRows(a, b, now);
    RevokeAlike(a, b, now, TokensOf(a.rows, ids), TokensOf(b.rows, ids));
  }

  lemma CleanupAlike(store: Store, now: int)
    ensures Alike(Cleanup(store, now), store, now)
  {
  }

  lemma WithRowAlike(a: Store, b: Store, now: int, u: nat, mint: Mint)
    requires Alike(a, b, now)
    ensures Alike(WithRow(a, u, now, mint), WithRow(b, u, now, mint), now)
  {
    AlikeRows(a, b, now);
    RowsAlike(WithRow(a, u, now, mint), WithRow(b, u, now, mint), now);
  }

  lemma ActiveAlike(a: Store, b: Store, now: int, u: nat)
    requires Alike(a, b, now)
    ensures Active(a.rows, u, now) == Active(b.rows, u, now)
  {
    AlikeRows(a, b, now);
  }

  lemma MintableAlike(a: Store, b: Store, now: int, u: nat, mint: Mint)
    requires Alike(a, b, now) && Mintable(a, u, now, mint)
    ensures Mintable(b, u, now, mint)
  {
    var x, y := WithRow(a, u, now, mint), WithRow(b, u, now, mint);
    WithRowAlike(a, b, now, u, mint);
    ActiveAlike(x, y, now, u);
    AlikeRows(x, y, now);
  }

  lemma AlikeSymmetric(a: Store, b: Store, now: int)
    requires Alike(a, b, now)
    ensures Alike(b, a, now)
  {
  }

  lemma IssueAlike(a: Store, b: Store, max: nat, now: int, u: nat, mint: Mint)
    requires Alike(a, b, now) && u < |a.users|
    ensures Alike(Issue(a, max, now, u, mint), Issue(b, max, now, u, mint), now)
  {
    var x, y := WithRow(a, u, now, mint), WithRow(b, u, now, mint);
    WithRowAlike(a, b, now, u, mint);
    if |mint.order| > max {
      var cut := set h | h in mint.order[max..];
      RevokeAlike(x, y, now, cut, cut);
    }
  }

  /** While its row is due, a refresh sees the same row in both stores. */
  lemma RefreshAlike(a: Store, b: Store, max: nat, now: int, h: nat, mint: Mint)
    requires Alike(a, b, now) && Inv(a, now) && Inv(b, now)
    ensures Refresh(a, max, now, h, mint).1 == Refresh(b, max, now, h, mint).1
    ensures Alike(Refresh(a, max, now, h, mint).0, Refresh(b, max, now, h, mint).0, now)
  {
    if h in a.issued && a.issued[h].expiresAt > now {
      RowIsThere(a, now, h);
      AlikeRow(a, b, now, h);
      var u := a.issued[h].userId;
      if a.rows[h].revoked {
        FamiliesAlike(a, b, now, {u});
      } else if a.users[u].active {
        RevokeAlike(a, b, now, {h}, {h});
        IssueAlike(WithRevoked(a, h), WithRevoked(b, h), max, now, u, mint);
      }
    }
  }

  lemma LogoutAlike(a: Store, b: Store, now: int, presented: Option<nat>, caller: Option<nat>)
    requires Alike(a, b, now)
    ensures Alike(Logout(a, presented, caller), Logout(b, presented, caller), now)
  {
    if presented.Some? {
      RevokeAlike(a, b, now, {presented.value}, {presented.value});
    } else if caller.Some? {
      FamiliesAlike(a, b, now, {caller.value});
    }
  }

  lemma NextAlike(a: Store, b: Store, max: nat, now: int, step: Step)
    requires Alike(a, b, now) && Inv(a, now) && Inv(b, now)
    ensures Alike(Next(a, max, now, step), Next(b, max, now, step), now)
  {
    AlikeSymmetric(a, b, now);
    match step
    case AddUser(_) =>
    case SetActive(_, _) =>
    case LogIn(u, mint) => LogInAlike(a, b, max, now, u, mint);
    case Rotate(h, mint) => RotateAlike(a, b, max, now, h, mint);
    case LogOut(presented, caller) => LogoutAlike(a, b, now, presented, caller);
    case CleanUp =>
      CleanupAlike(a, now);
      CleanupAlike(b, now);
    case ForceOut(ids) => FamiliesAlike(a, b, now, ids);
  }

  lemma LogInAlike(a: Store, b: Store, max: nat, now: int, u: nat, mint: Mint)
    requires Alike(a, b, now) && Alike(b, a, now)
    ensures Alike(Next(a, max, now, LogIn(u, mint)), Next(b, max, now, LogIn(u, mint)), now)
  {
    if Mintable(a, u, now, mint) {
      MintableAlike(a, b, now, u, mint);
      if u < |a.users| && a.users[u].active {
        IssueAlike(a, b, max, now, u, mint);
      }
    } else if Mintable(b, u, now, mint) {
      MintableAlike(b, a, now, u, mint);
    }
  }

  lemma RotateAlike(a: Store, b: Store, max: nat, now: int, h: nat, mint: Mint)
    requires Alike(a, b, now) && Inv(a, now) && Inv(b, now)
    ensures Alike(Next(a, max, now, Rotate(h, mint)), Next(b, max, now, Rotate(h, mint)), now)
  {
    if h in a.issued {
      RevokeAlike(a, b, now, {h}, {h});
      AlikeSymmetric(WithRevoked(a, h), WithRevoked(b, h), now);
      var u := a.issued[h].userId;
      if Mintable(WithRevoked(a, h), u, now, mint) {
        MintableAlike(WithRevoked(a, h), WithRevoked(b, h), now, u, mint);
        RefreshAlike(a, b, max, now, h, mint);
      } else if Mintable(WithRevoked(b, h), u, now, mint) {
        MintableAlike(WithRevoked(b, h), WithRevoked(a, h), now, u, mint);
      }
    }
  }

  /** The run without its cleanups. */
  ghost function Uncleaned(run: seq<Timed>): seq<Timed> {
    if |run| == 0 then []
    else if run[0].step.CleanUp? then Uncleaned(run[1..])
    else [run[0]] + Uncleaned(run[1..])
  }

  lemma {:induction false} RunAlike(a: Store, b: Store, max: nat, now: int, run: seq<Timed>, until: int)
    requires Alike(a, b, now) && Inv(a, now) && Inv(b, now) && Clocked(now, run, until)
    ensures Alike(Run(a, max, run), Run(b, max, Uncleaned(run)), until)
    decreases |run|
  {
    if |run| == 0 {
      AlikeLater(a, b, now, until);
    } else {
      var At(t, step) := run[0];
      AlikeLater(a, b, now, t);
      TimePasses(a, now, t);
      TimePasses(b, now, t);
      var next := Next(a, max, t, step);
      NextKeepsRows(a, max, t, step);
      NextKeepsAccess(a, max, t, step);
      if step.CleanUp? {
        CleanupAlike(a, t);
        RunAlike(next, b, max, t, run[1..], until);
      } else {
        NextAlike(a, b, max, t, step);
        NextKeepsRows(b, max, t, step);
        NextKeepsAccess(b, max, t, step);
        assert Uncleaned(run)[1..] == Uncleaned(run[1..]);
        RunAlike(next, Next(b, max, t, step), max, t, run[1..], until);
      }
    }
  }

  /**
   * Two runs that differ only in when expired rows are deleted give every later refresh the same
   * result and every access token the same verdict.
   */
  lemma CleanupIsInvisible(store: Store, max: nat, now: int, run: seq<Timed>, other: seq<Timed>, later: int, h: nat, mint: Mint)
    requires Inv(store, now) && Clocked(now, run, later) && Clocked(now, other, later)
    requires Uncleaned(run) == Uncleaned(other)
    ensures Refresh(Run(store, max, run), max, later, h, mint).1 == Refresh(Run(store, max, other), max, later, h, mint).1
    ensures forall t :: Validate(Run(store, max, run), t) == Validate(Run(store, max, other), t)
  {
    var a, b := Run(store, max, run), Run(store, max, other);
    var c := Run(store, max, Uncleaned(run));
    RunAlike(store, store, max, now, run, later);
    RunAlike(store, store, max, now, other, later);
    RunKeepsInv(store, max, now, run, later);
    RunKeepsInv(store, max, now, other, later);
    assert Alike(a, b, later);
    RefreshAlike(a, b, max, later, h, mint);
  }
}
