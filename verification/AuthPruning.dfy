/** How many active tokens a user can have, and which ones pruning keeps. */
module AuthPruning {
  import opened Wrappers
  import opened AuthTables
  import opened AuthSafety

  ghost predicate Bounded(store: Store, max: nat, now: int) {
    forall u :: |Active(store.rows, u, now)| <= max
  }

  lemma {:induction false} SubsetSize<T>(a: set<T>, b: set<T>)
    requires a <= b
    ensures |a| <= |b|
  {
    if a != {} {
      var x :| x in a;
      SubsetSize(a - {x}, b - {x});
    }
  }

  function Elements(order: seq<nat>): set<nat> {
    set h | h in order
  }

  lemma {:induction false} DistinctSize(order: seq<nat>)
    requires Distinct(order)
    ensures |Elements(order)| == |order|
  {
    if |order| == 0 {
      assert Elements(order) == {};
    } else {
      var n := |order| - 1;
      DistinctSize(order[..n]);
      assert order == order[..n] + [order[n]];
      assert Elements(order) == Elements(order[..n]) + {order[n]};
      assert order[n] !in order[..n];
    }
  }

  lemma PlaceInList(order: seq<nat>, n: nat, k: nat)
    requires Distinct(order) && n <= |order| && k < |order|
    ensures order[k] in order[..n] <==> k < n
    ensures order[k] in order[n..] <==> k >= n
  {
    if k < n {
      assert order[..n][k] == order[k];
    } else {
      assert order[n..][k - n] == order[k];
    }
  }

  /** Active tokens after pruning: the listed ones, up to the limit. */
  lemma PruneKeepsFirst(rows: map<nat, TokenRow>, u: nat, now: int, order: seq<nat>, max: nat)
    requires NewestFirst(rows, u, now, order)
    ensures var kept := order[..if |order| <= max then |order| else max];
      Active(Prune(rows, order, max), u, now) == Elements(kept) && |Active(Prune(rows, order, max), u, now)| == |kept| <= max
  {
    var n := if |order| <= max then |order| else max;
    var kept := order[..n];
    DistinctSize(kept);
    forall h
      ensures h in Active(Prune(rows, order, max), u, now) <==> h in kept
    {
      if h in order {
        var k :| 0 <= k < |order| && order[k] == h;
        PlaceInList(order, n, k);
      }
    }
  }

  /** Pruning keeps the newest: no revoked token is newer than a kept one, and other users keep theirs. */
  lemma PruneKeepsNewest(rows: map<nat, TokenRow>, u: nat, now: int, order: seq<nat>, max: nat)
    requires NewestFirst(rows, u, now, order)
    ensures var after := Prune(rows, order, max);
      && (forall s, p :: s in Active(after, u, now) && p in Active(rows, u, now) && p !in Active(after, u, now) ==>
            rows[s].createdAt >= rows[p].createdAt)
      && (forall v :: v != u ==> Active(after, v, now) == Active(rows, v, now))
      && |Active(after, u, now)| == if |Active(rows, u, now)| <= max then |Active(rows, u, now)| else max
  {
    PruneKeepsFirst(rows, u, now, order, max);
    DistinctSize(order);
    assert Active(rows, u, now) == Elements(order);
    var n := if |order| <= max then |order| else max;
    forall s, p | s in order[..n] && p in order && p !in order[..n]
      ensures rows[s].createdAt >= rows[p].createdAt
    {
      var j :| 0 <= j < n && order[j] == s;
      var k :| 0 <= k < |order| && order[k] == p && !(k < n);
    }
  }

  // The bound in every reachable state

  lemma FewerIsBounded(a: Store, b: Store, max: nat, before: int, now: int)
    requires Bounded(a, max, before) && before <= now
    requires forall u, h :: h in Active(b.rows, u, now) ==> h in Active(a.rows, u, before)
    ensures Bounded(b, max, now)
  {
    forall u
      ensures |Active(b.rows, u, now)| <= max
    {
      SubsetSize(Active(b.rows, u, now), Active(a.rows, u, before));
    }
  }

  lemma OthersUnlisted(store: Store, u: nat, now: int, mint: Mint, v: nat)
    requires mint.hash !in store.rows && v != u
    ensures Active(WithRow(store, u, now, mint).rows, v, now) == Active(store.rows, v, now)
  {
  }

  lemma IssueBounded(store: Store, max: nat, now: int, u: nat, mint: Mint)
    requires Bounded(store, max, now) && u < |store.users| && mint.hash !in store.rows
    requires NewestFirst(WithRow(store, u, now, mint).rows, u, now, mint.order)
    ensures Bounded(Issue(store, max, now, u, mint), max, now)
  {
    var rows := WithRow(store, u, now, mint).rows;
    PruneKeepsFirst(rows, u, now, mint.order, max);
    PruneKeepsNewest(rows, u, now, mint.order, max);
    forall v | v != u
      ensures Active(Issue(store, max, now, u, mint).rows, v, now) == Active(store.rows, v, now)
    {
      OthersUnlisted(store, u, now, mint, v);
    }
  }

  lemma RotateBounded(store: Store, max: nat, now: int, h: nat, mint: Mint)
    requires Inv(store, now) && Bounded(store, max, now) && h in store.issued
    requires Mintable(WithRevoked(store, h), store.issued[h].userId, now, mint)
    ensures Bounded(Refresh(store, max, now, h, mint).0, max, now)
  {
    if Refresh(store, max, now, h, mint).1.Rotated? {
      FewerIsBounded(store, WithRevoked(store, h), max, now, now);
      IssueBounded(WithRevoked(store, h), max, now, store.issued[h].userId, mint);
    } else {
      FewerIsBounded(store, Refresh(store, max, now, h, mint).0, max, now, now);
    }
  }

  lemma NextBounded(store: Store, max: nat, now: int, step: Step)
    requires Inv(store, now) && Bounded(store, max, now)
    ensures Bounded(Next(store, max, now, step), max, now)
  {
    match step
    case LogIn(u, mint) =>
      if Mintable(store, u, now, mint) && u < |store.users| && store.users[u].active {
        IssueBounded(store, max, now, u, mint);
      }
    case Rotate(h, mint) =>
      if h in store.issued && Mintable(WithRevoked(store, h), store.issued[h].userId, now, mint) {
        RotateBounded(store, max, now, h, mint);
      }
    case AddUser(_) => FewerIsBounded(store, Next(store, max, now, step), max, now, now);
    case SetActive(_, _) => FewerIsBounded(store, Next(store, max, now, step), max, now, now);
    case LogOut(_, _) => FewerIsBounded(store, Next(store, max, now, step), max, now, now);
    case CleanUp => FewerIsBounded(store, Next(store, max, now, step), max, now, now);
    case ForceOut(_) => FewerIsBounded(store, Next(store, max, now, step), max, now, now);
  }

  /** In every state a run of serial transactions reaches, no user has more than `max` active tokens. */
  lemma {:induction false} RunBounded(store: Store, max: nat, now: int, run: seq<Timed>, until: int)
    requires Inv(store, now) && Bounded(store, max, now) && Clocked(now, run, until)
    ensures Bounded(Run(store, max, run), max, until)
    decreases |run|
  {
    if |run| == 0 {
      FewerIsBounded(store, store, max, now, until);
    } else {
      var t := run[0].now;
      TimePasses(store, now, t);
      FewerIsBounded(store, store, max, now, t);
      NextBounded(store, max, t, run[0].step);
      NextKeepsRows(store, max, t, run[0].step);
      NextKeepsAccess(store, max, t, run[0].step);
      RunBounded(Next(store, max, t, run[0].step), max, t, run[1..], until);
    }
  }

  // Whether the token just issued survives its own pruning

  /** The user's other active tokens that are at least as new. */
  ghost function Rivals(rows: map<nat, TokenRow>, u: nat, now: int, x: nat): set<nat>
    requires x in rows
  {
    set h | h in Active(rows, u, now) && h != x && rows[h].createdAt >= rows[x].createdAt
  }

  lemma AheadAreRivals(rows: map<nat, TokenRow>, u: nat, now: int, order: seq<nat>, k: nat)
    requires NewestFirst(rows, u, now, order) && k < |order|
    ensures k <= |Rivals(rows, u, now, order[k])|
  {
    var ahead := order[..k];
    DistinctSize(ahead);
    forall h | h in ahead
      ensures h in Rivals(rows, u, now, order[k])
    {
      var j :| 0 <= j < k && order[j] == h;
    }
    SubsetSize(Elements(ahead), Rivals(rows, u, now, order[k]));
  }

  /** The elements of a listing that satisfy a test, in the listing's order. */
  ghost function Pick(order: seq<nat>, p: nat -> bool): (r: seq<nat>)
    ensures forall h :: h in r <==> h in order && p(h)
  {
    if |order| == 0 then []
    else
      var n := |order| - 1;
      assert order == order[..n] + [order[n]];
      Pick(order[..n], p) + if p(order[n]) then [order[n]] else []
  }

  ghost predicate Descending(rows: map<nat, TokenRow>, s: seq<nat>) {
    && Distinct(s)
    && (forall k :: 0 <= k < |s| ==> s[k] in rows)
    && (forall j, k :: 0 <= j < k < |s| ==> rows[s[j]].createdAt >= rows[s[k]].createdAt)
  }

  lemma DescendingConcat(rows: map<nat, TokenRow>, a: seq<nat>, b: seq<nat>)
    requires Descending(rows, a) && Descending(rows, b)
    requires forall g, h :: g in a && h in b ==> g != h && rows[g].createdAt >= rows[h].createdAt
    ensures Descending(rows, a + b)
  {
    forall j, k | 0 <= j < k < |a + b|
      ensures (a + b)[j] != (a + b)[k] && (a + b)[j] in rows && (a + b)[k] in rows
      ensures rows[(a + b)[j]].createdAt >= rows[(a + b)[k]].createdAt
    {
      assert j < |a| ==> (a + b)[j] == a[j] && a[j] in a;
      assert k >= |a| ==> (a + b)[k] == b[k - |a|] && b[k - |a|] in b;
    }
  }

  lemma {:induction false} PickDescends(rows: map<nat, TokenRow>, order: seq<nat>, p: nat -> bool)
    requires Descending(rows, order)
    ensures Descending(rows, Pick(order, p))
  {
    if |order| > 0 {
      var n := |order| - 1;
      PickDescends(rows, order[..n], p);
      var last := if p(order[n]) then [order[n]] else [];
      forall g, h | g in Pick(order[..n], p) && h in last
        ensures g != h && rows[g].createdAt >= rows[h].createdAt
      {
        var k :| 0 <= k < n && order[k] == g;
      }
      DescendingConcat(rows, Pick(order[..n], p), last);
    }
  }

  /** The same tokens, with `x` listed after all its rivals. */
  ghost function RivalsFirst(rows: map<nat, TokenRow>, u: nat, now: int, order: seq<nat>, x: nat): seq<nat>
    requires x in rows
  {
    var rivals := Rivals(rows, u, now, x);
    Pick(order, h => h in rivals) + [x] + Pick(order, h => h != x && h !in rivals)
  }

  lemma RivalsFirstIsNewestFirst(rows: map<nat, TokenRow>, u: nat, now: int, order: seq<nat>, x: nat)
    requires NewestFirst(rows, u, now, order) && x in Active(rows, u, now)
    ensures NewestFirst(rows, u, now, RivalsFirst(rows, u, now, order, x))
    ensures |Rivals(rows, u, now, x)| < |RivalsFirst(rows, u, now, order, x)|
    ensures RivalsFirst(rows, u, now, order, x)[|Rivals(rows, u, now, x)|] == x
  {
    var rivals := Rivals(rows, u, now, x);
    var front := Pick(order, h => h in rivals);
    var back := Pick(order, h => h != x && h !in rivals);
    PickDescends(rows, order, h => h in rivals);
    PickDescends(rows, order, h => h != x && h !in rivals);
    DescendingConcat(rows, front, [x]);
    DescendingConcat(rows, front + [x], back);
    DistinctSize(front);
    assert Elements(front) == rivals;
    var listing := RivalsFirst(rows, u, now, order, x);
    assert forall h :: h in listing <==> h in order;
    assert forall k :: 0 <= k < |listing| ==> listing[k] in listing;
  }

  /**
   * However the database breaks ties, the token just issued survives its own pruning exactly when
   * fewer than `max` other active tokens of the user are at least as new.
   */
  lemma JustIssuedSurvives(rows: map<nat, TokenRow>, u: nat, now: int, order: seq<nat>, max: nat, x: nat)
    requires NewestFirst(rows, u, now, order) && x in Active(rows, u, now)
    ensures (forall p :: NewestFirst(rows, u, now, p) ==> x in Active(Prune(rows, p, max), u, now)) <==>
            |Rivals(rows, u, now, x)| < max
  {
    if |Rivals(rows, u, now, x)| < max {
      forall p | NewestFirst(rows, u, now, p)
        ensures x in Active(Prune(rows, p, max), u, now)
      {
        var k :| 0 <= k < |p| && p[k] == x;
        AheadAreRivals(rows, u, now, p, k);
        PruneKeepsFirst(rows, u, now, p, max);
        assert p[..if |p| <= max then |p| else max][k] == x;
      }
    } else {
      var p := RivalsFirst(rows, u, now, order, x);
      RivalsFirstIsNewestFirst(rows, u, now, order, x);
      PruneKeepsFirst(rows, u, now, p, max);
      assert x !in p[..max];
    }
  }

  /** Two logins in one instant with room for one token: the database may list the old one first. */
  lemma TieMayRevokeJustIssued()
    ensures var store := Store([User(true, 0)], map[], map[], {});
      var first := Mint(1, 10, 10, [1]);
      var second := Mint(2, 10, 10, [1, 2]);
      && Mintable(store, 0, 0, first)
      && Mintable(Login(store, 1, 0, 0, first).0, 0, 0, second)
      && 2 !in Active(Login(Login(store, 1, 0, 0, first).0, 1, 0, 0, second).0.rows, 0, 0)
  {
    var store := Store([User(true, 0)], map[], map[], {});
    var first := Mint(1, 10, 10, [1]);
    var second := Mint(2, 10, 10, [1, 2]);
    var one := Login(store, 1, 0, 0, first).0;
    assert one.rows == map[1 := TokenRow(0, 0, 10, false)];
    assert [1, 2][1..] == [2];
    assert 2 in second.order[1..];
  }
}
