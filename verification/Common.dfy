/** Small types and counting facts shared by the models. */
module Common {

  datatype Option<+T> = None | Some(value: T)

  type UserId = string

  type TrackId = string

  function Min(a: int, b: int): int {
    if a < b then a else b
  }

  lemma AddKey<K, V>(m: map<K, V>, k: K, v: V)
    ensures m[k := v].Keys == m.Keys + {k}
    ensures |m[k := v]| == |m| + if k in m then 0 else 1
  {
    assert |m[k := v]| == |m[k := v].Keys|;
    assert m[k := v].Keys == m.Keys + {k};
    if k in m {
      assert m.Keys + {k} == m.Keys;
    }
  }

  /** The members of `s` that belong to user `u`. */
  function Fiber<A>(s: set<A>, owner: map<A, UserId>, u: UserId): set<A> {
    set x | x in s && x in owner && owner[x] == u
  }

  predicate OwnedWithin<A>(s: set<A>, owner: map<A, UserId>, users: set<UserId>) {
    forall x | x in s :: x in owner && owner[x] in users
  }

  /** Splits off the members of one user. */
  lemma SplitFiber<A>(s: set<A>, owner: map<A, UserId>, users: set<UserId>, u: UserId)
    requires OwnedWithin(s, owner, users) && u in users
    ensures var rest := s - Fiber(s, owner, u);
            && OwnedWithin(rest, owner, users - {u})
            && |s| == |Fiber(s, owner, u)| + |rest|
            && forall v | v in users - {u} :: Fiber(rest, owner, v) == Fiber(s, owner, v)
  {
    var fiber := Fiber(s, owner, u);
    assert s == fiber + (s - fiber);
  }

  /** With at most `k` members a user, there are at most `k` times as many members as users. */
  lemma {:induction false} FibersAtMost<A>(s: set<A>, owner: map<A, UserId>, users: set<UserId>, k: nat)
    requires OwnedWithin(s, owner, users)
    requires forall u | u in users :: |Fiber(s, owner, u)| <= k
    ensures |s| <= k * |users|
    decreases users
  {
    if users == {} {
      assert s == {};
    } else {
      var u :| u in users;
      SplitFiber(s, owner, users, u);
      var others := users - {u};
      FibersAtMost(s - Fiber(s, owner, u), owner, others, k);
      assert |users| == |others| + 1;
      Distribute(k, |others|);
    }
  }

  lemma MulStrict(k: int, a: int, b: int)
    requires 0 < k && a < b
    ensures k * a < k * b
  {
    assert 0 < k * (b - a) == k * b - k * a;
  }

  lemma Distribute(k: int, n: int)
    ensures k * (n + 1) == k * n + k
  {
  }

  /** With exactly `k` members a user, there are `k` times as many members as users. */
  lemma {:induction false} FibersExactly<A>(s: set<A>, owner: map<A, UserId>, users: set<UserId>, k: nat)
    requires OwnedWithin(s, owner, users)
    requires forall u | u in users :: |Fiber(s, owner, u)| == k
    ensures |s| == k * |users|
    decreases users
  {
    if users == {} {
      assert s == {};
    } else {
      var u :| u in users;
      SplitFiber(s, owner, users, u);
      var others := users - {u};
      FibersExactly(s - Fiber(s, owner, u), owner, others, k);
      assert |users| == |others| + 1;
      Distribute(k, |others|);
    }
  }

  /** The users with an odd number of members. */
  function OddFibers<A>(s: set<A>, owner: map<A, UserId>, users: set<UserId>): set<UserId> {
    set u | u in users && |Fiber(s, owner, u)| % 2 == 1
  }

  /** There are as many members as users with an odd number of them, up to an even number. */
  lemma {:induction false} FibersParity<A>(s: set<A>, owner: map<A, UserId>, users: set<UserId>)
    requires OwnedWithin(s, owner, users)
    ensures |s| % 2 == |OddFibers(s, owner, users)| % 2
    decreases users
  {
    if users == {} {
      assert s == {};
    } else {
      var u :| u in users;
      SplitFiber(s, owner, users, u);
      FibersParity(s - Fiber(s, owner, u), owner, users - {u});
      SplitOdd(s, owner, users, u);
    }
  }

  lemma SplitOdd<A>(s: set<A>, owner: map<A, UserId>, users: set<UserId>, u: UserId)
    requires u in users
    requires forall v | v in users - {u} :: Fiber(s - Fiber(s, owner, u), owner, v) == Fiber(s, owner, v)
    ensures var others := OddFibers(s - Fiber(s, owner, u), owner, users - {u});
            |OddFibers(s, owner, users)| == |others| + if |Fiber(s, owner, u)| % 2 == 1 then 1 else 0
  {
    var odd, others := OddFibers(s, owner, users), OddFibers(s - Fiber(s, owner, u), owner, users - {u});
    if |Fiber(s, owner, u)| % 2 == 1 {
      assert odd == others + {u};
    } else {
      assert odd == others;
    }
  }

  /** Pigeonhole: `k * seats` members, at most `k` a user and at most `seats` users, leave no slack. */
  lemma FibersFull<A>(s: set<A>, owner: map<A, UserId>, users: set<UserId>, k: nat, seats: nat)
    requires OwnedWithin(s, owner, users)
    requires forall u | u in users :: |Fiber(s, owner, u)| <= k
    requires |users| <= seats && 0 < k && |s| == k * seats
    ensures |users| == seats
    ensures forall u | u in users :: |Fiber(s, owner, u)| == k
  {
    FibersAtMost(s, owner, users, k);
    if |users| < seats {
      MulStrict(k, |users|, seats);
    }
    forall u | u in users ensures |Fiber(s, owner, u)| == k {
      SplitFiber(s, owner, users, u);
      var rest, others := s - Fiber(s, owner, u), users - {u};
      assert |rest| <= k * (seats - 1) by {
        FibersAtMost(rest, owner, others, k);
        assert |others| == seats - 1;
      }
      Distribute(k, seats - 1);
    }
  }
}
