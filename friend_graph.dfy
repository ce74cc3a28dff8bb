/** The friend relation: each row's `friend_list` names other rows, and the
    add/remove handlers change two rows at once so that the relation reads
    the same from either side. */
module FriendGraph {
  import opened Records

  /** A stored `friend_list` as the friend handlers copy it: the array's
      entries when it is one, otherwise an empty list. */
  function AsArray(j: Json): (xs: seq<string>)
    ensures j.Array? ==> xs == j.items
    ensures !j.Array? ==> xs == []
  {
    if j.Array? then j.items else []
  }

  function Friends(u: User): seq<string>
  {
    AsArray(u.friendList)
  }

  /** `xs.filter(u => u !== x)`. */
  function Without(xs: seq<string>, x: string): (r: seq<string>)
    ensures x !in r
    ensures forall y :: y in r <==> y in xs && y != x
    ensures |r| <= |xs|
  {
    if xs == [] then []
    else if xs[0] == x then Without(xs[1..], x)
    else [xs[0]] + Without(xs[1..], x)
  }

  /** `r` is `xs` with some entries dropped and the rest in their order. */
  ghost predicate Subsequence(r: seq<string>, xs: seq<string>)
    decreases |xs|
  {
    if r == [] then true
    else if xs == [] then false
    else if r[0] == xs[0] then Subsequence(r[1..], xs[1..])
    else Subsequence(r, xs[1..])
  }

  lemma {:induction false} WithoutKeepsOrder(xs: seq<string>, x: string)
    ensures Subsequence(Without(xs, x), xs)
    decreases |xs|
  {
    if xs != [] {
      WithoutKeepsOrder(xs[1..], x);
      if xs[0] != x {
        assert ([xs[0]] + Without(xs[1..], x))[1..] == Without(xs[1..], x);
      } else {
        SubsequenceOfTail(Without(xs[1..], x), xs);
      }
    }
  }

  lemma {:induction false} SubsequenceOfTail(r: seq<string>, xs: seq<string>)
    requires xs != [] && Subsequence(r, xs[1..])
    ensures Subsequence(r, xs)
    decreases |r| + |xs|
  {
    if r != [] && r[0] == xs[0] {
      SubsequenceDropHead(r, xs[1..]);
    }
  }

  lemma {:induction false} SubsequenceDropHead(r: seq<string>, xs: seq<string>)
    requires r != [] && Subsequence(r, xs)
    ensures Subsequence(r[1..], xs)
    decreases |r| + |xs|
  {
    if r[0] != xs[0] {
      SubsequenceDropHead(r, xs[1..]);
    }
    if r[1..] != [] {
      SubsequenceOfTail(r[1..], xs);
    }
  }

  /** Removing every copy of `x` leaves the other entries' counts alone. */
  lemma {:induction false} WithoutCounts(xs: seq<string>, x: string)
    ensures multiset(Without(xs, x)) == multiset(xs)[x := 0]
    decreases |xs|
  {
    if xs != [] {
      WithoutCounts(xs[1..], x);
      assert xs == [xs[0]] + xs[1..];
    }
  }

  /** A list without `x` is left as it is. */
  lemma {:induction false} WithoutAbsent(xs: seq<string>, x: string)
    requires x !in xs
    ensures Without(xs, x) == xs
    decreases |xs|
  {
    if xs != [] {
      WithoutAbsent(xs[1..], x);
      assert xs == [xs[0]] + xs[1..];
    }
  }

  lemma {:induction false} WithoutAppend(xs: seq<string>, ys: seq<string>, x: string)
    ensures Without(xs + ys, x) == Without(xs, x) + Without(ys, x)
    decreases |xs|
  {
    if xs != [] {
      assert (xs + ys)[1..] == xs[1..] + ys;
      WithoutAppend(xs[1..], ys, x);
    } else {
      assert xs + ys == ys;
    }
  }

  /** Filtering twice is filtering once. */
  lemma WithoutIdempotent(xs: seq<string>, x: string)
    ensures Without(Without(xs, x), x) == Without(xs, x)
  {
    WithoutAbsent(Without(xs, x), x);
  }

  /** The store after a successful `/add_friend` between `a` and `b`:
      each one's list gains the other's username at its end. */
  function AddEdge(users: map<string, User>, a: string, b: string): (r: map<string, User>)
    requires a in users && b in users && a != b
    ensures r.Keys == users.Keys
    ensures b in Friends(r[a]) && a in Friends(r[b])
    ensures |Friends(r[a])| == |Friends(users[a])| + 1 && |Friends(r[b])| == |Friends(users[b])| + 1
  {
    var ua := users[a];
    var ub := users[b];
    users[a := ua.(friendList := Array(Friends(ua) + [b]))]
         [b := ub.(friendList := Array(Friends(ub) + [a]))]
  }

  /** The store after `/remove_friend` between `a` and `b`: each one's list
      loses every copy of the other's username. */
  function RemoveEdge(users: map<string, User>, a: string, b: string): (r: map<string, User>)
    requires a in users && b in users
    ensures r.Keys == users.Keys
    ensures b !in Friends(r[a]) && a !in Friends(r[b])
  {
    var ua := users[a];
    var ub := users[b];
    users[a := ua.(friendList := Array(Without(Friends(ua), b)))]
         [b := ub.(friendList := Array(Without(Friends(ub), a)))]
  }

  /** Every friend entry names a stored user who lists the owner back. */
  ghost predicate Consistent(users: map<string, User>)
  {
    forall a, b :: a in users && b in Friends(users[a]) ==> b in users && a in Friends(users[b])
  }

  /** Consistency makes the relation symmetric over stored users. This
      only unfolds `Consistent`; the facts with content are the clauses
      `Consistent(old(users)) ==> Consistent(users)` of the handlers that
      change the table, proved by `AddEdgeConsistent` and
      `RemoveEdgeConsistent`. */
  lemma ConsistentIsSymmetric(users: map<string, User>, a: string, b: string)
    requires Consistent(users)
    requires a in users && b in users
    ensures b in Friends(users[a]) <==> a in Friends(users[b])
  {
  }

  /** What `/add_friend` changes: the two lists and nothing else. */
  lemma AddEdgeEffect(users: map<string, User>, a: string, b: string)
    requires a in users && b in users && a != b
    ensures var r := AddEdge(users, a, b);
      && r.Keys == users.Keys
      && r[a] == users[a].(friendList := Array(Friends(users[a]) + [b]))
      && r[b] == users[b].(friendList := Array(Friends(users[b]) + [a]))
      && forall k :: k in users && k != a && k != b ==> r[k] == users[k]
  {
  }

  /** Adding an edge the store does not have keeps the store consistent. */
  lemma AddEdgeConsistent(users: map<string, User>, a: string, b: string)
    requires a in users && b in users && a != b
    requires Consistent(users)
    requires b !in Friends(users[a])
    ensures Consistent(AddEdge(users, a, b))
  {
    var r := AddEdge(users, a, b);
    forall x, y | x in r && y in Friends(r[x])
      ensures y in r && x in Friends(r[y])
    {
      if x == a {
        if y != b {
          assert y in Friends(users[a]);
        }
      } else if x == b {
        if y != a {
          assert y in Friends(users[b]);
        }
      } else {
        assert y in Friends(users[x]);
      }
    }
  }

  /** What `/remove_friend` changes: the two lists, filtered, and nothing else. */
  lemma RemoveEdgeEffect(users: map<string, User>, a: string, b: string)
    requires a in users && b in users
    ensures var r := RemoveEdge(users, a, b);
      && r.Keys == users.Keys
      && r[a].(friendList := users[a].friendList) == users[a]
      && r[b].(friendList := users[b].friendList) == users[b]
      && b !in Friends(r[a]) && a !in Friends(r[b])
      && Subsequence(Friends(r[a]), Friends(users[a]))
      && Subsequence(Friends(r[b]), Friends(users[b]))
      && multiset(Friends(r[a])) == multiset(Friends(users[a]))[b := 0]
      && (a != b ==> multiset(Friends(r[b])) == multiset(Friends(users[b]))[a := 0])
      && (forall y :: y != b ==> (y in Friends(r[a]) <==> y in Friends(users[a])))
      && (a != b ==> forall y :: y != a ==> (y in Friends(r[b]) <==> y in Friends(users[b])))
      && forall k :: k in users && k != a && k != b ==> r[k] == users[k]
  {
    WithoutKeepsOrder(Friends(users[a]), b);
    WithoutKeepsOrder(Friends(users[b]), a);
    WithoutCounts(Friends(users[a]), b);
    WithoutCounts(Friends(users[b]), a);
    if a == b {
      assert Without(Friends(users[a]), b) == Without(Friends(users[b]), a);
    }
  }

  /** Removing an edge keeps the store consistent. */
  lemma RemoveEdgeConsistent(users: map<string, User>, a: string, b: string)
    requires a in users && b in users
    requires Consistent(users)
    ensures Consistent(RemoveEdge(users, a, b))
  {
    var r := RemoveEdge(users, a, b);
    RemoveEdgeEffect(users, a, b);
    forall x, y | x in r && y in Friends(r[x])
      ensures y in r && x in Friends(r[y])
    {
      if x == a || x == b {
        assert y in Friends(users[x]);
      } else {
        assert y in Friends(users[x]);
      }
    }
  }

  /** A second identical `/remove_friend` leaves the state of the first. */
  lemma RemoveEdgeIdempotent(users: map<string, User>, a: string, b: string)
    requires a in users && b in users
    ensures RemoveEdge(RemoveEdge(users, a, b), a, b) == RemoveEdge(users, a, b)
  {
    var r := RemoveEdge(users, a, b);
    WithoutIdempotent(Friends(users[a]), b);
    WithoutIdempotent(Friends(users[b]), a);
    if a == b {
      assert RemoveEdge(r, a, b)[a] == r[a];
    } else {
      assert RemoveEdge(r, a, b)[a] == r[a];
      assert RemoveEdge(r, a, b)[b] == r[b];
    }
  }

  /** Removing an edge that is absent, between rows whose lists are
      arrays, changes nothing. */
  lemma RemoveAbsentEdge(users: map<string, User>, a: string, b: string)
    requires a in users && b in users
    requires users[a].friendList.Array? && users[b].friendList.Array?
    requires b !in Friends(users[a]) && a !in Friends(users[b])
    ensures RemoveEdge(users, a, b) == users
  {
    WithoutAbsent(Friends(users[a]), b);
    WithoutAbsent(Friends(users[b]), a);
  }

  /** Removing an edge just added restores the store, when both lists were
      arrays without the edge. */
  lemma {:induction false} AddThenRemove(users: map<string, User>, a: string, b: string)
    requires a in users && b in users && a != b
    requires users[a].friendList.Array? && users[b].friendList.Array?
    requires b !in Friends(users[a]) && a !in Friends(users[b])
    ensures RemoveEdge(AddEdge(users, a, b), a, b) == users
  {
    var fa, fb := Friends(users[a]), Friends(users[b]);
    WithoutAppend(fa, [b], b);
    WithoutAppend(fb, [a], a);
    WithoutAbsent(fa, b);
    WithoutAbsent(fb, a);
    assert Without([b], b) == [] && Without([a], a) == [];
    var r := RemoveEdge(AddEdge(users, a, b), a, b);
    assert r[a] == users[a] && r[b] == users[b];
  }
}
