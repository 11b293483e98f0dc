/** A user's `following` list: edges `{user_id, username}` added by an
    array union and removed, by user id, with a filter. */
module Follows {
  import opened Documents

  /** Some edge of the list points at user `id`. */
  predicate HasEdgeTo(edges: seq<FollowEdge>, id: string) {
    exists i :: 0 <= i < |edges| && edges[i].userId == id
  }

  /** Position of the first edge pointing at `id`. */
  function FirstIndex(edges: seq<FollowEdge>, id: string): (i: nat)
    requires HasEdgeTo(edges, id)
    ensures i < |edges| && edges[i].userId == id
    ensures forall j :: 0 <= j < i ==> edges[j].userId != id
  {
    var init := edges[..|edges| - 1];
    if HasEdgeTo(init, id) then
      var i := FirstIndex(init, id);
      assert edges[i] == init[i];
      i
    else
      assert forall j :: 0 <= j < |edges| - 1 ==> edges[j] == init[j];
      |edges| - 1
  }

  /** An edge to `id` is the first edge or one of the rest. */
  lemma HasEdgeToCons(edges: seq<FollowEdge>, id: string)
    requires edges != []
    ensures HasEdgeTo(edges, id) <==> edges[0].userId == id || HasEdgeTo(edges[1..], id)
  {
    if HasEdgeTo(edges, id) && edges[0].userId != id {
      var i :| 0 <= i < |edges| && edges[i].userId == id;
      assert edges[1..][i - 1] == edges[i];
    }
    if HasEdgeTo(edges[1..], id) {
      var i :| 0 <= i < |edges[1..]| && edges[1..][i].userId == id;
      assert edges[i + 1] == edges[1..][i];
    }
  }

  /** An edge to `id` is one of the earlier edges or the last one. */
  lemma HasEdgeToSnocAt(edges: seq<FollowEdge>, id: string)
    requires edges != []
    ensures HasEdgeTo(edges, id) <==> HasEdgeTo(edges[..|edges| - 1], id) || edges[|edges| - 1].userId == id
  {
    var init := edges[..|edges| - 1];
    if HasEdgeTo(edges, id) {
      var i :| 0 <= i < |edges| && edges[i].userId == id;
      if i < |edges| - 1 {
        assert init[i] == edges[i];
      }
    }
    if HasEdgeTo(init, id) {
      var i :| 0 <= i < |init| && init[i].userId == id;
      assert edges[i] == init[i];
    }
  }

  /** How HasEdgeTo and FirstIndex change when one edge is added at the end. */
  lemma HasEdgeToSnoc(edges: seq<FollowEdge>)
    requires edges != []
    ensures forall id :: HasEdgeTo(edges, id) <==> HasEdgeTo(edges[..|edges| - 1], id) || edges[|edges| - 1].userId == id
    ensures forall id :: HasEdgeTo(edges[..|edges| - 1], id) ==>
              FirstIndex(edges, id) == FirstIndex(edges[..|edges| - 1], id) < |edges| - 1
    ensures !HasEdgeTo(edges[..|edges| - 1], edges[|edges| - 1].userId) ==>
              FirstIndex(edges, edges[|edges| - 1].userId) == |edges| - 1
  {
    forall id ensures HasEdgeTo(edges, id) <==> HasEdgeTo(edges[..|edges| - 1], id) || edges[|edges| - 1].userId == id {
      HasEdgeToSnocAt(edges, id);
    }
  }

  /** `next((u for u in edges if u["user_id"] == id), None)`. */
  function FirstEdge(edges: seq<FollowEdge>, id: string): (r: Option<FollowEdge>)
    ensures r.Some? <==> HasEdgeTo(edges, id)
    ensures r.Some? ==> r.value == edges[FirstIndex(edges, id)]
  {
    if HasEdgeTo(edges, id) then Some(edges[FirstIndex(edges, id)]) else None
  }

  /** `firestore.ArrayUnion([e])` applied to a list (main.py:99-104): the
      value is appended unless an equal value is already there. */
  function ArrayUnion(edges: seq<FollowEdge>, e: FollowEdge): (r: seq<FollowEdge>)
    ensures forall x :: x in r <==> x in edges || x == e
    ensures |edges| <= |r| <= |edges| + 1 && r[..|edges|] == edges
    ensures e in edges ==> r == edges
    ensures NoDup(edges) ==> NoDup(r)
  {
    if e in edges then edges else edges + [e]
  }

  /** `[f for f in edges if f["user_id"] != id]` (main.py:372). */
  function WithoutUser(edges: seq<FollowEdge>, id: string): (r: seq<FollowEdge>)
    ensures forall x :: x in r <==> x in edges && x.userId != id
    ensures |r| <= |edges|
  {
    if edges == [] then []
    else
      assert forall x :: x in edges <==> x == edges[0] || x in edges[1..] by {
        assert edges == [edges[0]] + edges[1..];
      }
      (if edges[0].userId != id then [edges[0]] else []) + WithoutUser(edges[1..], id)
  }

  /** The filter shortens the list exactly when some edge pointed at the
      user (main.py:374). */
  lemma {:induction false} WithoutUserShortens(edges: seq<FollowEdge>, id: string)
    ensures |WithoutUser(edges, id)| == |edges| <==> !HasEdgeTo(edges, id)
  {
    if edges != [] {
      WithoutUserShortens(edges[1..], id);
      HasEdgeToCons(edges, id);
    }
  }

  /** The filter keeps a duplicate-free list duplicate-free. */
  lemma {:induction false} WithoutUserNoDup(edges: seq<FollowEdge>, id: string)
    requires NoDup(edges)
    ensures NoDup(WithoutUser(edges, id))
  {
    if edges != [] {
      assert NoDup(edges[1..]);
      WithoutUserNoDup(edges[1..], id);
      forall j | 0 <= j < |edges[1..]| ensures edges[1..][j] != edges[0] {
        assert edges[1..][j] == edges[j + 1];
      }
    }
  }

  /** The filter splits over concatenation, so it keeps the original order. */
  lemma {:induction false} WithoutUserAppend(a: seq<FollowEdge>, b: seq<FollowEdge>, id: string)
    ensures WithoutUser(a + b, id) == WithoutUser(a, id) + WithoutUser(b, id)
  {
    if a == [] {
      assert a + b == b;
    } else {
      assert (a + b)[1..] == a[1..] + b;
      WithoutUserAppend(a[1..], b, id);
    }
  }

  /** Unfollowing a user nobody follows changes nothing. */
  lemma {:induction false} WithoutAbsentUser(edges: seq<FollowEdge>, id: string)
    requires !HasEdgeTo(edges, id)
    ensures WithoutUser(edges, id) == edges
  {
    if edges != [] {
      HasEdgeToCons(edges, id);
      WithoutAbsentUser(edges[1..], id);
      assert edges == [edges[0]] + edges[1..];
    }
  }

  /** Following a user one did not follow and then unfollowing them gives the
      list back unchanged. */
  lemma {:induction false} FollowThenUnfollow(edges: seq<FollowEdge>, e: FollowEdge)
    requires !HasEdgeTo(edges, e.userId)
    ensures WithoutUser(ArrayUnion(edges, e), e.userId) == edges
  {
    forall i | 0 <= i < |edges| ensures edges[i] != e { }
    WithoutUserAppend(edges, [e], e.userId);
    WithoutAbsentUser(edges, e.userId);
    assert WithoutUser([e], e.userId) == [];
  }

  /** Re-following a user under a new cached username adds a second edge to
      the same user: the union compares whole values, not user ids. */
  lemma RefollowAddsSecondEdge(id: string, oldName: Value, newName: Value)
    requires oldName != newName
    ensures ArrayUnion([FollowEdge(id, oldName)], FollowEdge(id, newName))
              == [FollowEdge(id, oldName), FollowEdge(id, newName)]
  {
  }
}
