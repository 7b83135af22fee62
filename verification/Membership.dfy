/** Views of the cluster, and the removal of streaming transactions whose originator has gone. */
module Membership {
  import opened Applying

  // ---------------------------------------------------------------- view

  /** view::member_index(): the first position, or -1. */
  method MemberIndex(members: seq<nat>, id: nat) returns (index: int)
    ensures -1 <= index < |members|
    ensures index == -1 <==> id !in members
    ensures index >= 0 ==> members[index] == id && id !in members[..index]
  {
    for i := 0 to |members|
      invariant id !in members[..i]
    {
      if members[i] == id { return i; }
    }
    return -1;
  }

  /** view::equal_membership(). */
  method EqualMembership(members: seq<nat>, other: seq<nat>) returns (equal: bool)
    ensures equal == SameMembers(members, other)
  {
    if |members| != |other| { return false; }
    for i := 0 to |members|
      invariant forall j :: 0 <= j < i ==> members[j] in other
    {
      var index := MemberIndex(other, members[i]);
      if index == -1 { return false; }
    }
    return true;
  }

  predicate SameMembers(members: seq<nat>, other: seq<nat>) {
    |members| == |other| && forall i :: 0 <= i < |members| ==> members[i] in other
  }

  function Ids(members: seq<nat>): (ids: set<nat>)
    ensures forall id :: id in ids <==> id in members
  {
    set id | id in members
  }

  predicate Distinct(members: seq<nat>) {
    forall i, j :: 0 <= i < j < |members| ==> members[i] != members[j]
  }

  lemma {:induction false} IdsBound(members: seq<nat>)
    ensures |Ids(members)| <= |members|
    ensures Distinct(members) ==> |Ids(members)| == |members|
  {
    if |members| > 0 {
      var rest, last := members[..|members| - 1], members[|members| - 1];
      IdsBound(rest);
      assert Ids(members) == Ids(rest) + {last};
      assert Distinct(members) ==> Distinct(rest) && last !in rest;
    }
  }

  lemma SubsetOfSameSize(a: set<nat>, b: set<nat>)
    requires a <= b && |a| >= |b|
    ensures a == b
  {
    SubsetSize(b - a, b);
    assert |b| == |a| + |b - a| by { assert b == a + (b - a); }
  }

  lemma {:induction false} SubsetSize(a: set<nat>, b: set<nat>)
    requires a <= b
    ensures |a| <= |b|
    decreases a
  {
    if a != {} {
      var x :| x in a;
      SubsetSize(a - {x}, b - {x});
    }
  }

  /** With distinct ids on its own side the loop decides equality of the member sets, ... */
  lemma EqualMembershipIsSetEquality(members: seq<nat>, other: seq<nat>)
    requires Distinct(members)
    ensures SameMembers(members, other) <==> |members| == |other| && Ids(members) == Ids(other)
  {
    IdsBound(members);
    IdsBound(other);
    if SameMembers(members, other) {
      assert Ids(members) <= Ids(other);
      SubsetOfSameSize(Ids(members), Ids(other));
    }
    assert forall i :: 0 <= i < |members| ==> members[i] in Ids(members);
  }

  /** ... for every other view exactly if they are distinct; ... */
  lemma SetEqualityNeedsDistinctIds(members: seq<nat>)
    ensures Distinct(members) <==>
      forall other | |other| == |members| :: SameMembers(members, other) <==> Ids(members) == Ids(other)
  {
    if Distinct(members) {
      forall other | |other| == |members|
        ensures SameMembers(members, other) <==> Ids(members) == Ids(other)
      {
        EqualMembershipIsSetEquality(members, other);
      }
    } else {
      var other := Mistaken(members);
      assert SameMembers(members, other) && Ids(members) != Ids(other);
    }
  }

  /** A repeated id can stand for a stranger. */
  lemma Mistaken(members: seq<nat>) returns (other: seq<nat>)
    requires !Distinct(members)
    ensures |other| == |members| && SameMembers(members, other) && Ids(members) != Ids(other)
  {
    var i, j :| 0 <= i < j < |members| && members[i] == members[j];
    var stranger := Stranger(members);
    other := members[j := stranger];
    assert forall k :: 0 <= k < |members| && k != j ==> members[k] == other[k];
    assert members[j] == other[i];
    assert stranger in Ids(other) && stranger !in Ids(members) by { assert other[j] == stranger; }
  }

  /** An id above all members. */
  function Stranger(members: seq<nat>): (id: nat)
    ensures forall k :: 0 <= k < |members| ==> members[k] < id
  {
    if |members| == 0 then 0
    else
      var last, others := members[|members| - 1], Stranger(members[..|members| - 1]);
      if last < others then others else last + 1
  }

  /** ... and with distinct ids on both sides it is symmetric; ... */
  lemma EqualMembershipIsSymmetric(members: seq<nat>, other: seq<nat>)
    requires Distinct(members) && Distinct(other)
    ensures SameMembers(members, other) <==> SameMembers(other, members)
    ensures SameMembers(members, other) <==> Ids(members) == Ids(other)
  {
    EqualMembershipIsSetEquality(members, other);
    EqualMembershipIsSetEquality(other, members);
    IdsBound(members);
    IdsBound(other);
  }

  /** ... with repeated ids it is neither. */
  lemma RepeatedIdsBreakEquality()
    ensures SameMembers([1, 1], [1, 2]) && !SameMembers([1, 2], [1, 1]) && Ids([1, 1]) != Ids([1, 2])
  {
    var a, b := [1, 1], [1, 2];
    assert b[1] !in a;
    assert 2 in Ids(b) && 2 !in Ids(a);
  }

  // ---------------------------------------------------------------- orphans

  /** A prepared transaction stays; any other only if its originator is still a member and the
      membership has changed since the previous primary view. */
  predicate Survives(key: Key, sa: Applier, view: seq<nat>, previous: seq<nat>) {
    sa.prepared || (!SameMembers(view, previous) && key.server in view)
  }

  /** The second half of close_orphaned_sr_transactions(): an exact filter of the applier map.
      `adoptFails` are the transactions whose fragments stay behind in storage. */
  method CloseOrphans(appliers: map<Key, Applier>, view: seq<nat>, previous: seq<nat>, adoptFails: set<Key>)
    returns (left: map<Key, Applier>, removed: set<Key>)
    ensures left == map k | k in appliers && Survives(k, appliers[k], view, previous) :: appliers[k]
    ensures removed == (set k | k in appliers && !Survives(k, appliers[k], view, previous)) - adoptFails
    ensures forall k | k in appliers && appliers[k].prepared :: k in left && k !in removed
    ensures forall k | k in left && !appliers[k].prepared ::
      k.server in view && !(|view| == |previous| && forall i :: 0 <= i < |view| ==> view[i] in previous)
    ensures forall k | k in appliers && k !in left && k !in adoptFails :: k in removed
  {
    var equal := EqualMembership(view, previous);
    left, removed := appliers, {};
    var ahead := appliers.Keys;
    while ahead != {}
      invariant ahead <= appliers.Keys
      invariant left == map k | k in appliers && (k in ahead || Survives(k, appliers[k], view, previous)) :: appliers[k]
      invariant removed ==
        (set k | k in appliers && k !in ahead && !Survives(k, appliers[k], view, previous)) - adoptFails
      decreases ahead
    {
      var k :| k in ahead;
      var index := MemberIndex(view, k.server);
      if !appliers[k].prepared && (equal || index == -1) {
        left := left - {k};
        if k !in adoptFails { removed := removed + {k}; }
      }
      ahead := ahead - {k};
    }
  }

  /** A streaming client of this server. */
  datatype Client = Client(trx: nat, prepared: bool)

  /** The first half: when this server is not in the view, or the membership has not changed, every
      streaming client that is not prepared is BF aborted in total order and waited for. */
  method CloseStreamingClients(clients: map<nat, Client>, ownIndex: int, view: seq<nat>, previous: seq<nat>)
    returns (left: map<nat, Client>)
    ensures var spared := ownIndex != -1 && !SameMembers(view, previous);
      left == map c | c in clients && (clients[c].prepared || spared) :: clients[c]
  {
    left := clients;
    var equal := EqualMembership(view, previous);
    if ownIndex == -1 || equal {
      while exists c :: c in left && !left[c].prepared
        invariant forall c | c in left :: c in clients && left[c] == clients[c]
        invariant forall c | c in clients && clients[c].prepared :: c in left
        decreases left.Keys
      {
        var c :| c in left && !left[c].prepared;
        left := left - {c};
      }
    }
  }
}
