/** The `shared_with` list of a media row: how it grows and whom it lets read. */
module Acl {
  import opened Base

  predicate NoDuplicates<T(==)>(s: seq<T>) {
    forall i, j :: 0 <= i < j < |s| ==> s[i] != s[j]
  }

  /** `set.add(uid)` on an insertion-ordered set. */
  function Add(acl: seq<UserId>, uid: UserId): seq<UserId> {
    if uid in acl then acl else acl + [uid]
  }

  /** `new Set(list)`: the first occurrence of every entry, in order. */
  function Distinct(list: seq<UserId>): seq<UserId> {
    if list == [] then [] else Add(Distinct(list[..|list| - 1]), list[|list| - 1])
  }

  /** The users a caller may add: neither empty nor the owner. */
  predicate Eligible(uid: UserId, owner: UserId) {
    uid != "" && uid != owner
  }

  /** The loop shared by `share` and the dedup merge: add every eligible user to the set. */
  function AddAll(acl: seq<UserId>, users: seq<UserId>, owner: UserId): seq<UserId> {
    if users == [] then acl
    else
      var before := AddAll(acl, users[..|users| - 1], owner);
      var uid := users[|users| - 1];
      if Eligible(uid, owner) then Add(before, uid) else before
  }

  function Union(base: seq<UserId>, users: seq<UserId>, owner: UserId): seq<UserId> {
    AddAll(Distinct(base), users, owner)
  }

  /** A stored list is well formed when it names nobody twice, nor the owner, nor the empty name. */
  predicate WellFormed(acl: seq<UserId>, owner: UserId) {
    NoDuplicates(acl) && forall uid :: uid in acl ==> Eligible(uid, owner)
  }

  lemma {:induction false} DistinctProps(list: seq<UserId>)
    ensures NoDuplicates(Distinct(list))
    ensures forall uid :: uid in Distinct(list) <==> uid in list
    ensures |Distinct(list)| <= |list|
    ensures |Distinct(list)| == |list| <==> NoDuplicates(list)
    ensures NoDuplicates(list) ==> Distinct(list) == list
  {
    if list != [] {
      var init, last := list[..|list| - 1], list[|list| - 1];
      DistinctProps(init);
      assert list == init + [last];
      if last in init {
        var i :| 0 <= i < |init| && init[i] == last;
        assert list[i] == list[|list| - 1];
      } else {
        assert NoDuplicates(list) <==> NoDuplicates(init);
      }
    }
  }

  lemma {:induction false} AddAllProps(acl: seq<UserId>, users: seq<UserId>, owner: UserId)
    requires NoDuplicates(acl)
    ensures var r := AddAll(acl, users, owner);
            && NoDuplicates(r)
            && acl <= r
            && (forall uid :: uid in r <==> uid in acl || (uid in users && Eligible(uid, owner)))
  {
    if users != [] {
      AddAllProps(acl, users[..|users| - 1], owner);
      assert users == users[..|users| - 1] + [users[|users| - 1]];
    }
  }

  // What both callers compute: the union of the two lists without the owner, the old list first.
  lemma UnionProps(base: seq<UserId>, users: seq<UserId>, owner: UserId)
    ensures var r := Union(base, users, owner);
            && NoDuplicates(r)
            && Distinct(base) <= r
            && (forall uid :: uid in r <==> uid in base || (uid in users && Eligible(uid, owner)))
  {
    DistinctProps(base);
    AddAllProps(Distinct(base), users, owner);
  }

  lemma UnionWellFormed(base: seq<UserId>, users: seq<UserId>, owner: UserId)
    requires WellFormed(base, owner)
    ensures WellFormed(Union(base, users, owner), owner) && base <= Union(base, users, owner)
  {
    UnionProps(base, users, owner);
    DistinctProps(base);
  }

  // A set keeps the order of first occurrences: what a part of the list gives stays in front.
  lemma {:induction false} DistinctGrows(list: seq<UserId>, k: nat)
    requires k <= |list|
    ensures Distinct(list[..k]) <= Distinct(list)
    decreases |list|
  {
    if k < |list| {
      var init := list[..|list| - 1];
      assert init[..k] == list[..k];
      DistinctGrows(init, k);
    } else {
      assert list[..k] == list;
    }
  }

  // So does the union, for the users in the order they are named.
  lemma {:induction false} UnionGrows(base: seq<UserId>, users: seq<UserId>, owner: UserId, k: nat)
    requires k <= |users|
    ensures Union(base, users[..k], owner) <= Union(base, users, owner)
    decreases |users|
  {
    if k < |users| {
      var init := users[..|users| - 1];
      assert init[..k] == users[..k];
      UnionGrows(base, init, owner, k);
    } else {
      assert users[..k] == users;
    }
  }

  predicate Grows(base: seq<UserId>, users: seq<UserId>, owner: UserId) {
    exists uid :: uid in users && Eligible(uid, owner) && uid !in base
  }

  // The two growth tests: `share` compares set sizes and is always right; the dedup merge compares list
  // lengths and is right when the stored list has no duplicates.
  lemma GrowthTests(base: seq<UserId>, users: seq<UserId>, owner: UserId)
    ensures |Union(base, users, owner)| != |Distinct(base)| <==> Grows(base, users, owner)
    ensures NoDuplicates(base) ==>
      (|Union(base, users, owner)| != |base| <==> Grows(base, users, owner))
  {
    UnionProps(base, users, owner);
    DistinctProps(base);
    var r, d := Union(base, users, owner), Distinct(base);
    if |r| == |d| {
      assert r == d;
    } else {
      var uid := r[|d|];
      assert uid !in d;
      assert uid in r;
    }
  }

  // Exactly what the length test needs of the stored list: with duplicates in it there is a non-empty
  // request that it misjudges.
  lemma LengthTestExact(base: seq<UserId>, owner: UserId)
    ensures NoDuplicates(base) <==>
      (forall users: seq<UserId> :: users != [] ==>
        (|Union(base, users, owner)| != |base| <==> Grows(base, users, owner)))
  {
    if NoDuplicates(base) {
      forall users: seq<UserId> | users != []
        ensures |Union(base, users, owner)| != |base| <==> Grows(base, users, owner)
      {
        GrowthTests(base, users, owner);
      }
    } else {
      // A request naming only the owner adds nobody, yet the lengths differ.
      DistinctProps(base);
      var users := [owner];
      assert users[..|users| - 1] == [] && users[|users| - 1] == owner;
      assert AddAll(Distinct(base), [], owner) == Distinct(base);
      assert Union(base, users, owner) == Distinct(base);
      assert !Grows(base, users, owner);
    }
  }

  // ----- read access -----

  /** `shared_with` is NULL or a list. */
  function Listed(sharedWith: Option<seq<UserId>>): seq<UserId> {
    if sharedWith.None? then [] else sharedWith.value
  }

  /** `enforceReadAccess`: public context, owner, or listed. */
  predicate MayRead(publicContext: bool, owner: UserId, sharedWith: Option<seq<UserId>>, requester: UserId) {
    publicContext || owner == requester || requester in Listed(sharedWith)
  }

  // Sharing lets in exactly the named users and shuts nobody out.
  lemma ShareAdmits(publicContext: bool, owner: UserId, before: Option<seq<UserId>>,
                    users: seq<UserId>, requester: UserId)
    requires requester != ""
    ensures MayRead(publicContext, owner, Some(Union(Listed(before), users, owner)), requester)
       <==> MayRead(publicContext, owner, before, requester) || requester in users
  {
    UnionProps(Listed(before), users, owner);
  }
}
