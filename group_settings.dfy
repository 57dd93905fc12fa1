// The group settings screen (pages/GroupSettings.js): who may manage the
// members, and the member list kept on the screen. The viewer owns the
// group when the signed-in uid is strictly equal to the group's `ownerId`;
// only the owner is offered the remove control, never on the owner's own
// row, and the add-members link. A removal confirmed by the store drops the
// member from the list shown. Reading the group, the store calls and the
// confirmation dialog are not part of this model; their outcomes are
// parameters.

module GroupSettings {
  import opened Js

  /** A JavaScript value compared with `===` where a uid is expected: a
      string, `undefined` (no signed-in user, or no such field) or `null`
      (the owner before the group is loaded). */
  datatype Ident = Undefined | Null | Id(uid: string)

  /** A row of the member list. */
  datatype Member = Member(uid: Ident, name: string)

  /** Line 22: `currentUserId === ownerId`. */
  predicate IsOwner(currentUserId: Ident, ownerId: Ident)
  {
    currentUserId == ownerId
  }

  /** Line 80: the trash icon on a member's row. */
  predicate RemoveOffered(currentUserId: Ident, ownerId: Ident, member: Member)
  {
    IsOwner(currentUserId, ownerId) && member.uid != ownerId
  }

  /** Line 92: the "+ Add Members" link. */
  predicate AddOffered(currentUserId: Ident, ownerId: Ident)
  {
    IsOwner(currentUserId, ownerId)
  }

  /** The owner's own row never has a remove control; a viewer who is not
      the owner sees no remove control on any row and no add link; the
      owner sees a remove control on every other row. */
  lemma ControlsFollowOwnership(currentUserId: Ident, ownerId: Ident, member: Member)
    ensures member.uid == ownerId ==> !RemoveOffered(currentUserId, ownerId, member)
    ensures !IsOwner(currentUserId, ownerId) ==>
      !RemoveOffered(currentUserId, ownerId, member) && !AddOffered(currentUserId, ownerId)
    ensures IsOwner(currentUserId, ownerId) ==>
      AddOffered(currentUserId, ownerId) && (RemoveOffered(currentUserId, ownerId, member) <==> member.uid != ownerId)
  {
  }

  /** Strict equality: before the group is loaded (`ownerId` is `null`) no
      viewer owns it, signed in or not; once loaded without an `ownerId`
      field, a viewer with no signed-in user (`undefined`) does. */
  lemma OwnershipBeforeAndAfterLoad(currentUserId: Ident)
    requires !currentUserId.Null?
    ensures !IsOwner(currentUserId, Ident.Null)
    ensures IsOwner(Undefined, Undefined)
  {
  }

  /** Line 54: `prev.filter(m => m.uid !== memberUid)`. */
  function WithoutUid(members: seq<Member>, uid: Ident): seq<Member>
  {
    if members == [] then []
    else (if members[0].uid == uid then [] else [members[0]]) + WithoutUid(members[1..], uid)
  }

  /** The filter keeps order: the rows kept from a longer list are those
      kept from its first part followed by those kept from the rest. */
  lemma {:induction false} WithoutUidAppend(xs: seq<Member>, ys: seq<Member>, uid: Ident)
    ensures WithoutUid(xs + ys, uid) == WithoutUid(xs, uid) + WithoutUid(ys, uid)
  {
    if xs != [] {
      assert (xs + ys)[1..] == xs[1..] + ys;
      WithoutUidAppend(xs[1..], ys, uid);
    } else {
      assert xs + ys == ys;
    }
  }

  /** Exactly the rows with that uid go, every one of them; a list without
      it is left as it was; the list never grows. */
  lemma {:induction false} WithoutUidMembers(members: seq<Member>, uid: Ident, m: Member)
    ensures m in WithoutUid(members, uid) <==> m in members && m.uid != uid
    ensures (forall i :: 0 <= i < |members| ==> members[i].uid != uid) ==> WithoutUid(members, uid) == members
    ensures |WithoutUid(members, uid)| <= |members|
  {
    if members != [] {
      WithoutUidMembers(members[1..], uid, m);
      assert members == [members[0]] + members[1..];
      if forall i :: 0 <= i < |members| ==> members[i].uid != uid {
        assert forall i :: 0 <= i < |members[1..]| ==> members[1..][i].uid != uid by {
          forall i | 0 <= i < |members[1..]| ensures members[1..][i].uid != uid {
            assert members[1..][i] == members[i + 1];
          }
        }
      }
    }
  }

  /** What the group read returns when it succeeds (lines 26-30). */
  datatype Fetched = Fetched(members: seq<Member>, ownerId: Ident)

  /** The screen's state that decides what is offered. */
  class GroupSettingsScreen {
    /** `members`. */
    var members: seq<Member>
    /** `ownerId`. */
    var ownerId: Ident
    /** Line 21: `getAuth().currentUser?.uid`. */
    const currentUserId: Ident

    /** Lines 16-17: an empty list and a `null` owner until the group is
        read, so no viewer, signed in or not, owns it yet. */
    constructor(currentUserId: Ident)
      ensures this.currentUserId == currentUserId && members == [] && ownerId == Ident.Null
      ensures !currentUserId.Null? ==> !Owner()
    {
      this.currentUserId := currentUserId;
      members := [];
      ownerId := Ident.Null;
    }

    /** Line 22. */
    predicate Owner()
      reads this
    {
      IsOwner(currentUserId, ownerId)
    }

    /** Line 80, for a row of the list: offered exactly to the owner, on
        every row but the owner's. */
    function RemoveControls(): (shown: seq<bool>)
      reads this
      ensures |shown| == |members|
      ensures forall i :: 0 <= i < |members| ==> (shown[i] <==> Owner() && members[i].uid != ownerId)
    {
      seq(|members|, i requires 0 <= i < |members| reads this => RemoveOffered(currentUserId, ownerId, members[i]))
    }

    /** Lines 24-37: a successful read replaces the list and the owner; a
        failed one (`fetched` is None) leaves the screen as it was. After a
        successful read the viewer owns the group exactly when the uids are
        strictly equal, so a viewer with no signed-in user owns a group
        stored without an `ownerId`. */
    method Load(fetched: Option<Fetched>)
      modifies this
      ensures fetched.Some? ==> members == fetched.value.members && ownerId == fetched.value.ownerId
      ensures fetched.None? ==> members == old(members) && ownerId == old(ownerId)
      ensures fetched.Some? ==> (Owner() <==> currentUserId == fetched.value.ownerId)
      ensures fetched.Some? && fetched.value.ownerId == Undefined && currentUserId == Undefined ==> Owner()
    {
      if fetched.Some? {
        members := fetched.value.members;
        ownerId := fetched.value.ownerId;
      }
    }

    /** Lines 52-57, with the outcome of `removeMemberFromGroup` as
        `removed`: after a removal the list drops that uid and nothing else;
        after a failure it is unchanged. The owner never changes. */
    method RemoveMember(memberUid: Ident, removed: bool)
      modifies this
      ensures removed ==> members == WithoutUid(old(members), memberUid)
      ensures !removed ==> members == old(members)
      ensures ownerId == old(ownerId)
    {
      if removed {
        members := WithoutUid(members, memberUid);
      }
    }
  }
}
