/** Group membership: who may remove whom, how ownership moves, and who inherits it. */
module Membership {
  import opened Domain

  ghost predicate OwnedBy(members: map<UserId, Participant>, user: UserId) {
    && user in members
    && members[user].role == Owner
    && forall other :: other in members && members[other].role == Owner ==> other == user
  }

  ghost predicate HasOneOwner(members: map<UserId, Participant>) {
    exists user :: OwnedBy(members, user)
  }

  ghost predicate HasAtMostOneOwner(members: map<UserId, Participant>) {
    forall u, v :: u in members && v in members && members[u].role == Owner && members[v].role == Owner ==> u == v
  }

  // ----- specification -----

  function Founders(owner: UserId, invited: seq<UserId>): set<UserId> {
    {owner} + (set i | i in invited)
  }

  function FoundingMembers(owner: UserId, invited: seq<UserId>, now: Time): map<UserId, Participant> {
    map u | u in Founders(owner, invited) :: Participant(if u == owner then Owner else Member, None, now)
  }

  function GroupOf(owner: UserId, invited: seq<UserId>, now: Time): Result<Conversation> {
    var members := FoundingMembers(owner, invited, now);
    if |members| < 2 then Err(Invalid) else Ok(Conversation(Group, members, now))
  }

  function WithoutMember(conversation: Conversation, actor: UserId, target: UserId, now: Time): Result<Conversation> {
    var members := conversation.members;
    if actor !in members then Err(Forbidden)
    else if target !in members then Err(NotFound)
    else if members[target].role == Owner || members[actor].role.Rank() <= members[target].role.Rank() then Err(Forbidden)
    else Ok(conversation.(members := members - {target}, updatedAt := now))
  }

  function WithOwner(conversation: Conversation, actor: UserId, target: UserId, now: Time): Result<Conversation> {
    var members := conversation.members;
    if !conversation.HasRole(actor, Owner) then Err(Forbidden)
    else if target !in members then Err(NotFound)
    else
      var demoted := members[actor := members[actor].(role := Member)];
      Ok(conversation.(members := demoted[target := demoted[target].(role := Owner)], updatedAt := now))
  }

  /** Succession order: the higher role first, then the earlier join, then the later user id. */
  predicate Precedes(members: map<UserId, Participant>, u: UserId, v: UserId)
    requires u in members && v in members
  {
    var a, b := members[u], members[v];
    if a.role != b.role then a.role.Rank() > b.role.Rank()
    else if a.joinedAt != b.joinedAt then a.joinedAt < b.joinedAt
    else u >= v
  }

  ghost predicate IsSuccessor(members: map<UserId, Participant>, leaver: UserId, heir: UserId) {
    && heir in members && heir != leaver
    && forall u :: u in members && u != leaver ==> Precedes(members, heir, u)
  }

  /** What deleting an account does to one conversation the account belongs to. */
  ghost function Detached(conversation: Conversation, leaver: UserId, now: Time): Conversation {
    var members := conversation.members;
    if !conversation.CanRead(leaver) then conversation
    else if conversation.kind.Group? && members[leaver].role == Owner && exists heir :: IsSuccessor(members, leaver, heir) then
      var heir :| IsSuccessor(members, leaver, heir);
      conversation.(members := members[heir := members[heir].(role := Owner)] - {leaver}, updatedAt := now)
    else conversation.(members := members - {leaver}, updatedAt := now)
  }

  // ----- properties -----

  lemma FoundingHasOneOwner(owner: UserId, invited: seq<UserId>, now: Time)
    ensures OwnedBy(FoundingMembers(owner, invited, now), owner)
    ensures FoundingMembers(owner, invited, now).Keys == Founders(owner, invited)
  {
  }

  /** A group is refused exactly when nobody but its founder is invited. */
  lemma AloneIsNoGroup(owner: UserId, invited: seq<UserId>, now: Time)
    ensures GroupOf(owner, invited, now) == Err(Invalid) <==> forall u :: u in invited ==> u == owner
    ensures GroupOf(owner, invited, now).Err? <==> |FoundingMembers(owner, invited, now)| < 2
  {
    var members := FoundingMembers(owner, invited, now);
    if forall u :: u in invited ==> u == owner {
      assert members.Keys == {owner};
    } else {
      var u :| u in invited && u != owner;
      assert {owner, u} <= members.Keys;
      SubsetSize({owner, u}, members.Keys);
    }
  }

  lemma SubsetSize(a: set<UserId>, b: set<UserId>)
    requires a <= b
    ensures |a| <= |b|
  {
    assert b == a + (b - a);
  }

  /** Removal never takes the owner away, and nobody can remove a peer or a superior. */
  lemma RemovalKeepsTheOwner(conversation: Conversation, actor: UserId, target: UserId, now: Time, owner: UserId)
    requires OwnedBy(conversation.members, owner)
    ensures var r := WithoutMember(conversation, actor, target, now);
            && (r.Ok? ==> OwnedBy(r.value.members, owner) && r.value.members.Keys == conversation.members.Keys - {target})
            && (r.Ok? <==> conversation.CanRead(actor) && conversation.CanRead(target)
                           && conversation.members[target].role.Rank() < conversation.members[actor].role.Rank())
  {
    if conversation.CanRead(actor) && conversation.CanRead(target) && conversation.members[target].role == Owner {
      assert target == owner && conversation.members[actor].role.Rank() <= 2;
    }
  }

  /** A transfer succeeds exactly for the owner naming a member, and afterwards that member is the only owner. */
  lemma TransferMovesOwnership(conversation: Conversation, actor: UserId, target: UserId, now: Time, owner: UserId)
    requires OwnedBy(conversation.members, owner)
    ensures var r := WithOwner(conversation, actor, target, now);
            && (r.Ok? <==> actor == owner && target in conversation.members)
            && (r.Ok? ==> OwnedBy(r.value.members, target) && r.value.members.Keys == conversation.members.Keys
                          && forall u :: u in conversation.members && u != actor && u != target ==>
                                           r.value.members[u] == conversation.members[u])
  {
  }

  lemma SuccessorIsUnique(members: map<UserId, Participant>, leaver: UserId, u: UserId, v: UserId)
    requires IsSuccessor(members, leaver, u) && IsSuccessor(members, leaver, v)
    ensures u == v
  {
    assert Precedes(members, u, v) && Precedes(members, v, u);
  }

  lemma {:induction false} SuccessorExists(members: map<UserId, Participant>, candidates: set<UserId>) returns (heir: UserId)
    requires candidates <= members.Keys
    requires candidates != {}
    ensures heir in candidates && forall u :: u in candidates ==> Precedes(members, heir, u)
    decreases candidates
  {
    var c :| c in candidates;
    heir := c;
    var rest := candidates - {c};
    assert candidates == rest + {c};
    if rest != {} {
      var best := SuccessorExists(members, rest);
      if Precedes(members, best, c) {
        heir := best;
      }
    }
  }

  /** Deleting the owner of a group hands it to the member of highest role, earliest joined among those;
      the group then has that one owner, or nobody is left in it. */
  lemma DetachKeepsOneOwner(conversation: Conversation, leaver: UserId, now: Time)
    requires conversation.kind.Group? && HasOneOwner(conversation.members)
    ensures var after := Detached(conversation, leaver, now).members;
            && after.Keys == conversation.members.Keys - {leaver}
            && (after != map[] ==> HasOneOwner(after))
            && (conversation.HasRole(leaver, Owner) && after != map[] ==>
                  exists heir :: IsSuccessor(conversation.members, leaver, heir) && OwnedBy(after, heir))
            && (!conversation.HasRole(leaver, Owner) ==> forall u :: u in after ==> after[u] == conversation.members[u])
  {
    var members := conversation.members;
    var after := Detached(conversation, leaver, now).members;
    var owner :| OwnedBy(members, owner);
    if !conversation.HasRole(leaver, Owner) {
      assert owner in after ==> OwnedBy(after, owner);
    } else if members.Keys - {leaver} != {} {
      var h := SuccessorExists(members, members.Keys - {leaver});
      assert IsSuccessor(members, leaver, h);
      forall v | IsSuccessor(members, leaver, v) ensures v == h {
        SuccessorIsUnique(members, leaver, h, v);
      }
      assert OwnedBy(after, h);
    } else {
      assert after.Keys == {};
      assert after == map[];
    }
  }

  /** The heir of an owner: nobody who stays has a higher role, nobody of the same role joined earlier, and of those who joined
      at the same moment it is the last in order. Everybody else keeps their entry. */
  lemma HeirIsExact(conversation: Conversation, leaver: UserId, now: Time, heir: UserId, u: UserId)
    requires conversation.kind.Group? && OwnedBy(conversation.members, leaver)
    requires OwnedBy(Detached(conversation, leaver, now).members, heir)
    ensures heir in conversation.members && heir != leaver
    ensures u in conversation.members && u != leaver && u != heir ==>
              var m, h := conversation.members[u], conversation.members[heir];
              && (h.role == Administrator || m.role == Member)
              && (m.role == h.role ==> h.joinedAt <= m.joinedAt && (h.joinedAt == m.joinedAt ==> u < heir))
              && u in Detached(conversation, leaver, now).members && Detached(conversation, leaver, now).members[u] == m
  {
    var members := conversation.members;
    var h := SuccessorExists(members, members.Keys - {leaver});
    assert IsSuccessor(members, leaver, h);
    forall v | IsSuccessor(members, leaver, v) ensures v == h {
      SuccessorIsUnique(members, leaver, h, v);
    }
    assert h == heir;
  }

  /** Detaching never creates a second owner, whatever the group looked like before. */
  lemma DetachKeepsAtMostOneOwner(conversation: Conversation, leaver: UserId, now: Time)
    requires HasAtMostOneOwner(conversation.members)
    ensures HasAtMostOneOwner(Detached(conversation, leaver, now).members)
  {
  }

  // ----- the group as an object -----

  method Least(ids: set<UserId>) returns (least: UserId)
    requires ids != {}
    ensures least in ids && forall u :: u in ids ==> least <= u
  {
    least :| least in ids;
    var rest := ids - {least};
    while rest != {}
      invariant least in ids && rest <= ids
      invariant forall u :: u in ids && u !in rest ==> least <= u
    {
      var u :| u in rest;
      least := if u < least then u else least;
      rest := rest - {u};
    }
  }

  /** The iteration order of the server's ordered member map. */
  method Ascending(ids: set<UserId>) returns (ordered: seq<UserId>)
    ensures forall i, j :: 0 <= i < j < |ordered| ==> ordered[i] < ordered[j]
    ensures forall u :: u in ordered <==> u in ids
  {
    ordered := [];
    var rest := ids;
    while rest != {}
      invariant rest <= ids
      invariant forall i, j :: 0 <= i < j < |ordered| ==> ordered[i] < ordered[j]
      invariant forall u :: u in ordered <==> u in ids && u !in rest
      invariant forall i, v :: 0 <= i < |ordered| && v in rest ==> ordered[i] < v
    {
      var least := Least(rest);
      ordered, rest := ordered + [least], rest - {least};
    }
  }

  /** A conversation edited in place, as the server does under its store lock. */
  class Room {
    var kind: ConversationKind
    var members: map<UserId, Participant>
    var updatedAt: Time

    function Value(): Conversation
      reads this
    {
      Conversation(kind, members, updatedAt)
    }

    constructor Of(conversation: Conversation)
      ensures Value() == conversation
    {
      kind, members, updatedAt := conversation.kind, conversation.members, conversation.updatedAt;
    }

    /** The room of a new group, with as many members as there happen to be. */
    constructor Group(owner: UserId, invited: seq<UserId>, now: Time)
      ensures members == FoundingMembers(owner, invited, now)
      ensures kind == ConversationKind.Group && updatedAt == now
    {
      kind, updatedAt := ConversationKind.Group, now;
      members := map[owner := Participant(Owner, None, now)];
      new;
      for i := 0 to |invited|
        invariant kind == ConversationKind.Group && updatedAt == now
        invariant members == FoundingMembers(owner, invited[..i], now)
      {
        if invited[i] !in members {
          members := members[invited[i] := Participant(Member, None, now)];
        }
        assert invited[..i + 1] == invited[..i] + [invited[i]];
      }
      assert invited[..|invited|] == invited;
    }

    /** `Conversation::group`: a group needs somebody besides its founder. */
    static method Create(owner: UserId, invited: seq<UserId>, now: Time) returns (r: Result<Room>)
      ensures r.Err? <==> forall u :: u in invited ==> u == owner
      ensures r.Err? ==> r == Err(Invalid) && GroupOf(owner, invited, now) == Err(Invalid)
      ensures r.Ok? ==> fresh(r.value) && GroupOf(owner, invited, now) == Ok(r.value.Value())
    {
      var room := new Room.Group(owner, invited, now);
      AloneIsNoGroup(owner, invited, now);
      if |room.members| < 2 {
        return Err(Invalid);
      }
      return Ok(room);
    }

    method RemoveMember(actor: UserId, target: UserId, now: Time) returns (r: Result<()>)
      modifies this
      ensures var spec := WithoutMember(old(Value()), actor, target, now);
              if spec.Ok? then r.Ok? && Value() == spec.value else r == Err(spec.error) && Value() == old(Value())
    {
      if actor !in members {
        return Err(Forbidden);
      }
      var actorRole := members[actor].role;
      if target !in members {
        return Err(NotFound);
      }
      var targetRole := members[target].role;
      if targetRole == Owner || actorRole.Rank() <= targetRole.Rank() {
        return Err(Forbidden);
      }
      members := members - {target};
      updatedAt := now;
      return Ok(());
    }

    method TransferOwnership(actor: UserId, target: UserId, now: Time) returns (r: Result<()>)
      modifies this
      ensures var spec := WithOwner(old(Value()), actor, target, now);
              if spec.Ok? then r.Ok? && Value() == spec.value else r == Err(spec.error) && Value() == old(Value())
    {
      if actor !in members || members[actor].role != Owner {
        return Err(Forbidden);
      }
      if target !in members {
        return Err(NotFound);
      }
      members := members[actor := members[actor].(role := Member)];
      members := members[target := members[target].(role := Owner)];
      updatedAt := now;
      return Ok(());
    }

    /** Takes a deleted account out; the last maximum in ascending id order inherits an owned group. */
    method Detach(leaver: UserId, now: Time)
      requires leaver in members
      modifies this
      ensures Value() == Detached(old(Value()), leaver, now)
    {
      ghost var before := members;
      if kind.Group? && members[leaver].role == Owner {
        var ordered := Ascending(members.Keys);
        var heir := None;
        for i := 0 to |ordered|
          invariant heir.None? ==> forall j :: 0 <= j < i ==> ordered[j] == leaver
          invariant heir.Some? ==> heir.value in members && heir.value != leaver && heir.value in ordered[..i]
          invariant heir.Some? ==> forall j :: 0 <= j < i && ordered[j] != leaver ==> Precedes(members, heir.value, ordered[j])
        {
          if ordered[i] != leaver {
            if heir.None? || Precedes(members, ordered[i], heir.value) {
              heir := Some(ordered[i]);
            }
          }
        }
        if heir.Some? {
          assert IsSuccessor(before, leaver, heir.value);
          forall v | IsSuccessor(before, leaver, v) ensures v == heir.value {
            SuccessorIsUnique(before, leaver, heir.value, v);
          }
          members := members[heir.value := members[heir.value].(role := Owner)];
        } else {
          forall u | u in before ensures u == leaver {
            assert u in ordered;
          }
        }
      }
      members := members - {leaver};
      updatedAt := now;
    }
  }
}
