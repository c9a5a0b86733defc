/** Team membership over whole runs of store calls, time only moving forward. */
module TeamRuns {
  import opened Prelude
  import opened TeamStore

  /** The store, the clock, the invite ids handed out so far and the invites accepted, in
      order. */
  datatype State = State(team: Team, now: int, issued: set<string>, accepted: seq<string>)

  datatype Call =
    | DoResolve(guest: AuthUser)
    | DoInvite(account: string, email: string, role: Role, invitedBy: string, id: string)
    | DoRevoke(account: string, id: string)
    | DoRemove(account: string, user: string)
    | DoPatch(account: string, user: string, role: Role)
    | DoAccept(token: string, guest: AuthUser)

  function Initial(now: int): State { State(Team(map[], map[], map[]), now, {}, []) }

  /** One call at time `now`. An invitation comes from a current member of the account (the
      handler authenticates first) and has an id never used before. */
  function Step(s: State, call: Call, now: int): Option<State> {
    if now < s.now then None
    else
      match call
      case DoResolve(user) => Some(s.(team := ResolveMembership(s.team, user, now).0, now := now))
      case DoInvite(account, email, role, invitedBy, id) =>
        if invitedBy !in MembersOf(s.team, account) || id in s.issued then None
        else
          Some(s.(team := CreateInvite(s.team, account, email, role, invitedBy, id, now).0,
                  now := now, issued := s.issued + {id}))
      case DoRevoke(account, id) => Some(s.(team := RevokeInvite(s.team, account, id).0, now := now))
      case DoRemove(account, user) => Some(s.(team := RemoveMember(s.team, account, user).0, now := now))
      case DoPatch(account, user, role) => Some(s.(team := PatchMemberRole(s.team, account, user, role).0, now := now))
      case DoAccept(token, user) =>
        var r := AcceptInvite(s.team, token, user, now);
        Some(s.(team := r.0, now := now, accepted := if r.1.Ok? then s.accepted + [token] else s.accepted))
  }

  function Run(start: int, calls: seq<(Call, int)>): Option<State> {
    if calls == [] then Some(Initial(start))
    else
      match Run(start, calls[..|calls| - 1])
      case None => None
      case Some(s) => Step(s, calls[|calls| - 1].0, calls[|calls| - 1].1)
  }

  // ----- the invariant -----

  function MemberAt(t: Team, account: string, user: string): Option<Member> {
    if user in MembersOf(t, account) then Some(MembersOf(t, account)[user]) else None
  }

  ghost predicate IsOpen(t: Team, account: string, id: string, now: int) {
    id in t.invites && t.invites[id].accountId == account && !IsExpired(t.invites[id], now)
  }

  /** The user map and the account maps describe the same memberships. */
  ghost predicate MapsAgree(t: Team) {
    && (forall u :: u in t.users ==> t.users[u].userId == u)
    && (forall a, u :: MemberAt(t, a, u)
                       == if u in t.users && t.users[u].accountId == a then Some(t.users[u]) else None)
  }

  ghost predicate HasOwner(t: Team, account: string) {
    account in t.users && t.users[account].accountId == account && t.users[account].role.Owner?
  }

  ghost predicate Populated(t: Team, account: string, now: int) {
    || (exists u :: MemberAt(t, account, u).Some?)
    || (exists id :: IsOpen(t, account, id, now))
  }

  /** An account that someone is in or is invited to has its owner in place. */
  ghost predicate Owned(t: Team, now: int) {
    && (forall a, u :: MemberAt(t, a, u).Some? ==> HasOwner(t, a))
    && (forall a, id :: IsOpen(t, a, id, now) ==> HasOwner(t, a))
    && (forall u :: u in t.users && t.users[u].role.Owner? ==> t.users[u].accountId == u)
  }

  ghost predicate InvitesOk(t: Team, issued: set<string>) {
    forall id :: id in t.invites ==> t.invites[id].id == id && t.invites[id].role.CanInviteAs() && id in issued
  }

  ghost predicate OneOpenPerEmail(t: Team, now: int) {
    forall a, i, j :: IsOpen(t, a, i, now) && IsOpen(t, a, j, now) && t.invites[i].email == t.invites[j].email
                      ==> i == j
  }

  ghost predicate AcceptedOnce(s: State) {
    && (forall i :: 0 <= i < |s.accepted| ==> s.accepted[i] in s.issued && s.accepted[i] !in s.team.invites)
    && (forall i, j :: 0 <= i < j < |s.accepted| ==> s.accepted[i] != s.accepted[j])
  }

  ghost predicate Inv(s: State) {
    && MapsAgree(s.team) && Owned(s.team, s.now) && InvitesOk(s.team, s.issued)
    && OneOpenPerEmail(s.team, s.now) && AcceptedOnce(s)
  }

  // ----- preservation -----

  lemma PutMemberAt(t: Team, m: Member)
    ensures forall a, u :: MemberAt(PutMember(t, m), a, u)
                           == if a == m.accountId && u == m.userId then Some(m) else MemberAt(t, a, u)
  {}

  lemma DropMemberAt(t: Team, account: string, user: string)
    ensures forall a, u :: MemberAt(DropMember(t, account, user), a, u)
                           == if a == account && u == user then None else MemberAt(t, a, u)
  {}

  /** Invites only expire as time goes by. */
  lemma LaterKeeps(s: State, now: int)
    requires Inv(s) && s.now <= now
    ensures Inv(s.(now := now))
  {
    forall a, id | IsOpen(s.team, a, id, now) ensures IsOpen(s.team, a, id, s.now) {}
  }

  /** Only memberships changed: the invites' part of the invariant carries over. */
  lemma SameInvites(s: State, t': Team)
    requires Inv(s) && t'.invites == s.team.invites
    ensures forall a, id :: IsOpen(t', a, id, s.now) == IsOpen(s.team, a, id, s.now)
    ensures InvitesOk(t', s.issued) && OneOpenPerEmail(t', s.now) && AcceptedOnce(s.(team := t'))
  {}

  /** Replacing a member's record by one of the same account keeps the maps in step. */
  lemma PutSameKeeps(s: State, m: Member)
    requires Inv(s) && m.userId in s.team.users && s.team.users[m.userId].accountId == m.accountId
    requires m.role.Owner? <==> s.team.users[m.userId].role.Owner?
    ensures Inv(s.(team := PutMember(s.team, m)))
  {
    var t' := PutMember(s.team, m);
    PutMemberAt(s.team, m);
    SameInvites(s, t');
    forall a | HasOwner(s.team, a) ensures HasOwner(t', a) {}
    assert MemberAt(s.team, m.accountId, m.userId).Some?;
  }

  /** Someone unknown to the store becomes the owner of an account of their own. */
  lemma NewOwnerKeeps(s: State, m: Member)
    requires Inv(s) && m.userId !in s.team.users && m.accountId == m.userId && m.role.Owner?
    ensures Inv(s.(team := PutMember(s.team, m)))
  {
    var t' := PutMember(s.team, m);
    PutMemberAt(s.team, m);
    SameInvites(s, t');
    forall a | HasOwner(s.team, a) ensures HasOwner(t', a) {}
  }

  lemma ResolveKeeps(s: State, user: AuthUser)
    requires Inv(s)
    ensures Inv(s.(team := ResolveMembership(s.team, user, s.now).0))
  {
    if user.userId in s.team.users {
      PutSameKeeps(s, Refreshed(s.team.users[user.userId], user));
    } else {
      NewOwnerKeeps(s, Member(user.userId, user.userId, user.email, user.firstName, user.lastName, Owner, s.now));
    }
  }

  lemma AddInviteKeeps(s: State, invite: Invite)
    requires Inv(s) && invite.id !in s.issued && invite.role.CanInviteAs() && HasOwner(s.team, invite.accountId)
    requires forall i :: IsOpen(s.team, invite.accountId, i, s.now) ==> s.team.invites[i].email != invite.email
    ensures Inv(s.(team := s.team.(invites := s.team.invites[invite.id := invite]),
                   issued := s.issued + {invite.id}))
  {
    var t' := s.team.(invites := s.team.invites[invite.id := invite]);
    forall a, u ensures MemberAt(t', a, u) == MemberAt(s.team, a, u) {}
    forall a, i | i != invite.id ensures IsOpen(t', a, i, s.now) == IsOpen(s.team, a, i, s.now) {}
    forall a ensures HasOwner(t', a) == HasOwner(s.team, a) {}
  }

  lemma CreateInviteKeeps(s: State, account: string, email: string, role: Role, invitedBy: string, id: string)
    requires Inv(s) && invitedBy in MembersOf(s.team, account) && id !in s.issued
    ensures Inv(s.(team := CreateInvite(s.team, account, email, role, invitedBy, id, s.now).0,
                   issued := s.issued + {id}))
  {
    var r := CreateInvite(s.team, account, email, role, invitedBy, id, s.now);
    assert MemberAt(s.team, account, invitedBy).Some?;
    if r.1.Ok? {
      forall i | IsOpen(s.team, account, i, s.now) ensures s.team.invites[i].email != r.1.value.email {
        assert i in OpenInvites(s.team, account, s.now);
      }
      AddInviteKeeps(s, r.1.value);
    }
  }

  lemma DropInviteKeeps(s: State, id: string)
    requires Inv(s)
    ensures Inv(s.(team := DropInvite(s.team, id)))
  {
    var t' := DropInvite(s.team, id);
    forall a, u ensures MemberAt(t', a, u) == MemberAt(s.team, a, u) {}
    forall a, i | IsOpen(t', a, i, s.now) ensures IsOpen(s.team, a, i, s.now) {}
    forall a ensures HasOwner(t', a) == HasOwner(s.team, a) {}
  }

  /** A member who may leave does so without orphaning the account. */
  lemma LeaveKeeps(s: State, user: string)
    requires Inv(s) && user in s.team.users && MayLeave(s.team, s.team.users[user], s.now)
    ensures Inv(s.(team := DropMember(s.team, s.team.users[user].accountId, user)))
  {
    var t := s.team;
    var account := t.users[user].accountId;
    var t' := DropMember(t, account, user);
    DropMemberAt(t, account, user);
    SameInvites(s, t');
    assert MemberAt(t, account, user).Some?;
    forall a | HasOwner(t, a) && (a != account || !t.users[user].role.Owner?) ensures HasOwner(t', a) {}
    if t.users[user].role.Owner? {
      forall u | MemberAt(t', account, u).Some? ensures false {
        assert MemberAt(t, account, u).Some?;
        TwoMembers(MembersOf(t, account), user, u);
      }
      forall id | IsOpen(t', account, id, s.now) ensures false {
        OpenIsListed(t, account, id, s.now);
      }
    }
  }

  lemma OpenIsListed(t: Team, account: string, id: string, now: int)
    requires IsOpen(t, account, id, now)
    ensures id in OpenInvites(t, account, now)
  {}

  lemma TwoMembers(m: map<string, Member>, u: string, v: string)
    requires u in m && v in m && u != v
    ensures |m| >= 2
  {
    assert |m.Keys - {u}| + 1 == |m.Keys|;
    assert v in m.Keys - {u};
  }

  /** A newcomer joins an account whose owner is in place. */
  lemma JoinKeeps(s: State, m: Member)
    requires Inv(s) && m.userId !in s.team.users && !m.role.Owner? && HasOwner(s.team, m.accountId)
    ensures Inv(s.(team := PutMember(s.team, m)))
  {
    var t' := PutMember(s.team, m);
    PutMemberAt(s.team, m);
    SameInvites(s, t');
    forall a | HasOwner(s.team, a) ensures HasOwner(t', a) {}
  }

  /** Leaving one account and joining the inviting one, whose open invite it is. */
  lemma MoveKeeps(s: State, token: string, m: Member)
    requires Inv(s) && IsOpen(s.team, m.accountId, token, s.now) && !m.role.Owner?
    requires m.userId in s.team.users ==>
               && s.team.users[m.userId].accountId != m.accountId
               && MayLeave(s.team, s.team.users[m.userId], s.now)
    ensures Inv(s.(team := PutMember(LeaveCurrent(s.team, m.userId), m)))
  {
    var left := s.(team := LeaveCurrent(s.team, m.userId));
    if m.userId in s.team.users {
      LeaveKeeps(s, m.userId);
    }
    assert IsOpen(left.team, m.accountId, token, s.now);
    JoinKeeps(left, m);
  }

  lemma AcceptKeeps(s: State, token: string, user: AuthUser)
    requires Inv(s)
    ensures var r := AcceptInvite(s.team, token, user, s.now);
            Inv(s.(team := r.0, accepted := if r.1.Ok? then s.accepted + [token] else s.accepted))
  {
    var r := AcceptInvite(s.team, token, user, s.now);
    if r.1.Ok? {
      var m := r.1.value;
      assert IsOpen(s.team, m.accountId, token, s.now);
      MoveKeeps(s, token, m);
      var moved := s.(team := PutMember(LeaveCurrent(s.team, m.userId), m));
      AcceptedInviteKeeps(moved, token);
    } else if r.0 != s.team {
      DropInviteKeeps(s, token);
    }
  }

  lemma AcceptedInviteKeeps(s: State, token: string)
    requires Inv(s) && token in s.team.invites
    ensures Inv(s.(team := DropInvite(s.team, token), accepted := s.accepted + [token]))
  {
    DropInviteKeeps(s, token);
  }

  lemma RemoveKeeps(s: State, account: string, user: string)
    requires Inv(s)
    ensures Inv(s.(team := RemoveMember(s.team, account, user).0))
  {
    if RemoveMember(s.team, account, user).1.Ok? {
      assert MemberAt(s.team, account, user).Some?;
      LeaveKeeps(s, user);
    }
  }

  lemma PatchKeeps(s: State, account: string, user: string, role: Role)
    requires Inv(s)
    ensures Inv(s.(team := PatchMemberRole(s.team, account, user, role).0))
  {
    var r := PatchMemberRole(s.team, account, user, role);
    if r.1.Ok? {
      assert MemberAt(s.team, account, user).Some?;
      PutSameKeeps(s, r.1.value);
    }
  }

  lemma StepKeepsInv(s: State, call: Call, now: int)
    requires Inv(s) && Step(s, call, now).Some?
    ensures Inv(Step(s, call, now).value)
  {
    LaterKeeps(s, now);
    var later := s.(now := now);
    match call
    case DoResolve(user) => ResolveKeeps(later, user);
    case DoInvite(account, email, role, invitedBy, id) =>
      CreateInviteKeeps(later, account, email, role, invitedBy, id);
    case DoRevoke(account, id) => DropInviteKeeps(later, id);
    case DoRemove(account, user) => RemoveKeeps(later, account, user);
    case DoPatch(account, user, role) => PatchKeeps(later, account, user, role);
    case DoAccept(token, user) => AcceptKeeps(later, token, user);
  }

  lemma {:induction false} RunKeepsInv(start: int, calls: seq<(Call, int)>)
    requires Run(start, calls).Some?
    ensures Inv(Run(start, calls).value)
    decreases |calls|
  {
    if calls == [] {
    } else {
      var last := |calls| - 1;
      RunKeepsInv(start, calls[..last]);
      StepKeepsInv(Run(start, calls[..last]).value, calls[last].0, calls[last].1);
    }
  }

  // ----- results -----

  /** In every reachable state: a user is in exactly the account the user map names, with the
      same record; and an account with a member or an open invite has exactly one owner,
      whose user id is the account id. */
  lemma OwnershipOverRuns(start: int, calls: seq<(Call, int)>, account: string, user: string)
    requires Run(start, calls).Some?
    ensures var s := Run(start, calls).value;
            var at := MemberAt(s.team, account, user);
            && (at.Some? <==> user in s.team.users && s.team.users[user].accountId == account)
            && (at.Some? ==> at.value == s.team.users[user] && (at.value.role.Owner? <==> user == account))
            && (Populated(s.team, account, s.now) ==> MemberAt(s.team, account, account).Some?)
  {
    RunKeepsInv(start, calls);
    var t := Run(start, calls).value.team;
    if MemberAt(t, account, user).Some? {
      assert HasOwner(t, account);
    }
  }

  /** No invite is accepted twice, and an account has at most one open invite per address. */
  lemma InvitesOverRuns(start: int, calls: seq<(Call, int)>)
    requires Run(start, calls).Some?
    ensures var s := Run(start, calls).value;
            && (forall i, j :: 0 <= i < j < |s.accepted| ==> s.accepted[i] != s.accepted[j])
            && OneOpenPerEmail(s.team, s.now)
  {
    RunKeepsInv(start, calls);
  }

  /** Accepting moves a seat: the invited account's usage stays, since the open invite becomes
      a member; the account left has one less; every other account is untouched. */
  lemma AcceptConservesSeats(start: int, calls: seq<(Call, int)>, token: string, user: AuthUser, now: int)
    requires Run(start, calls).Some? && Run(start, calls).value.now <= now
    requires AcceptInvite(Run(start, calls).value.team, token, user, now).1.Ok?
    ensures var t := Run(start, calls).value.team;
            var t' := AcceptInvite(t, token, user, now).0;
            && token in t.invites
            && var joined := t.invites[token].accountId;
            && SeatUsage(t', joined, now) == SeatUsage(t, joined, now)
            && (user.userId in t.users ==>
                  var left := t.users[user.userId].accountId;
                  left != joined && SeatUsage(t', left, now) == SeatUsage(t, left, now) - 1)
            && (forall a :: a != joined && (user.userId in t.users ==> a != t.users[user.userId].accountId) ==>
                  SeatUsage(t', a, now) == SeatUsage(t, a, now))
  {
    RunKeepsInv(start, calls);
    var t := Run(start, calls).value.team;
    SeatsMove(t, token, user, now);
  }

  /** The members an accepted invite leaves in each account. */
  lemma AcceptedMembers(t: Team, token: string, user: AuthUser, now: int, account: string)
    requires MapsAgree(t) && AcceptInvite(t, token, user, now).1.Ok?
    ensures var t' := AcceptInvite(t, token, user, now).0;
            var joined := t.invites[token].accountId;
            && (account == joined ==> user.userId !in MembersOf(t, account)
                                      && MembersOf(t', account).Keys == MembersOf(t, account).Keys + {user.userId})
            && (account != joined ==> MembersOf(t', account).Keys == MembersOf(t, account).Keys - {user.userId})
            && (account != joined && !(user.userId in t.users && account == t.users[user.userId].accountId)
                ==> user.userId !in MembersOf(t, account))
  {
    assert MemberAt(t, account, user.userId).Some? <==>
        user.userId in t.users && t.users[user.userId].accountId == account;
  }

  lemma SeatsMove(t: Team, token: string, user: AuthUser, now: int)
    requires MapsAgree(t) && AcceptInvite(t, token, user, now).1.Ok?
    requires t.invites[token].id == token
    ensures var t' := AcceptInvite(t, token, user, now).0;
            var joined := t.invites[token].accountId;
            && SeatUsage(t', joined, now) == SeatUsage(t, joined, now)
            && (user.userId in t.users ==>
                  var left := t.users[user.userId].accountId;
                  left != joined && SeatUsage(t', left, now) == SeatUsage(t, left, now) - 1)
            && (forall a :: a != joined && (user.userId in t.users ==> a != t.users[user.userId].accountId) ==>
                  SeatUsage(t', a, now) == SeatUsage(t, a, now))
  {
    SeatsJoined(t, token, user, now);
    forall a | a != t.invites[token].accountId
      ensures SeatUsage(AcceptInvite(t, token, user, now).0, a, now)
              == if user.userId in t.users && a == t.users[user.userId].accountId
                 then SeatUsage(t, a, now) - 1 else SeatUsage(t, a, now)
    {
      SeatsElsewhere(t, token, user, now, a);
    }
  }

  lemma AcceptedInvites(t: Team, token: string, user: AuthUser, now: int, a: string)
    requires AcceptInvite(t, token, user, now).1.Ok? && t.invites[token].id == token
    ensures var t' := AcceptInvite(t, token, user, now).0;
            OpenInvites(t', a, now) == OpenInvites(t, a, now) - {token}
    ensures token in OpenInvites(t, a, now) <==> a == t.invites[token].accountId
  {}

  lemma SeatsJoined(t: Team, token: string, user: AuthUser, now: int)
    requires MapsAgree(t) && AcceptInvite(t, token, user, now).1.Ok? && t.invites[token].id == token
    ensures var joined := t.invites[token].accountId;
            SeatUsage(AcceptInvite(t, token, user, now).0, joined, now) == SeatUsage(t, joined, now)
  {
    var joined := t.invites[token].accountId;
    AcceptedMembers(t, token, user, now, joined);
    AcceptedInvites(t, token, user, now, joined);
    MapGrows(MembersOf(t, joined), MembersOf(AcceptInvite(t, token, user, now).0, joined), user.userId);
  }

  lemma SeatsElsewhere(t: Team, token: string, user: AuthUser, now: int, a: string)
    requires MapsAgree(t) && AcceptInvite(t, token, user, now).1.Ok? && t.invites[token].id == token
    requires a != t.invites[token].accountId
    ensures SeatUsage(AcceptInvite(t, token, user, now).0, a, now)
            == if user.userId in t.users && a == t.users[user.userId].accountId
               then SeatUsage(t, a, now) - 1 else SeatUsage(t, a, now)
  {
    AcceptedMembers(t, token, user, now, a);
    AcceptedInvites(t, token, user, now, a);
    assert MemberAt(t, a, user.userId).Some? <==> user.userId in t.users && a == t.users[user.userId].accountId;
    SeatsWithout(t, AcceptInvite(t, token, user, now).0, a, now, user.userId);
  }

  lemma SeatsWithout(t: Team, t': Team, a: string, now: int, user: string)
    requires MembersOf(t', a).Keys == MembersOf(t, a).Keys - {user}
    requires OpenInvites(t', a, now) == OpenInvites(t, a, now)
    ensures SeatUsage(t', a, now) == SeatUsage(t, a, now) - (if user in MembersOf(t, a) then 1 else 0)
  {
    SizeWithout(MembersOf(t', a), MembersOf(t, a), user);
  }

  lemma SizeWithout(small: map<string, Member>, big: map<string, Member>, user: string)
    requires small.Keys == big.Keys - {user}
    ensures |small| == |big| - (if user in big then 1 else 0)
  {
    if user in big {
      MapGrows(small, big, user);
    } else {
      SameKeysSameSize(small, big);
    }
  }

  lemma SameKeysSameSize(a: map<string, Member>, b: map<string, Member>)
    requires a.Keys == b.Keys
    ensures |a| == |b|
  {
    assert |a| == |a.Keys| && |b| == |b.Keys|;
  }

  lemma MapGrows(small: map<string, Member>, big: map<string, Member>, user: string)
    requires user !in small && big.Keys == small.Keys + {user}
    ensures |big| == |small| + 1
  {
    assert |big| == |big.Keys| && |small| == |small.Keys|;
  }
}
