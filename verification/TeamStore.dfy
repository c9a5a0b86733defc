/** Team membership (`team/store.rs`, in-memory mode): who belongs to which account, and the
    invites that are open. Times are in milliseconds. */
module TeamStore {
  import opened Prelude
  import Text

  const INVITE_TTL: int := 7 * 24 * 60 * 60 * 1000

  datatype Role = Owner | Admin | ReadOnly {
    predicate CanInviteAs() { Admin? || ReadOnly? }
  }

  datatype TeamError = Invalid | Conflict | Forbidden | NotFound | Expired | EmailMismatch

  datatype Member = Member(
    userId: string,
    accountId: string,
    email: Option<string>,
    firstName: Option<string>,
    lastName: Option<string>,
    role: Role,
    createdAt: int
  )

  datatype Invite = Invite(
    id: string,
    accountId: string,
    email: string,
    role: Role,
    invitedBy: string,
    expiresAt: int,
    createdAt: int
  )

  /** The signed-in user as authentication presents it. */
  datatype AuthUser = AuthUser(
    userId: string,
    accountId: string,
    email: Option<string>,
    firstName: Option<string>,
    lastName: Option<string>,
    role: Role
  )

  datatype Team = Team(
    users: map<string, Member>,
    members: map<string, map<string, Member>>,
    invites: map<string, Invite>
  )

  // ----- reading -----

  predicate IsExpired(invite: Invite, now: int) { invite.expiresAt <= now }

  function MembersOf(t: Team, account: string): map<string, Member> {
    if account in t.members then t.members[account] else map[]
  }

  /** Ids of the account's invites that have not expired. */
  function OpenInvites(t: Team, account: string, now: int): set<string> {
    set id | id in t.invites && t.invites[id].accountId == account && !IsExpired(t.invites[id], now)
  }

  /** Seats in use: members plus open invites. */
  function SeatUsage(t: Team, account: string, now: int): nat {
    |MembersOf(t, account)| + |OpenInvites(t, account, now)|
  }

  function NormalizeEmail(email: string): Option<string> {
    var e := Text.Lower(Text.Trim(email));
    if |e| < 5 || '@' !in e || '.' !in e then None else Some(e)
  }

  predicate HasEmail(m: Member, email: string) {
    m.email.Some? && Text.EqIgnoreCase(m.email.value, email)
  }

  // ----- writing -----

  function PutMember(t: Team, m: Member): Team {
    t.(members := t.members[m.accountId := MembersOf(t, m.accountId)[m.userId := m]],
       users := t.users[m.userId := m])
  }

  function DropMember(t: Team, account: string, user: string): Team {
    t.(members := if account in t.members then t.members[account := t.members[account] - {user}] else t.members,
       users := if user in t.users && t.users[user].accountId == account then t.users - {user} else t.users)
  }

  function DropInvite(t: Team, id: string): Team { t.(invites := t.invites - {id}) }

  // ----- calls -----

  /** A member's record brought up to date with what authentication says. */
  function Refreshed(m: Member, user: AuthUser): Member {
    m.(email := if user.email.Some? then user.email else m.email,
       firstName := if user.firstName.Some? then user.firstName else m.firstName,
       lastName := if user.lastName.Some? then user.lastName else m.lastName)
  }

  function ResolveMembership(t: Team, user: AuthUser, now: int): (Team, AuthUser) {
    if user.userId in t.users then
      var m := t.users[user.userId];
      var updated := Refreshed(m, user);
      (if updated == m then t else PutMember(t, updated),
       user.(accountId := m.accountId, role := m.role,
             email := if user.email.None? then m.email else user.email))
    else
      (PutMember(t, Member(user.userId, user.userId, user.email, user.firstName, user.lastName, Owner, now)),
       user.(accountId := user.userId, role := Owner))
  }

  function CreateInvite(t: Team, account: string, email: string, role: Role, invitedBy: string,
                        id: string, now: int): (Team, Result<Invite, TeamError>)
  {
    if !role.CanInviteAs() then (t, Err(Invalid))
    else if NormalizeEmail(email).None? then (t, Err(Invalid))
    else
      var e := NormalizeEmail(email).value;
      if exists u :: u in MembersOf(t, account) && HasEmail(MembersOf(t, account)[u], e) then (t, Err(Conflict))
      else if exists i :: i in OpenInvites(t, account, now) && t.invites[i].email == e then (t, Err(Conflict))
      else
        var invite := Invite(id, account, e, role, invitedBy, now + INVITE_TTL, now);
        (t.(invites := t.invites[id := invite]), Ok(invite))
  }

  function RevokeInvite(t: Team, account: string, id: string): (Team, Result<(), TeamError>) {
    if id !in t.invites || t.invites[id].accountId != account then (t, Err(NotFound))
    else (DropInvite(t, id), Ok(()))
  }

  function RemoveMember(t: Team, account: string, user: string): (Team, Result<(), TeamError>) {
    if user !in MembersOf(t, account) then (t, Err(NotFound))
    else if MembersOf(t, account)[user].role.Owner? then (t, Err(Forbidden))
    else (DropMember(t, account, user), Ok(()))
  }

  function PatchMemberRole(t: Team, account: string, user: string, role: Role): (Team, Result<Member, TeamError>) {
    if !role.CanInviteAs() then (t, Err(Invalid))
    else if user !in MembersOf(t, account) then (t, Err(NotFound))
    else if MembersOf(t, account)[user].role.Owner? then (t, Err(Forbidden))
    else
      var m := MembersOf(t, account)[user].(role := role);
      (PutMember(t, m), Ok(m))
  }

  /** A member may leave the account they are in: anyone but an owner, and an owner who is
      alone with no open invite. */
  predicate MayLeave(t: Team, m: Member, now: int) {
    !m.role.Owner? || (|MembersOf(t, m.accountId)| <= 1 && OpenInvites(t, m.accountId, now) == {})
  }

  function LeaveCurrent(t: Team, user: string): Team {
    if user in t.users then DropMember(t, t.users[user].accountId, user) else t
  }

  function AcceptInvite(t: Team, token: string, user: AuthUser, now: int): (Team, Result<Member, TeamError>) {
    if token !in t.invites then (t, Err(NotFound))
    else
      var invite := t.invites[token];
      if IsExpired(invite, now) then (DropInvite(t, invite.id), Err(Expired))
      else if user.email.None? then (t, Err(Invalid))
      else if NormalizeEmail(user.email.value).None? then (t, Err(Invalid))
      else if NormalizeEmail(user.email.value).value != invite.email then (t, Err(EmailMismatch))
      else if user.userId in t.users && t.users[user.userId].accountId == invite.accountId then (t, Err(Conflict))
      else if user.userId in t.users && !MayLeave(t, t.users[user.userId], now) then (t, Err(Conflict))
      else
        var left := LeaveCurrent(t, user.userId);
        var m := Member(user.userId, invite.accountId, Some(invite.email), user.firstName, user.lastName,
                        invite.role, now);
        (DropInvite(PutMember(left, m), invite.id), Ok(m))
  }

  // ----- the store -----

  class Store {
    var users: map<string, Member>
    var members: map<string, map<string, Member>>
    var invites: map<string, Invite>

    constructor ()
      ensures State() == Team(map[], map[], map[])
    {
      users, members, invites := map[], map[], map[];
    }

    function State(): Team
      reads this
    {
      Team(users, members, invites)
    }

    method Put(m: Member)
      modifies this
      ensures State() == PutMember(old(State()), m)
    {
      var others := if m.accountId in members then members[m.accountId] else map[];
      members := members[m.accountId := others[m.userId := m]];
      users := users[m.userId := m];
    }

    method Delete(account: string, user: string)
      modifies this
      ensures State() == DropMember(old(State()), account, user)
    {
      if account in members {
        members := members[account := members[account] - {user}];
      }
      if user in users && users[user].accountId == account {
        users := users - {user};
      }
    }

    method Resolve(user: AuthUser, now: int) returns (u: AuthUser)
      modifies this
      ensures (State(), u) == ResolveMembership(old(State()), user, now)
    {
      u := user;
      if user.userId in users {
        var member := users[user.userId];
        u := u.(accountId := member.accountId, role := member.role);
        if u.email.None? {
          u := u.(email := member.email);
        }
        var dirty := false;
        if u.email.Some? && u.email != member.email {
          member := member.(email := u.email);
          dirty := true;
        }
        if u.firstName.Some? && member.firstName != u.firstName {
          member := member.(firstName := u.firstName);
          dirty := true;
        }
        if u.lastName.Some? && member.lastName != u.lastName {
          member := member.(lastName := u.lastName);
          dirty := true;
        }
        if dirty {
          Put(member);
        }
        return;
      }
      var member := Member(user.userId, user.userId, user.email, user.firstName, user.lastName, Owner, now);
      Put(member);
      u := u.(accountId := member.accountId, role := Owner);
    }

    method OpenInvite(account: string, email: string, role: Role, invitedBy: string, id: string, now: int)
      returns (r: Result<Invite, TeamError>)
      modifies this
      ensures (State(), r) == CreateInvite(old(State()), account, email, role, invitedBy, id, now)
    {
      if !role.CanInviteAs() {
        return Err(Invalid);
      }
      var normalized := NormalizeEmail(email);
      if normalized.None? {
        return Err(Invalid);
      }
      var present := MembersOf(State(), account);
      if exists u :: u in present && HasEmail(present[u], normalized.value) {
        return Err(Conflict);
      }
      var open := OpenInvites(State(), account, now);
      if exists i :: i in open && invites[i].email == normalized.value {
        return Err(Conflict);
      }
      var invite := Invite(id, account, normalized.value, role, invitedBy, now + INVITE_TTL, now);
      invites := invites[id := invite];
      r := Ok(invite);
    }

    method Revoke(account: string, id: string) returns (r: Result<(), TeamError>)
      modifies this
      ensures (State(), r) == RevokeInvite(old(State()), account, id)
    {
      if id !in invites || invites[id].accountId != account {
        return Err(NotFound);
      }
      invites := invites - {id};
      r := Ok(());
    }

    method Remove(account: string, user: string) returns (r: Result<(), TeamError>)
      modifies this
      ensures (State(), r) == RemoveMember(old(State()), account, user)
    {
      var present := MembersOf(State(), account);
      if user !in present {
        return Err(NotFound);
      }
      if present[user].role.Owner? {
        return Err(Forbidden);
      }
      Delete(account, user);
      r := Ok(());
    }

    method PatchRole(account: string, user: string, role: Role) returns (r: Result<Member, TeamError>)
      modifies this
      ensures (State(), r) == PatchMemberRole(old(State()), account, user, role)
    {
      if role.Owner? {
        return Err(Invalid);
      }
      var present := MembersOf(State(), account);
      if user !in present {
        return Err(NotFound);
      }
      var member := present[user];
      if member.role.Owner? {
        return Err(Forbidden);
      }
      member := member.(role := role);
      Put(member);
      r := Ok(member);
    }

    method Accept(token: string, user: AuthUser, now: int) returns (r: Result<Member, TeamError>)
      modifies this
      ensures (State(), r) == AcceptInvite(old(State()), token, user, now)
    {
      if token !in invites {
        return Err(NotFound);
      }
      var invite := invites[token];
      if IsExpired(invite, now) {
        invites := invites - {invite.id};
        return Err(Expired);
      }
      if user.email.None? {
        return Err(Invalid);
      }
      var email := NormalizeEmail(user.email.value);
      if email.None? {
        return Err(Invalid);
      }
      if email.value != invite.email {
        return Err(EmailMismatch);
      }
      if user.userId in users {
        var existing := users[user.userId];
        if existing.accountId == invite.accountId {
          return Err(Conflict);
        }
        if existing.role.Owner? {
          var present := MembersOf(State(), existing.accountId);
          var open := OpenInvites(State(), existing.accountId, now);
          if |present| > 1 || open != {} {
            return Err(Conflict);
          }
        }
        Delete(existing.accountId, user.userId);
      }
      var member := Member(user.userId, invite.accountId, Some(invite.email), user.firstName, user.lastName,
                           invite.role, now);
      Put(member);
      invites := invites - {invite.id};
      r := Ok(member);
    }

    /** Members and open invites of an account, counted. */
    method Usage(account: string, now: int) returns (seats: nat)
      ensures seats == SeatUsage(State(), account, now)
    {
      var present := MembersOf(State(), account);
      var open := OpenInvites(State(), account, now);
      seats := |present| + |open|;
    }
  }
}
