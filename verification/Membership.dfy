/**
 Membership of meetings in the realtime server (LogicSystem.cpp, LogicDispatch.cpp): join, resume,
 disconnect, expire, leave and end, each an operation that owns its meeting from its first segment
 to its last, with storage calls that may fail between the segments. The state and its changes.
 */
module Membership {
  import opened Histories

  datatype User = User(id: nat)
  datatype Meeting = Meeting(id: nat)

  /** A connection, and the user that authenticates on it. */
  datatype Conn = Conn(id: nat, user: User)

  const GRACE: nat := 45

  datatype Member = Member(ticket: nat, generation: nat, last: nat, session: Conn, deadline: Option<nat>)

  /** The room_state of a member in the store. */
  datatype Mark = Absent | Active | Reconnecting

  /** `members` and `sessions` are the process's own, `roster` and `marks` are kept in the store. */
  datatype Room = Room(
    members: map<User, Member>, sessions: set<Conn>, roster: set<User>, marks: map<User, Mark>, limit: nat)

  datatype Presence = Presence(meeting: Meeting, joining: int, joined: bool)

  function MarkOf(r: Room, u: User): Mark {
    if u in r.marks then r.marks[u] else Absent
  }

  // ---- The table of users ----

  predicate MayReserve(users: map<User, Presence>, u: User, m: Meeting) {
    u in users ==> users[u].meeting == m
  }

  function Reserved(users: map<User, Presence>, u: User, m: Meeting): map<User, Presence> {
    if u in users then users[u := users[u].(joining := users[u].joining + 1)]
    else users[u := Presence(m, 1, false)]
  }

  function JoinFinished(users: map<User, Presence>, u: User, m: Meeting, joined: bool): map<User, Presence> {
    if u !in users || users[u].meeting != m then users
    else
      var p := Presence(m, users[u].joining - 1, users[u].joined || joined);
      if !p.joined && p.joining == 0 then users - {u} else users[u := p]
  }

  function Released(users: map<User, Presence>, u: User, m: Meeting): map<User, Presence> {
    if u in users && users[u].meeting == m then users - {u} else users
  }

  function RoomReleased(users: map<User, Presence>, m: Meeting): map<User, Presence> {
    map u | u in users && users[u].meeting != m :: users[u]
  }

  class UserTable {
    var users: map<User, Presence>

    constructor ()
      ensures users == map[]
    {
      users := map[];
    }

    method ReserveUser(u: User, m: Meeting) returns (granted: bool)
      modifies this
      ensures granted == MayReserve(old(users), u, m)
      ensures users == if granted then Reserved(old(users), u, m) else old(users)
    {
      if u !in users {
        users := users[u := Presence(m, 0, false)];
      }
      if users[u].meeting != m {
        return false;
      }
      users := users[u := users[u].(joining := users[u].joining + 1)];
      return true;
    }

    /** Called once for every granted reservation, so the count does not wrap. */
    method FinishJoin(u: User, m: Meeting, joined: bool)
      requires u in users && users[u].meeting == m ==> users[u].joining > 0
      modifies this
      ensures users == JoinFinished(old(users), u, m, joined)
    {
      if u !in users || users[u].meeting != m {
        return;
      }
      users := users[u := users[u].(joining := users[u].joining - 1)];
      users := users[u := users[u].(joined := users[u].joined || joined)];
      if !users[u].joined && users[u].joining == 0 {
        users := users - {u};
      }
    }

    method ReleaseUser(u: User, m: Meeting)
      modifies this
      ensures users == Released(old(users), u, m)
    {
      if u in users && users[u].meeting == m {
        users := users - {u};
      }
    }

    method ReleaseRoomUsers(m: Meeting)
      modifies this
      ensures users == RoomReleased(old(users), m)
    {
      var todo := users.Keys;
      while todo != {}
        invariant todo <= users.Keys <= old(users).Keys
        invariant forall u :: u in users ==> users[u] == old(users)[u]
        invariant forall u :: u in old(users) && u !in todo ==> (u in users <==> old(users)[u].meeting != m)
        decreases |todo|
      {
        var u :| u in todo;
        if users[u].meeting == m {
          users := users - {u};
        }
        todo := todo - {u};
      }
    }
  }

  // ---- Rooms ----

  /** The membership a successful join or resume leaves: a join starts a new one under a new ticket, a
      resume keeps the ticket and counts a takeover by another connection. */
  function Renewed(r: Room, c: Conn, resume: bool, ticket: nat, request: nat): Member
    requires resume ==> c.user in r.members
  {
    if resume then
      var held := r.members[c.user];
      Member(held.ticket, if held.session == c then held.generation else held.generation + 1, request, c, None)
    else Member(ticket, 1, 0, c, None)
  }

  function Bound(r: Room, c: Conn, resume: bool, already: bool, ticket: nat, request: nat): Room
    requires resume ==> c.user in r.members
  {
    r.(members := r.members[c.user := Renewed(r, c, resume, ticket, request)],
       sessions := (set d | d in r.sessions && (already ==> d.user != c.user)) + {c})
  }

  /** The connection that a binding takes the membership from. */
  function Superseded(r: Room, c: Conn): set<Conn> {
    if c.user in r.members && r.members[c.user].session != c then {r.members[c.user].session} else {}
  }

  function Dropped(r: Room, c: Conn, now: nat): Room {
    r.(sessions := r.sessions - {c},
       members := if c.user in r.members && r.members[c.user].session == c
         then r.members[c.user := r.members[c.user].(deadline := Some(now + GRACE))] else r.members)
  }

  predicate HasOther(r: Room, c: Conn) {
    exists d :: d in r.sessions && d != c && d.user == c.user
  }

  class MeetingRoom {
    var members: map<User, Member>
    var sessions: set<Conn>

    /** The segment of the join handler that follows its last storage call; answers the connection
        that has to be detached from the meeting and closed. */
    method Bind(ghost r: Room, c: Conn, resume: bool, already: bool, ticket: nat, request: nat)
        returns (superseded: set<Conn>)
      requires members == r.members && sessions == r.sessions && (resume ==> c.user in members)
      modifies this
      ensures members == Bound(r, c, resume, already, ticket, request).members
      ensures sessions == Bound(r, c, resume, already, ticket, request).sessions
      ensures superseded == Superseded(r, c)
    {
      superseded := {};
      if c.user in members && members[c.user].session != c {
        superseded := {members[c.user].session};
      }
      if !resume {
        members := members[c.user := Member(ticket, 1, 0, c, None)];
      } else {
        var member := members[c.user];
        if member.session != c {
          member := member.(generation := member.generation + 1);
        }
        members := members[c.user := member.(session := c, deadline := None, last := request)];
      }
      sessions := set d | d in sessions && d != c && !(already && d.user == c.user);
      sessions := sessions + {c};
      assert sessions == Bound(r, c, resume, already, ticket, request).sessions;
    }

    /** The first segment of the disconnect handler: whether the member has to be marked. */
    method Drop(ghost r: Room, c: Conn, now: nat) returns (mark: bool)
      requires members == r.members && sessions == r.sessions
      modifies this
      ensures members == Dropped(r, c, now).members && sessions == Dropped(r, c, now).sessions
      ensures mark == (c in r.sessions && !HasOther(r, c))
    {
      var contains, others := false, false;
      var todo := sessions;
      while todo != {}
        invariant todo <= sessions == r.sessions && members == r.members
        invariant contains <==> c in sessions - todo
        invariant others <==> exists d :: d in sessions - todo && d != c && d.user == c.user
        decreases |todo|
      {
        var d :| d in todo;
        todo := todo - {d};
        if d == c {
          contains := true;
        } else if d.user == c.user {
          assert d in sessions - todo;
          others := true;
        }
      }
      assert sessions - todo == sessions;
      sessions := sessions - {c};
      if c.user in members && members[c.user].session == c {
        members := members[c.user := members[c.user].(deadline := Some(now + GRACE))];
      }
      return contains && !others;
    }
  }
}
