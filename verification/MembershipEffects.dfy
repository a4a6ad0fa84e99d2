/**
 What the membership operations achieve as a whole: every operation is followed from its first segment to its
 last, whatever other meetings do between its storage calls, and what it leaves in the store, in the meeting
 and on the connection is compared with what it found.
 */
module MembershipEffects {
  import opened Histories
  import opened Membership
  import opened MembershipRuns

  /** The room as the operation found it and when; `clean`: none of its storage calls has failed so far. */
  datatype Track = Track(found: Room, began: nat, clean: bool)

  type Tracks = map<Meeting, Track>

  function Tracked(w: World, tracks: Tracks, step: Step): Tracks
    requires Enabled(w, step)
  {
    var next := Next(w, step);
    match step
    case Begin(m, _) => if m in next.active then tracks[m := Track(w.rooms[m], w.now, true)] else tracks
    case Advance(m, a) =>
      if m !in tracks then tracks
      else if m in next.active then tracks[m := tracks[m].(clean := tracks[m].clean && a.ok)]
      else tracks - {m}
    case _ => tracks
  }

  // ---- What has been done so far ----

  /** For everybody but u the room is as it was found. */
  ghost predicate Elsewhere(found: Room, r: Room, u: User) {
    && r.limit == found.limit
    && (forall v :: v != u ==> (v in r.roster <==> v in found.roster) && MarkOf(r, v) == MarkOf(found, v))
    && (forall v :: v != u ==> (v in r.members <==> v in found.members))
    && (forall v :: v != u && v in r.members ==> r.members[v] == found.members[v])
  }

  /** A join is let in: somebody new while there is a place, or, to take over, a member that has lost its
      connection or holds its ticket. */
  predicate LetIn(found: Room, u: User, resume: bool) {
    if u in found.roster then resume || MarkOf(found, u) == Reconnecting
    else !resume && |found.roster| < found.limit
  }

  ghost predicate JoinSince(t: Track, r: Room, op: Op)
    requires op.Join?
  {
    var u, f := op.c.user, t.found;
    && Elsewhere(f, r, u)
    && (op.joining != Reply ==> r.members == f.members)
    && (op.joining in {Check, Count, State, Add} ==> r.roster == f.roster && MarkOf(r, u) == MarkOf(f, u))
    && (op.joining == State ==> u in f.roster && !op.resume)
    && (op.joining !in {Check, Count} ==> (op.already <==> u in f.roster))
    && (op.joining !in {Check, Count, State} ==> LetIn(f, u, op.resume))
    && (op.joining in {Record, MarkActive, Activate, Bind, Reply, Undo} ==> r.roster == f.roster + {u})
    && (op.joining in {Record, MarkActive, Activate} ==> MarkOf(r, u) == MarkOf(f, u))
    && (op.joining == MarkActive ==> !op.already) && (op.joining == Activate ==> op.already)
    && (op.joining == Undo ==> !op.already && !t.clean)
    && (op.joining in {Bind, Reply} ==> MarkOf(r, u) == Active)
  }

  ghost predicate LeaveSince(t: Track, r: Room, op: Op)
    requires op.Leave?
  {
    var u, f := op.c.user, t.found;
    && Elsewhere(f, r, u) && r.members == f.members
    && r.roster == (if op.leaving == Remove then f.roster else f.roster - {u})
    && MarkOf(r, u) == (if op.leaving in {Remove, Delete} then MarkOf(f, u) else Absent)
  }

  /** The last connection of a stored member. */
  ghost predicate LosesLast(found: Room, c: Conn) {
    c in found.sessions && c.user in found.roster && forall d :: d in found.sessions && d.user == c.user ==> d == c
  }

  ghost predicate DisconnectSince(t: Track, r: Room, op: Op)
    requires op.Disconnect?
  {
    var u, f := op.c.user, t.found;
    && Elsewhere(f, r, u) && op.c !in r.sessions && r.roster == f.roster
    && (u in r.members <==> u in f.members)
    && (u in f.members && f.members[u].session == op.c ==>
          r.members[u] == f.members[u].(deadline := Some(t.began + GRACE)))
    && (u in f.members && f.members[u].session != op.c ==> r.members[u] == f.members[u])
    && (op.dropping in {Look, MarkLost} ==> MarkOf(r, u) == MarkOf(f, u))
    && (op.dropping in {Look, MarkLost, MarkDeadline} && t.clean ==>
          op.c in f.sessions && forall d :: d in f.sessions && d.user == u ==> d == op.c)
    && (op.dropping in {MarkLost, MarkDeadline} && t.clean ==> LosesLast(f, op.c))
    && (op.dropping == MarkDeadline ==> MarkOf(r, u) == Reconnecting)
    && (op.dropping == Rollback ==> !t.clean)
    && (op.dropping == Unbind && t.clean ==>
          MarkOf(r, u) == if LosesLast(f, op.c) then Reconnecting else MarkOf(f, u))
  }

  ghost predicate EndSince(t: Track, r: Room, op: Op)
    requires op.End?
  {
    var f := t.found;
    && r.limit == f.limit && r.members == f.members && r.roster == f.roster && op.todo <= f.roster
    && (forall v :: v !in f.roster ==> MarkOf(r, v) == MarkOf(f, v))
    && (op.ending in {Verify, List} ==> forall v :: MarkOf(r, v) == MarkOf(f, v))
    && (op.ending == Erase && t.clean ==> forall v :: v in f.roster && v !in op.todo ==> MarkOf(r, v) == Absent)
    && (op.ending == DropRoster && t.clean ==> forall v :: v in f.roster ==> MarkOf(r, v) == Absent)
  }

  ghost predicate ExpireSince(t: Track, r: Room, op: Op)
    requires op.Expire?
  {
    var u, f := op.u, t.found;
    && Elsewhere(f, r, u) && r.members == f.members
    && r.roster == (if op.expiring in {Read, Evict} then f.roster else f.roster - {u})
    && (op.expiring in {Read, Evict, Forget} ==> MarkOf(r, u) == MarkOf(f, u))
    && (op.expiring != Read ==> MarkOf(f, u) == Reconnecting)
    && (op.expiring == Finish && t.clean ==> MarkOf(r, u) == Absent)
  }

  ghost predicate Since(t: Track, r: Room, op: Op) {
    match op
    case Join(_, _, _, _, _, _, _) => JoinSince(t, r, op)
    case Leave(_, _) => LeaveSince(t, r, op)
    case Disconnect(_, _) => DisconnectSince(t, r, op)
    case End(_, _, _) => EndSince(t, r, op)
    case Expire(_, _) => ExpireSince(t, r, op)
  }

  // ---- What an operation has achieved when it ends ----

  /** The join takes hold: it was let in, its user is stored and active, and the connection is the member's and
      in the meeting. */
  ghost predicate JoinTakesHold(t: Track, op: Op, r: Room, after: World, m: Meeting)
    requires op.Join?
  {
    var u, f := op.c.user, t.found;
    && LetIn(f, u, op.resume) && Elsewhere(f, r, u)
    && r.roster == f.roster + {u} && MarkOf(r, u) == Active
    && u in r.members && r.members[u].session == op.c && r.members[u].deadline == None
    && (!op.resume ==> r.members[u].generation == 1 && (u in f.members ==> r.members[u].ticket != f.members[u].ticket))
    && (op.resume ==> u in f.members && r.members[u].ticket == f.members[u].ticket)
    && op.c in r.sessions && BoundTo(after, op.c, m)
  }

  /** The connection that binds stands in for those it supersedes, and for no others. */
  ghost predicate TakesOver(t: Track, op: Op, before: World, after: World, m: Meeting)
    requires op.Join? && m in after.rooms && m in before.rooms
  {
    var u, f, was, now := op.c.user, t.found, before.rooms[m].sessions, after.rooms[m];
    && (u in now.members && op.resume ==> u in f.members && now.members[u].last == op.request)
    && (u in now.members && u in f.members && op.resume ==>
          now.members[u].generation == f.members[u].generation + if f.members[u].session == op.c then 0 else 1)
    && (u in now.members && !op.resume ==> now.members[u].last == 0)
    && (forall d :: d in now.sessions <==> d == op.c || (d in was && (u in f.roster ==> d.user != u)))
    && (forall d: Conn :: d.user != u ==> (d in after.bound <==> d in before.bound))
    && (forall d: Conn :: d.user != u && d in after.bound ==> after.bound[d] == before.bound[d])
    && (u in f.members && f.members[u].session != op.c ==>
          f.members[u].session !in after.bound && f.members[u].session in after.closed)
    && (forall d :: d in after.closed ==>
          d in before.closed || (u in f.members && d == f.members[u].session && d != op.c))
  }

  /** The join is refused or fails: nobody's membership has changed, and only the joining user's place in the
      store can be left over. If no storage call failed, it had to be refused and has left nothing. */
  ghost predicate JoinFails(t: Track, op: Op, a: Answer, before: World, after: World, m: Meeting)
    requires op.Join? && m in after.rooms && m in before.rooms
  {
    var u, f, r := op.c.user, t.found, after.rooms[m];
    && Elsewhere(f, r, u) && r.members == f.members && after.bound == before.bound
    && (r.roster == f.roster || r.roster == f.roster + {u}) && (op.joining == Undo && a.ok ==> r.roster == f.roster)
    && (t.clean && a.ok ==>
          && r.roster == f.roster && MarkOf(r, u) == MarkOf(f, u)
          && (!LetIn(f, u, op.resume) || (op.resume && op.joining == Check && !MayResumeAt(f, u, op, before.now))))
  }

  /** The ticket is the member's, its time is not over, and the generation quoted is current, or older in a
      repetition of the request accepted last. */
  predicate MayResumeAt(found: Room, u: User, op: Op, now: nat)
    requires op.Join?
  {
    u in found.members && var held := found.members[u];
    && held.ticket == op.ticket && (held.deadline.None? || held.deadline.value > now)
    && (held.generation == op.known || (held.generation > op.known && held.last == op.request))
  }

  ghost predicate JoinEffect(t: Track, op: Op, a: Answer, before: World, after: World, m: Meeting)
    requires op.Join? && m in after.rooms && m in before.rooms
  {
    && (op.joining == Bind && m in after.active ==>
          JoinTakesHold(t, op, after.rooms[m], after, m) && TakesOver(t, op, before, after, m))
    && (m !in after.active && op.joining != Reply ==> JoinFails(t, op, a, before, after, m))
    && (op.joining == Check && m in after.active && op.resume ==> MayResumeAt(t.found, op.c.user, op, before.now))
  }

  ghost predicate LeaveEffect(t: Track, op: Op, a: Answer, before: World, after: World, m: Meeting)
    requires op.Leave? && m in after.rooms
  {
    var u, f, r := op.c.user, t.found, after.rooms[m];
    m !in after.active ==>
      && Elsewhere(f, r, u)
      && if op.leaving == Depart then
           && r.roster == f.roster - {u} && MarkOf(r, u) == Absent && r.members == f.members - {u}
           && op.c !in r.sessions && op.c !in after.bound && (u in after.users ==> after.users[u].meeting != m)
         else
           && !a.ok && r.members == f.members && after.bound == before.bound
           && (r.roster == f.roster || r.roster == f.roster - {u})
  }

  ghost predicate DisconnectEffect(t: Track, op: Op, a: Answer, after: World, m: Meeting)
    requires op.Disconnect? && m in after.rooms
  {
    && (op.dropping == Rollback && a.ok ==> MarkOf(after.rooms[m], op.c.user) == Active)
    && (m !in after.active ==>
          op.dropping == Unbind && op.c !in after.bound && DisconnectSince(t, after.rooms[m], op))
  }

  ghost predicate EndEffect(t: Track, op: Op, a: Answer, before: World, after: World, m: Meeting)
    requires op.End? && m in after.rooms
  {
    var f, r := t.found, after.rooms[m];
    m !in after.active ==>
      if op.ending == Verify then
        !a.ok && r.members == f.members && r.roster == f.roster && after.bound == before.bound
      else
        && r.members == map[] && r.sessions == {} && (forall c :: !BoundTo(after, c, m))
        && (forall u :: u in after.users ==> after.users[u].meeting != m)
        && (t.clean && a.ok ==> r.roster == {} && forall v :: v in f.roster ==> MarkOf(r, v) == Absent)
  }

  ghost predicate ExpireEffect(t: Track, op: Op, a: Answer, before: World, after: World, m: Meeting)
    requires op.Expire? && m in after.rooms
  {
    var u, f, r := op.u, t.found, after.rooms[m];
    m !in after.active ==>
      && Elsewhere(f, r, u) && after.bound == before.bound
      && if op.expiring == Finish then
           && MarkOf(f, u) == Reconnecting && r.roster == f.roster - {u} && r.members == f.members - {u}
           && (t.clean ==> MarkOf(r, u) == Absent) && (u in after.users ==> after.users[u].meeting != m)
         else
           && r.members == f.members && (r.roster == f.roster || (!a.ok && r.roster == f.roster - {u}))
           && (t.clean && a.ok ==> MarkOf(f, u) != Reconnecting)
  }

  ghost predicate Effect(t: Track, op: Op, a: Answer, before: World, after: World, m: Meeting)
    requires m in after.rooms && m in before.rooms
  {
    match op
    case Join(_, _, _, _, _, _, _) => JoinEffect(t, op, a, before, after, m)
    case Leave(_, _) => LeaveEffect(t, op, a, before, after, m)
    case Disconnect(_, _) => DisconnectEffect(t, op, a, after, m)
    case End(_, _, _) => EndEffect(t, op, a, before, after, m)
    case Expire(_, _) => ExpireEffect(t, op, a, before, after, m)
  }

  // ---- Segment by segment ----

  function Going(t: Track, a: Answer): Track {
    t.(clean := t.clean && a.ok)
  }

  /** What one storage call and the segment after it add. */
  ghost predicate Adds(t: Track, w: World, m: Meeting, a: Answer, v: World)
    requires m in w.rooms && m in w.active
  {
    && m in v.rooms && Effect(t, w.active[m], a, w, v, m)
    && (m in v.active ==> Since(Going(t, a), v.rooms[m], v.active[m]))
  }

  lemma MarksSet(r: Room, u: User, mark: Mark)
    ensures forall v :: MarkOf(SetMark(r, u, mark), v) == if v == u then mark else MarkOf(r, v)
  {
  }

  /** The operation goes on with another room and stage. */
  lemma GoesOn(t: Track, w: World, m: Meeting, a: Answer, r: Room, op: Op)
    requires m in w.rooms && m in w.active && Since(Going(t, a), r, op)
    requires w.active[m].Join? ==> w.active[m].joining != Bind
    requires w.active[m].Join? && w.active[m].joining == Check && w.active[m].resume ==>
      MayResumeAt(t.found, w.active[m].c.user, w.active[m], w.now)
    requires w.active[m].Disconnect? && w.active[m].dropping == Rollback && a.ok ==>
      MarkOf(r, w.active[m].c.user) == Active
    ensures Adds(t, w, m, a, SetOp(SetRoom(w, m, r), m, op))
    ensures r == w.rooms[m] ==> Adds(t, w, m, a, SetOp(w, m, op))
  {
    hide Since, MayResumeAt, JoinTakesHold, TakesOver, JoinFails, DisconnectSince, Elsewhere, MarkOf;
    assert SetRoom(w, m, w.rooms[m]) == w;
  }

  lemma JoinEnds(t: Track, w: World, m: Meeting, a: Answer, r: Room)
    requires m in w.rooms && m in w.active && w.active[m].Join? && w.active[m].joining != Reply
    requires var op, f := w.active[m], t.found;
      var u := op.c.user;
      && Elsewhere(f, r, u) && r.members == f.members && (r.roster == f.roster || r.roster == f.roster + {u})
      && (op.joining == Undo && a.ok ==> r.roster == f.roster)
      && (t.clean && a.ok ==>
            && r.roster == f.roster && MarkOf(r, u) == MarkOf(f, u)
            && (!LetIn(f, u, op.resume) || (op.resume && op.joining == Check && !MayResumeAt(f, u, op, w.now))))
    ensures Adds(t, w, m, a, Finished(SetRoom(w, m, r), m))
    ensures r == w.rooms[m] ==> Adds(t, w, m, a, Finished(w, m))
  {
    hide JoinTakesHold, TakesOver, Elsewhere, MayResumeAt, LetIn, MarkOf, JoinFinished;
    assert SetRoom(w, m, w.rooms[m]) == w;
  }

  /** A change of the joining user's own entries in the store. */
  lemma OwnEntries(f: Room, r: Room, u: User, roster: set<User>, mark: Mark)
    requires Elsewhere(f, r, u) && (forall v :: v != u ==> (v in roster <==> v in r.roster))
    ensures Elsewhere(f, r.(roster := roster), u) && Elsewhere(f, SetMark(r, u, mark), u)
    ensures MarkOf(SetMark(r, u, mark), u) == mark && MarkOf(r.(roster := roster), u) == MarkOf(r, u)
  {
  }

  lemma JoinChecksAdd(t: Track, w: World, m: Meeting, a: Answer)
    requires m in w.rooms && m in w.active && w.active[m].Join? && JoinSince(t, w.rooms[m], w.active[m])
    requires w.active[m].joining in {Check, Record}
    ensures Adds(t, w, m, a, JoinStep(w, m, a))
  {
    var op, r := w.active[m], w.rooms[m];
    var u := op.c.user;
    hide Elsewhere, MarkOf, Adds, Finished, BindStep, SetRoom, SetOp, LetIn;
    if op.joining == Check {
      if a.ok && (op.resume ==> MayResume(r, u, op, w.now)) { GoesOn(t, w, m, a, r, op.(joining := Count)); }
      else { JoinEnds(t, w, m, a, r); }
    } else {
      var next := op.(joining := if a.ok then (if op.already then Activate else MarkActive) else Undo);
      if a.ok || !op.already { GoesOn(t, w, m, a, r, next); } else { JoinEnds(t, w, m, a, r); }
    }
  }

  lemma JoinCountsAdd(t: Track, w: World, m: Meeting, a: Answer)
    requires m in w.rooms && m in w.active && w.active[m].Join? && JoinSince(t, w.rooms[m], w.active[m])
    requires w.active[m].joining in {Count, State}
    ensures Adds(t, w, m, a, JoinStep(w, m, a))
  {
    var op, r := w.active[m], w.rooms[m];
    var u := op.c.user;
    LimitOf(t.found, r, u);
    hide Elsewhere, MarkOf, Adds, Finished, BindStep, SetRoom, SetOp;
    if op.joining == Count {
      var already := u in r.roster;
      var next := op.(already := already, joining := if already && !op.resume then State else Add);
      if !a.ok || (!already && |r.roster| >= r.limit) || (op.resume && !already) { JoinEnds(t, w, m, a, r); }
      else { GoesOn(t, w, m, a, r, next); }
    } else {
      if a.ok && MarkOf(r, u) == Reconnecting { GoesOn(t, w, m, a, r, op.(joining := Add)); }
      else { JoinEnds(t, w, m, a, r); }
    }
  }

  lemma LimitOf(f: Room, r: Room, u: User)
    requires Elsewhere(f, r, u)
    ensures r.limit == f.limit
  {
  }

  lemma JoinAddAdds(t: Track, w: World, m: Meeting, a: Answer)
    requires m in w.rooms && m in w.active && w.active[m].Join? && JoinSince(t, w.rooms[m], w.active[m])
    requires w.active[m].joining == Add
    ensures Adds(t, w, m, a, JoinStep(w, m, a))
  {
    var op, r := w.active[m], w.rooms[m];
    var added := r.(roster := r.roster + {op.c.user});
    OwnEntries(t.found, r, op.c.user, added.roster, Active);
    hide Elsewhere, MarkOf, Adds, Finished, SetMark, LetIn, SetRoom, SetOp, BindStep;
    if a.ok {
      GoesOn(t, w, m, a, added, op.(joining := Record));
    } else {
      JoinEnds(t, w, m, a, added);
      JoinEnds(t, w, m, a, r);
    }
  }

  lemma JoinUndoAdds(t: Track, w: World, m: Meeting, a: Answer)
    requires m in w.rooms && m in w.active && w.active[m].Join? && JoinSince(t, w.rooms[m], w.active[m])
    requires w.active[m].joining == Undo
    ensures Adds(t, w, m, a, JoinStep(w, m, a))
  {
    var op, r := w.active[m], w.rooms[m];
    var removed := r.(roster := r.roster - {op.c.user});
    OwnEntries(t.found, r, op.c.user, removed.roster, Active);
    hide Elsewhere, MarkOf, Adds, Finished, SetMark, LetIn, SetRoom, SetOp, BindStep;
    assert removed.roster == t.found.roster;
    JoinEnds(t, w, m, a, removed);
    if !a.ok { JoinEnds(t, w, m, a, r); }
  }

  lemma JoinMarkAdd(t: Track, w: World, m: Meeting, a: Answer)
    requires m in w.rooms && m in w.active && w.active[m].Join? && JoinSince(t, w.rooms[m], w.active[m])
    requires w.active[m].joining in {MarkActive, Activate}
    ensures Adds(t, w, m, a, JoinStep(w, m, a))
  {
    var op, r := w.active[m], w.rooms[m];
    var u := op.c.user;
    var marked := SetMark(r, u, Active);
    OwnEntries(t.found, r, u, r.roster, Active);
    MarkKeeps(r, u, Active);
    hide Elsewhere, MarkOf, Adds, Finished, SetMark, LetIn, SetRoom, SetOp, BindStep;
    if a.ok {
      GoesOn(t, w, m, a, marked, op.(joining := Bind));
    } else if op.joining == MarkActive {
      GoesOn(t, w, m, a, marked, op.(joining := Undo));
      GoesOn(t, w, m, a, r, op.(joining := Undo));
    } else {
      JoinEnds(t, w, m, a, marked);
      JoinEnds(t, w, m, a, r);
    }
  }

  lemma MarkKeeps(r: Room, u: User, mark: Mark)
    ensures SetMark(r, u, mark).roster == r.roster && SetMark(r, u, mark).members == r.members
    ensures SetMark(r, u, mark).sessions == r.sessions && SetMark(r, u, mark).limit == r.limit
  {
  }

  lemma JoinReplyAdds(t: Track, w: World, m: Meeting, a: Answer)
    requires m in w.rooms && m in w.active && w.active[m].Join? && w.active[m].joining == Reply
    ensures Adds(t, w, m, a, JoinStep(w, m, a))
  {
    hide Elsewhere, MarkOf, JoinTakesHold, TakesOver, JoinFails, JoinSince;
  }

  lemma JoinBindAdds(t: Track, w: World, m: Meeting, a: Answer)
    requires m in w.rooms && m in w.active && w.active[m].Join? && JoinSince(t, w.rooms[m], w.active[m])
    requires w.active[m].joining == Bind
    requires w.active[m].resume ==> Holds(w.rooms[m], w.active[m].c.user, w.active[m])
    requires forall u :: u in w.rooms[m].members ==>
      w.rooms[m].members[u].ticket < w.tickets && w.rooms[m].members[u].session.user == u
    ensures Adds(t, w, m, a, JoinStep(w, m, a))
  {
    if a.ok {
      BindEffect(t, w, m);
      assert JoinStep(w, m, a) == BindStep(w, m, w.active[m]);
      hide JoinStep, BindStep, Elsewhere, MarkOf, JoinTakesHold, TakesOver, JoinFails, LetIn, JoinSince;
    } else {
      hide Elsewhere, MarkOf, Adds, Finished, BindStep, LetIn;
      JoinEnds(t, w, m, a, w.rooms[m]);
    }
  }

  lemma BindEffect(t: Track, w: World, m: Meeting)
    requires m in w.rooms && m in w.active && w.active[m].Join? && JoinSince(t, w.rooms[m], w.active[m])
    requires w.active[m].joining == Bind
    requires w.active[m].resume ==> Holds(w.rooms[m], w.active[m].c.user, w.active[m])
    requires forall u :: u in w.rooms[m].members ==>
      w.rooms[m].members[u].ticket < w.tickets && w.rooms[m].members[u].session.user == u
    ensures var op, v := w.active[m], BindStep(w, m, w.active[m]);
      && JoinTakesHold(t, op, v.rooms[m], v, m) && TakesOver(t, op, w, v, m)
      && JoinSince(t, v.rooms[m], op.(joining := Reply))
      && v.active == w.active[m := op.(joining := Reply)] && m in v.rooms
  {
    hide LetIn;
  }

  lemma JoinAdds(t: Track, w: World, m: Meeting, a: Answer)
    requires Inv(w) && m in w.rooms && m in w.active && w.active[m].Join? && JoinSince(t, w.rooms[m], w.active[m])
    ensures Adds(t, w, m, a, JoinStep(w, m, a))
  {
    StageKnown(w, m);
    hide Inv, Adds, JoinStep, JoinSince;
    match w.active[m].joining
    case Add => JoinAddAdds(t, w, m, a);
    case Undo => JoinUndoAdds(t, w, m, a);
    case MarkActive => JoinMarkAdd(t, w, m, a);
    case Activate => JoinMarkAdd(t, w, m, a);
    case Bind => JoinBindAdds(t, w, m, a);
    case Reply => JoinReplyAdds(t, w, m, a);
    case Count => JoinCountsAdd(t, w, m, a);
    case State => JoinCountsAdd(t, w, m, a);
    case _ => JoinChecksAdd(t, w, m, a);
  }

  lemma LeaveEnds(t: Track, w: World, m: Meeting, a: Answer, r: Room)
    requires m in w.rooms && m in w.active && w.active[m].Leave? && w.active[m].leaving != Depart && !a.ok
    requires var u, f := w.active[m].c.user, t.found;
      Elsewhere(f, r, u) && r.members == f.members && (r.roster == f.roster || r.roster == f.roster - {u})
    ensures Adds(t, w, m, a, Finished(SetRoom(w, m, r), m))
    ensures r == w.rooms[m] ==> Adds(t, w, m, a, Finished(w, m))
  {
    hide Elsewhere, MarkOf;
    assert SetRoom(w, m, w.rooms[m]) == w;
  }

  lemma LeaveAdds(t: Track, w: World, m: Meeting, a: Answer)
    requires Inv(w) && m in w.rooms && m in w.active && w.active[m].Leave? && LeaveSince(t, w.rooms[m], w.active[m])
    ensures Adds(t, w, m, a, LeaveStep(w, m, a))
  {
    hide Inv, Adds, LeaveStep, LeaveSince, RoomOk;
    StageKnown(w, m);
    if w.active[m].leaving == Depart { DepartAdds(t, w, m, a); } else { LeaveCallAdds(t, w, m, a); }
  }

  lemma LeaveCallAdds(t: Track, w: World, m: Meeting, a: Answer)
    requires m in w.rooms && m in w.active && w.active[m].Leave? && LeaveSince(t, w.rooms[m], w.active[m])
    requires w.active[m].leaving != Depart
    ensures Adds(t, w, m, a, LeaveStep(w, m, a))
  {
    var op, r := w.active[m], w.rooms[m];
    var u := op.c.user;
    var removed, erased := r.(roster := r.roster - {u}), SetMark(r, u, Absent);
    var out := r.(sessions := r.sessions - {op.c});
    OwnEntries(t.found, r, u, r.roster - {u}, Absent);
    MarkKeeps(r, u, Absent);
    SessionsAside(t.found, r, u, out.sessions);
    hide Elsewhere, MarkOf, Adds, Finished, SetMark, SetRoom, SetOp;
    if a.ok {
      match op.leaving
      case Remove => GoesOn(t, w, m, a, removed, op.(leaving := Delete));
      case Delete => GoesOn(t, w, m, a, erased, op.(leaving := Rest));
      case Rest => GoesOn(t, w, m, a, out, op.(leaving := Depart));
    } else {
      LeaveEnds(t, w, m, a, r);
      match op.leaving
      case Remove => LeaveEnds(t, w, m, a, removed);
      case Delete => LeaveEnds(t, w, m, a, erased);
      case Rest =>
    }
  }

  lemma SessionsAside(f: Room, r: Room, u: User, sessions: set<Conn>)
    ensures Elsewhere(f, r, u) ==> Elsewhere(f, r.(sessions := sessions), u)
    ensures forall v :: MarkOf(r.(sessions := sessions), v) == MarkOf(r, v)
  {
  }

  lemma WithoutMember(f: Room, r: Room, u: User)
    requires Elsewhere(f, r, u)
    ensures Elsewhere(f, r.(members := r.members - {u}), u)
    ensures forall v :: MarkOf(r.(members := r.members - {u}), v) == MarkOf(r, v)
  {
  }

  lemma DepartAdds(t: Track, w: World, m: Meeting, a: Answer)
    requires m in w.rooms && m in w.active && w.active[m].Leave? && LeaveSince(t, w.rooms[m], w.active[m])
    requires w.active[m].leaving == Depart && w.active[m].c !in w.rooms[m].sessions
    ensures Adds(t, w, m, a, LeaveStep(w, m, a))
  {
    WithoutMember(t.found, w.rooms[m], w.active[m].c.user);
    hide Elsewhere, MarkOf;
  }

  lemma DisconnectAdds(t: Track, w: World, m: Meeting, a: Answer)
    requires m in w.rooms && m in w.active && w.active[m].Disconnect?
    requires DisconnectSince(t, w.rooms[m], w.active[m])
    ensures Adds(t, w, m, a, DisconnectStep(w, m, a))
  {
    var op, r := w.active[m], w.rooms[m];
    var u := op.c.user;
    OwnEntries(t.found, r, u, r.roster, Reconnecting);
    OwnEntries(t.found, r, u, r.roster, Active);
    MarkKeeps(r, u, Reconnecting);
    MarkKeeps(r, u, Active);
    var next := op.(dropping := if a.ok then MarkDeadline else Rollback);
    SameRoom(w, m);
    hide Elsewhere, MarkOf, Adds, Finished, SetMark, SetRoom, SetOp;
    match op.dropping
    case Look =>
      var lost := a.ok && u in r.roster && (a.applied || MarkOf(r, u) != Reconnecting);
      GoesOn(t, w, m, a, r, op.(dropping := if lost then MarkLost else Unbind));
    case MarkLost =>
      GoesOn(t, w, m, a, if a.ok || a.applied then SetMark(r, u, Reconnecting) else r, next);
    case MarkDeadline => GoesOn(t, w, m, a, r, op.(dropping := if a.ok then Unbind else Rollback));
    case Rollback =>
      GoesOn(t, w, m, a, if a.ok || a.applied then SetMark(r, u, Active) else r, op.(dropping := Unbind));
    case Unbind => UnbindAdds(t, w, m, a);
  }

  lemma UnbindAdds(t: Track, w: World, m: Meeting, a: Answer)
    requires m in w.rooms && m in w.active && w.active[m].Disconnect?
    requires DisconnectSince(t, w.rooms[m], w.active[m]) && w.active[m].dropping == Unbind
    ensures Adds(t, w, m, a, DisconnectStep(w, m, a))
  {
    hide DisconnectSince;
  }

  lemma NobodyBound(w: World, m: Meeting)
    requires Inv(w) && m in w.rooms
    ensures m in w.active && w.active[m].End? ==> forall c :: BoundTo(w, c, m) ==> c in w.rooms[m].sessions
  {
    if m in w.active && w.active[m].End? {
      forall c | BoundTo(w, c, m) ensures c in w.rooms[m].sessions {
        assert BoundOk(w, c);
      }
    }
  }

  lemma EndAdds(t: Track, w: World, m: Meeting, a: Answer)
    requires Inv(w) && m in w.rooms && m in w.active && w.active[m].End? && EndSince(t, w.rooms[m], w.active[m])
    requires w.active[m].ending == Erase && w.active[m].todo != {} ==> a.user in w.active[m].todo
    ensures Adds(t, w, m, a, EndStep(w, m, a))
  {
    hide Inv, Adds, EndStep, EndSince;
    NobodyBound(w, m);
    EndCallAdds(t, w, m, a);
  }

  lemma EndCallAdds(t: Track, w: World, m: Meeting, a: Answer)
    requires m in w.rooms && m in w.active && w.active[m].End? && EndSince(t, w.rooms[m], w.active[m])
    requires w.active[m].ending == Erase && w.active[m].todo != {} ==> a.user in w.active[m].todo
    requires forall c :: BoundTo(w, c, m) ==> c in w.rooms[m].sessions
    ensures Adds(t, w, m, a, EndStep(w, m, a))
  {
    var op, r := w.active[m], w.rooms[m];
    SameRoom(w, m);
    MarksSet(r, a.user, Absent);
    MarkKeeps(r, a.user, Absent);
    hide MarkOf, Adds, SetMark, EndClosed, SetRoom, SetOp, BoundTo, Finished;
    match op.ending
    case Verify =>
      if a.ok { GoesOn(t, w, m, a, r, op.(ending := List)); } else { VerifyFails(t, w, m, a); }
    case List =>
      if a.ok { GoesOn(t, w, m, a, r, op.(todo := r.roster, ending := Erase)); } else { ClosedAdds(t, w, m, a, r); }
    case Erase =>
      if op.todo == {} { GoesOn(t, w, m, a, r, op.(ending := DropRoster)); }
      else {
        GoesOn(t, w, m, a, if a.ok || a.applied then SetMark(r, a.user, Absent) else r,
               op.(todo := op.todo - {a.user}));
      }
    case DropRoster => ClosedAdds(t, w, m, a, if a.ok || a.applied then r.(roster := {}) else r);
  }

  lemma VerifyFails(t: Track, w: World, m: Meeting, a: Answer)
    requires m in w.rooms && m in w.active && w.active[m].End? && EndSince(t, w.rooms[m], w.active[m])
    requires w.active[m].ending == Verify && !a.ok
    ensures Adds(t, w, m, a, Finished(w, m))
  {
  }

  lemma ClosedAdds(t: Track, w: World, m: Meeting, a: Answer, r: Room)
    requires m in w.rooms && m in w.active && w.active[m].End? && EndSince(t, w.rooms[m], w.active[m])
    requires (w.active[m].ending == List && !a.ok) || w.active[m].ending == DropRoster
    requires r == w.rooms[m].(roster := r.roster)
    requires w.active[m].ending == DropRoster && a.ok ==> r.roster == {}
    requires forall c :: BoundTo(w, c, m) ==> c in w.rooms[m].sessions
    ensures Adds(t, w, m, a, EndClosed(SetRoom(w, m, r), m))
  {
    var v := EndClosed(SetRoom(w, m, r), m);
    forall c ensures !BoundTo(v, c, m) {
      assert BoundTo(w, c, m) ==> c in r.sessions;
    }
    RoomReleasedAll(w.users, m);
    hide RoomReleased;
  }

  lemma RoomReleasedAll(users: map<User, Presence>, m: Meeting)
    ensures forall u :: u in RoomReleased(users, m) ==> RoomReleased(users, m)[u].meeting != m
  {
  }

  lemma ExpireEnds(t: Track, w: World, m: Meeting, a: Answer, r: Room)
    requires m in w.rooms && m in w.active && w.active[m].Expire? && w.active[m].expiring != Finish
    requires var u, f := w.active[m].u, t.found;
      && Elsewhere(f, r, u) && r.members == f.members
      && (r.roster == f.roster || (!a.ok && r.roster == f.roster - {u}))
      && (t.clean && a.ok ==> MarkOf(f, u) != Reconnecting)
    ensures Adds(t, w, m, a, Finished(SetRoom(w, m, r), m))
    ensures r == w.rooms[m] ==> Adds(t, w, m, a, Finished(w, m))
  {
    hide Elsewhere, MarkOf;
    assert SetRoom(w, m, w.rooms[m]) == w;
  }

  lemma ExpireAdds(t: Track, w: World, m: Meeting, a: Answer)
    requires m in w.rooms && m in w.active && w.active[m].Expire? && ExpireSince(t, w.rooms[m], w.active[m])
    ensures Adds(t, w, m, a, ExpireStep(w, m, a))
  {
    var op, r := w.active[m], w.rooms[m];
    var u := op.u;
    var removed := r.(roster := r.roster - {u});
    OwnEntries(t.found, r, u, r.roster - {u}, Absent);
    MarkKeeps(r, u, Absent);
    hide Adds, Finished, SetMark, Elsewhere, MarkOf;
    match op.expiring
    case Read =>
      if a.ok && MarkOf(r, u) == Reconnecting { GoesOn(t, w, m, a, r, op.(expiring := Evict)); }
      else { ExpireEnds(t, w, m, a, r); }
    case Evict =>
      if a.ok { GoesOn(t, w, m, a, removed, op.(expiring := Forget)); }
      else { ExpireEnds(t, w, m, a, removed); ExpireEnds(t, w, m, a, r); }
    case Forget =>
      GoesOn(t, w, m, a, if a.ok || a.applied then SetMark(r, u, Absent) else r, op.(expiring := Finish));
      assert SetRoom(w, m, r) == w;
    case Finish => EvictionAdds(t, w, m, a);
  }

  lemma EvictionAdds(t: Track, w: World, m: Meeting, a: Answer)
    requires m in w.rooms && m in w.active && w.active[m].Expire? && ExpireSince(t, w.rooms[m], w.active[m])
    requires w.active[m].expiring == Finish
    ensures Adds(t, w, m, a, ExpireStep(w, m, a))
  {
    WithoutMember(t.found, w.rooms[m], w.active[m].u);
    hide Elsewhere, MarkOf;
  }

  lemma AdvanceAdds(t: Track, w: World, m: Meeting, a: Answer)
    requires Inv(w) && Enabled(w, Advance(m, a)) && Since(t, w.rooms[m], w.active[m])
    ensures Adds(t, w, m, a, Next(w, Advance(m, a)))
  {
    hide Inv, Adds, JoinStep, LeaveStep, DisconnectStep, EndStep, ExpireStep;
    hide JoinSince, LeaveSince, DisconnectSince, EndSince, ExpireSince;
    match w.active[m]
    case Join(_, _, _, _, _, _, _) => JoinAdds(t, w, m, a);
    case Leave(_, _) => LeaveAdds(t, w, m, a);
    case Disconnect(_, _) => DisconnectAdds(t, w, m, a);
    case End(_, _, _) => EndAdds(t, w, m, a);
    case Expire(_, _) => ExpireAdds(t, w, m, a);
  }

  // ---- How operations begin ----

  /** Exactly when an operation takes the meeting, and what its first segment does at once: a join reserves its
      user, a disconnect takes the connection out and starts the grace period; otherwise nothing changes, but
      that a connection without a place in the meeting is done with its command. */
  lemma Begins(w: World, m: Meeting, op: Op)
    requires Inv(w) && Enabled(w, Begin(m, op))
    ensures var v, r := Next(w, Begin(m, op)), w.rooms[m];
      && (m in v.active <==>
            match op
            case Join(c, _, _, _, _, _, _) => c.user !in w.users || w.users[c.user].meeting == m
            case Leave(c, _) =>
              c in w.bound && w.bound[c] == m && (c.user in r.members ==> r.members[c.user].session == c)
            case Disconnect(c, _) => c in w.bound && r.sessions != {}
            case End(c, _, _) => c.user in r.members ==> r.members[c.user].session == c
            case Expire(u, _) =>
              u in r.members && r.members[u].deadline.Some? ==> r.members[u].deadline.value <= w.now)
      && (m in v.active ==> Since(Track(r, w.now, true), v.rooms[m], v.active[m]))
      && (m !in v.active ==> v.rooms == w.rooms && v.users == w.users)
      && (!op.Disconnect? ==> v.bound == w.bound && v.rooms == w.rooms)
      && (op.Join? && m in v.active ==> op.c.user in v.users && v.users[op.c.user].meeting == m)
  {
    hide Inv;
    if op.Disconnect? { DropBegins(w, m, op); }
  }

  lemma DropBegins(w: World, m: Meeting, op: Op)
    requires Enabled(w, Begin(m, op)) && op.Disconnect?
    ensures var v, r := Next(w, Begin(m, op)), w.rooms[m];
      && (m in v.active <==> op.c in w.bound && r.sessions != {})
      && (m in v.active ==> Since(Track(r, w.now, true), v.rooms[m], v.active[m]))
      && (m !in v.active ==> v.rooms == w.rooms && v.users == w.users)
  {
  }

  // ---- Runs ----

  /** Every operation in progress has done so far what its stage says. */
  ghost predicate Followed(w: World, tracks: Tracks) {
    forall m :: m in w.active ==> m in tracks && m in w.rooms && Since(tracks[m], w.rooms[m], w.active[m])
  }

  /** The meeting in which the step acts, if it is a segment of an operation. */
  predicate ActsIn(step: Step, m: Meeting) {
    (step.Begin? && step.m == m) || (step.Advance? && step.m == m)
  }

  /** Another meeting's room and operation are as before, but for connections that nobody refers to any more. */
  ghost predicate Untouched(w: World, v: World, k: Meeting) {
    && (k in v.active <==> k in w.active) && (k in w.active ==> v.active[k] == w.active[k])
    && (k in w.rooms ==> k in v.rooms && v.rooms[k] == w.rooms[k].(sessions := v.rooms[k].sessions)
                         && v.rooms[k].sessions <= w.rooms[k].sessions)
  }

  lemma ElsewhereSame(w: World, step: Step, k: Meeting)
    requires Enabled(w, step) && !ActsIn(step, k)
    ensures Untouched(w, Next(w, step), k)
  {
    if step.Advance? {
      AdvanceStaysIn(w, step.m, step.a, k);
      hide Advanced;
    } else if step.Begin? {
      BeginStaysIn(w, step.m, step.op, k);
      hide Begun;
    } else {
      hide InProgress;
    }
  }

  lemma BeginStaysIn(w: World, m: Meeting, op: Op, k: Meeting)
    requires m in w.rooms && k != m
    ensures Untouched(w, Begun(w, m, op), k)
  {
    hide Reserved, Dropped, HasOther, Overtaken, InGrace, MayReserve, DisconnectBegun;
    if op.Disconnect? { DropStaysIn(w, m, op, k); }
  }

  lemma DropStaysIn(w: World, m: Meeting, op: Op, k: Meeting)
    requires m in w.rooms && k != m && op.Disconnect?
    ensures Untouched(w, DisconnectBegun(w, m, op), k)
  {
    hide Dropped, HasOther;
  }

  lemma FinishStaysIn(w: World, m: Meeting, r: Room, users: map<User, Presence>, bound: map<Conn, Meeting>, k: Meeting)
    requires m in w.rooms && m in w.active && k != m
    ensures Untouched(w, Finished(SetRoom(w, m, r).(users := users, bound := bound), m), k)
    ensures Untouched(w, Finished(SetRoom(w, m, r), m), k) && Untouched(w, Finished(w, m), k)
  {
    hide JoinFinished;
  }

  lemma MoveStaysIn(w: World, m: Meeting, r: Room, op: Op, k: Meeting)
    requires m in w.rooms && m in w.active && k != m
    ensures Untouched(w, SetOp(SetRoom(w, m, r), m, op), k) && Untouched(w, SetOp(w, m, op), k)
  {
  }

  lemma AdvanceStaysIn(w: World, m: Meeting, a: Answer, k: Meeting)
    requires m in w.rooms && m in w.active && k != m
    ensures Untouched(w, Advanced(w, m, a), k)
  {
    hide Untouched, JoinStep, LeaveStep, DisconnectStep, EndStep, ExpireStep;
    match w.active[m]
    case Join(_, _, _, _, _, _, _) => JoinStaysIn(w, m, a, k);
    case Leave(_, _) => LeaveStaysIn(w, m, a, k);
    case Disconnect(_, _) => DisconnectStaysIn(w, m, a, k);
    case End(_, _, _) => EndStaysIn(w, m, a, k);
    case Expire(_, _) => ExpireStaysIn(w, m, a, k);
  }

  lemma JoinStaysIn(w: World, m: Meeting, a: Answer, k: Meeting)
    requires m in w.rooms && m in w.active && k != m && w.active[m].Join?
    ensures Untouched(w, JoinStep(w, m, a), k)
  {
    hide Untouched, Finished, SetOp, SetRoom, SetMark, MarkOf, MayResume, BindStep;
    var op, r := w.active[m], w.rooms[m];
    var u := op.c.user;
    FinishStaysIn(w, m, r, w.users, w.bound, k);
    forall next { MoveStaysIn(w, m, r, next, k); }
    var added, removed, marked := r.(roster := r.roster + {u}), r.(roster := r.roster - {u}), SetMark(r, u, Active);
    FinishStaysIn(w, m, added, w.users, w.bound, k);
    FinishStaysIn(w, m, removed, w.users, w.bound, k);
    FinishStaysIn(w, m, marked, w.users, w.bound, k);
    forall next { MoveStaysIn(w, m, added, next, k); }
    forall next { MoveStaysIn(w, m, marked, next, k); }
    if op.joining == Bind && a.ok && (op.resume ==> u in r.members) { BindStaysIn(w, m, k); }
  }

  lemma LeaveStaysIn(w: World, m: Meeting, a: Answer, k: Meeting)
    requires m in w.rooms && m in w.active && k != m && w.active[m].Leave?
    ensures Untouched(w, LeaveStep(w, m, a), k)
  {
    hide Untouched, Finished, SetOp, SetRoom, SetMark, Released;
    var op, r := w.active[m], w.rooms[m];
    var c := op.c;
    var removed, erased := r.(roster := r.roster - {c.user}), SetMark(r, c.user, Absent);
    var out, gone := r.(sessions := r.sessions - {c}), r.(members := r.members - {c.user});
    FinishStaysIn(w, m, r, w.users, w.bound, k);
    FinishStaysIn(w, m, removed, w.users, w.bound, k);
    FinishStaysIn(w, m, erased, w.users, w.bound, k);
    FinishStaysIn(w, m, gone, Released(w.users, c.user, m), w.bound - {c}, k);
    MoveStaysIn(w, m, removed, op.(leaving := Delete), k);
    MoveStaysIn(w, m, erased, op.(leaving := Rest), k);
    MoveStaysIn(w, m, out, op.(leaving := Depart), k);
  }

  lemma DisconnectStaysIn(w: World, m: Meeting, a: Answer, k: Meeting)
    requires m in w.rooms && m in w.active && k != m && w.active[m].Disconnect?
    ensures Untouched(w, DisconnectStep(w, m, a), k)
  {
    hide Untouched, Finished, SetOp, SetRoom, SetMark, MarkOf;
    var op, r := w.active[m], w.rooms[m];
    var u := op.c.user;
    forall next { MoveStaysIn(w, m, r, next, k); }
    forall next { MoveStaysIn(w, m, SetMark(r, u, Reconnecting), next, k); }
    forall next { MoveStaysIn(w, m, SetMark(r, u, Active), next, k); }
    FinishStaysIn(w, m, r, w.users, w.bound - {op.c}, k);
    assert SetRoom(w, m, r) == w by { SameRoom(w, m); }
  }

  lemma EndStaysIn(w: World, m: Meeting, a: Answer, k: Meeting)
    requires m in w.rooms && m in w.active && k != m && w.active[m].End?
    ensures Untouched(w, EndStep(w, m, a), k)
  {
    hide Untouched, Finished, SetOp, SetRoom, SetMark, RoomReleased, EndClosed;
    var op, r := w.active[m], w.rooms[m];
    FinishStaysIn(w, m, r, w.users, w.bound, k);
    forall next { MoveStaysIn(w, m, r, next, k); }
    forall next { MoveStaysIn(w, m, SetMark(r, a.user, Absent), next, k); }
    ClosedStaysIn(w, m, r, k);
    ClosedStaysIn(w, m, r.(roster := {}), k);
    assert SetRoom(w, m, r) == w by { SameRoom(w, m); }
  }

  lemma ExpireStaysIn(w: World, m: Meeting, a: Answer, k: Meeting)
    requires m in w.rooms && m in w.active && k != m && w.active[m].Expire?
    ensures Untouched(w, ExpireStep(w, m, a), k)
  {
    hide Untouched, Finished, SetOp, SetRoom, SetMark, MarkOf, Released;
    var op, r := w.active[m], w.rooms[m];
    var removed, erased := r.(roster := r.roster - {op.u}), SetMark(r, op.u, Absent);
    var gone := r.(members := r.members - {op.u});
    FinishStaysIn(w, m, r, w.users, w.bound, k);
    FinishStaysIn(w, m, removed, w.users, w.bound, k);
    FinishStaysIn(w, m, gone, Released(w.users, op.u, m), w.bound, k);
    forall next { MoveStaysIn(w, m, r, next, k); }
    MoveStaysIn(w, m, removed, op.(expiring := Forget), k);
    MoveStaysIn(w, m, erased, op.(expiring := Finish), k);
    BoundSame(w, m, gone, Released(w.users, op.u, m));
  }

  lemma SameRoom(w: World, m: Meeting)
    requires m in w.rooms
    ensures SetRoom(w, m, w.rooms[m]) == w
  {
  }

  lemma BoundSame(w: World, m: Meeting, r: Room, users: map<User, Presence>)
    requires m in w.rooms
    ensures SetRoom(w, m, r).(users := users, bound := w.bound) == SetRoom(w, m, r).(users := users)
  {
  }

  lemma BindStaysIn(w: World, m: Meeting, k: Meeting)
    requires m in w.rooms && m in w.active && k != m && w.active[m].Join?
    requires w.active[m].resume ==> w.active[m].c.user in w.rooms[m].members
    ensures Untouched(w, BindStep(w, m, w.active[m]), k)
  {
    hide Bound, Superseded;
  }

  lemma ClosedStaysIn(w: World, m: Meeting, r: Room, k: Meeting)
    requires m in w.rooms && m in w.active && k != m && w.active[m].End?
    ensures Untouched(w, EndClosed(SetRoom(w, m, r), m), k)
  {
    hide RoomReleased, JoinFinished;
  }

  lemma SinceWithFewer(t: Track, r: Room, op: Op, sessions: set<Conn>)
    requires Since(t, r, op) && sessions <= r.sessions
    ensures Since(t, r.(sessions := sessions), op)
  {
    var u := if op.Expire? then op.u else op.c.user;
    SessionsAside(t.found, r, u, sessions);
    hide Elsewhere, MarkOf;
  }

  lemma StepFollows(w: World, tracks: Tracks, step: Step)
    requires Inv(w) && Enabled(w, step) && Followed(w, tracks)
    ensures Followed(Next(w, step), Tracked(w, tracks, step))
  {
    hide Since, Inv, Adds, Effect;
    var v, next := Next(w, step), Tracked(w, tracks, step);
    if step.Begin? { Begins(w, step.m, step.op); BeginKeepsRooms(w, step.m, step.op); }
    if step.Advance? { AdvanceAdds(tracks[step.m], w, step.m, step.a); OwnAdds(tracks[step.m], w, step.m, step.a, v); }
    forall m | m in v.active
      ensures m in next && m in v.rooms && Since(next[m], v.rooms[m], v.active[m])
    {
      if !ActsIn(step, m) {
        ActiveHasRoom(w, step, m);
        ElsewhereSame(w, step, m);
        SinceWithFewer(tracks[m], w.rooms[m], w.active[m], v.rooms[m].sessions);
        hide Next;
      }
    }
  }

  lemma BeginKeepsRooms(w: World, m: Meeting, op: Op)
    requires Enabled(w, Begin(m, op))
    ensures m in Next(w, Begin(m, op)).rooms
  {
    BegunSameRooms(w, m, op);
    hide Begun;
  }

  lemma OwnAdds(t: Track, w: World, m: Meeting, a: Answer, v: World)
    requires m in w.rooms && m in w.active && Adds(t, w, m, a, v)
    ensures m in v.rooms && (m in v.active ==> Since(Going(t, a), v.rooms[m], v.active[m]))
  {
  }

  lemma ActiveHasRoom(w: World, step: Step, m: Meeting)
    requires Inv(w) && Enabled(w, step) && m in Next(w, step).active && !ActsIn(step, m)
    ensures m in w.active && m in w.rooms
  {
    ElsewhereSame(w, step, m);
    hide Next, BoundOk, RoomOk, UserOk, LinkOk, Stage;
    assert OpOk(w, m);
  }

  ghost function TrackRun(w: World, tracks: Tracks, steps: seq<Step>): Tracks
    requires Feasible(w, steps)
    decreases |steps|
  {
    if steps == [] then tracks else TrackRun(Next(w, steps[0]), Tracked(w, tracks, steps[0]), steps[1..])
  }

  lemma {:induction false} RunFollows(w: World, tracks: Tracks, steps: seq<Step>)
    requires Inv(w) && Followed(w, tracks) && Feasible(w, steps)
    ensures Inv(Run(w, steps)) && Followed(Run(w, steps), TrackRun(w, tracks, steps))
    decreases |steps|
  {
    hide Inv, Next, Followed, Tracked;
    if steps != [] {
      StepKeepsInv(w, steps[0]);
      StepFollows(w, tracks, steps[0]);
      RunFollows(Next(w, steps[0]), Tracked(w, tracks, steps[0]), steps[1..]);
    }
  }

  /** In every run, whatever storage calls fail, with or without having taken effect, and whatever the
      operations of other meetings do meanwhile: every operation has, at each of its segments, changed its
      meeting and the store as its stage says and nothing else, and when it ends, or its join takes hold, it has
      its whole effect. */
  lemma OperationsTakeEffect(w: World, steps: seq<Step>, m: Meeting, a: Answer)
    requires Fresh(w) && Feasible(w, steps) && Enabled(Run(w, steps), Advance(m, a))
    ensures var v, tracks := Run(w, steps), TrackRun(w, map[], steps);
      && m in v.active && m in v.rooms && m in tracks && Since(tracks[m], v.rooms[m], v.active[m])
      && m in Next(v, Advance(m, a)).rooms
      && Effect(tracks[m], v.active[m], a, v, Next(v, Advance(m, a)), m)
  {
    RunFollows(w, map[], steps);
    hide Inv, Run, Feasible, TrackRun, Since, Effect, Next;
    AdvanceAdds(TrackRun(w, map[], steps)[m], Run(w, steps), m, a);
  }

  /** So a new user whom the meeting has a place for, and whose storage calls succeed, is not turned away, and
      ends up stored, active, and in the meeting on this connection; the limit counts it from then on. */
  lemma NewUserGetsIn(w: World, steps: seq<Step>, m: Meeting, a: Answer)
    requires Fresh(w) && Feasible(w, steps) && Enabled(Run(w, steps), Advance(m, a))
    requires Run(w, steps).active[m].Join? && !Run(w, steps).active[m].resume
    requires m in TrackRun(w, map[], steps)
    requires var t, v := TrackRun(w, map[], steps)[m], Run(w, steps);
      t.clean && a.ok && v.active[m].c.user !in t.found.roster && |t.found.roster| < t.found.limit
    ensures var v, t := Run(w, steps), TrackRun(w, map[], steps)[m];
      GetsIn(t, v, Next(v, Advance(m, a)), m)
  {
    RunFollows(w, map[], steps);
    hide Inv, Run, Feasible, TrackRun, Next, GetsIn;
    NewUserStep(TrackRun(w, map[], steps), Run(w, steps), m, a);
  }

  /** The join goes on unless it has been answered, and from the binding on the user is in. */
  ghost predicate GetsIn(t: Track, w: World, v: World, m: Meeting)
    requires m in w.active && w.active[m].Join?
  {
    var c := w.active[m].c;
    && (m !in v.active ==> w.active[m].joining == Reply)
    && (w.active[m].joining in {Bind, Reply} ==>
          m in v.rooms && v.rooms[m].roster == t.found.roster + {c.user} && MarkOf(v.rooms[m], c.user) == Active)
    && (w.active[m].joining == Bind ==> BoundTo(v, c, m) && c in v.rooms[m].sessions)
  }

  lemma NewUserStep(tracks: Tracks, w: World, m: Meeting, a: Answer)
    requires Inv(w) && Followed(w, tracks) && Enabled(w, Advance(m, a)) && w.active[m].Join? && !w.active[m].resume
    requires m in tracks && tracks[m].clean && a.ok
    requires w.active[m].c.user !in tracks[m].found.roster && |tracks[m].found.roster| < tracks[m].found.limit
    ensures GetsIn(tracks[m], w, Next(w, Advance(m, a)), m)
  {
    AdvanceAdds(tracks[m], w, m, a);
    JoinGoesOn(w, m, a);
    JoinReplies(w, m, a);
    hide Inv, Next, Elsewhere, MarkOf, MayResumeAt;
  }

  /** A binding that succeeds does not end the join; only the answer does. */
  lemma JoinGoesOn(w: World, m: Meeting, a: Answer)
    requires Inv(w) && Enabled(w, Advance(m, a)) && w.active[m].Join?
    ensures w.active[m].joining == Bind && a.ok ==> m in Next(w, Advance(m, a)).active
  {
    StageKnown(w, m);
    hide Inv, Bound, Superseded, MarkOf;
  }

  lemma JoinReplies(w: World, m: Meeting, a: Answer)
    requires Enabled(w, Advance(m, a)) && w.active[m].Join?
    ensures w.active[m].joining == Reply ==> Next(w, Advance(m, a)).rooms == w.rooms
  {
  }

  /** A connection whose command is done can send the next one. */
  lemma CommandIsDone(w: World, m: Meeting, a: Answer)
    requires Enabled(w, Advance(m, a)) && !w.active[m].Expire?
    ensures var v := Next(w, Advance(m, a)); m !in v.active ==> w.active[m].c !in v.routed
  {
    hide JoinStep, LeaveStep, DisconnectStep, EndStep, ExpireStep;
    match w.active[m]
    case Join(_, _, _, _, _, _, _) => JoinDone(w, m, a);
    case Leave(_, _) => LeaveDone(w, m, a);
    case Disconnect(_, _) => DisconnectDone(w, m, a);
    case End(_, _, _) => EndDone(w, m, a);
  }

  lemma JoinDone(w: World, m: Meeting, a: Answer)
    requires m in w.rooms && m in w.active && w.active[m].Join?
    ensures var v := JoinStep(w, m, a); m !in v.active ==> w.active[m].c !in v.routed
  {
    hide JoinFinished, MayResume, Bound, Superseded, MarkOf;
    if w.active[m].joining == Bind {
      hide SetOp, SetRoom;
    } else {
      hide BindStep, SetMark;
    }
  }

  lemma LeaveDone(w: World, m: Meeting, a: Answer)
    requires m in w.rooms && m in w.active && w.active[m].Leave?
    ensures var v := LeaveStep(w, m, a); m !in v.active ==> w.active[m].c !in v.routed
  {
    hide SetMark, MarkOf, JoinFinished, Released, RoomReleased, MayResume, Bound, Superseded;
  }

  lemma DisconnectDone(w: World, m: Meeting, a: Answer)
    requires m in w.rooms && m in w.active && w.active[m].Disconnect?
    ensures var v := DisconnectStep(w, m, a); m !in v.active ==> w.active[m].c !in v.routed
  {
    hide SetMark, MarkOf, JoinFinished, Released, RoomReleased, MayResume, Bound, Superseded;
  }

  lemma EndDone(w: World, m: Meeting, a: Answer)
    requires m in w.rooms && m in w.active && w.active[m].End?
    ensures var v := EndStep(w, m, a); m !in v.active ==> w.active[m].c !in v.routed
  {
    hide SetMark, MarkOf, JoinFinished, Released, RoomReleased, MayResume, Bound, Superseded;
  }

  /** The calls that change the store. */
  predicate Writes(op: Op) {
    match op
    case Join(_, _, _, _, _, _, at) => at in {Add, Undo, MarkActive, Activate}
    case Leave(_, at) => at in {Remove, Delete}
    case Disconnect(_, at) => at in {MarkLost, Rollback}
    case End(_, _, at) => at in {Erase, DropRoster}
    case Expire(_, at) => at in {Evict, Forget}
  }

  /** What the call leaves in the store when it is answered, when the answer is lost, and when nothing happens. */
  ghost predicate Covers(w: World, m: Meeting, done: World, lost: World, failed: World)
    requires m in w.rooms
  {
    && m in done.rooms && m in lost.rooms && m in failed.rooms
    && lost.rooms[m].roster == done.rooms[m].roster && lost.rooms[m].marks == done.rooms[m].marks
    && failed.rooms[m].roster == w.rooms[m].roster && failed.rooms[m].marks == w.rooms[m].marks
  }

  /** A call whose answer is lost leaves the store as one that is answered, or as it was: both are covered. */
  lemma AnswersGetLost(w: World, m: Meeting, a: Answer)
    requires Enabled(w, Advance(m, a)) && Writes(w.active[m])
    ensures Enabled(w, Advance(m, a.(ok := true))) && Enabled(w, Advance(m, a.(ok := false, applied := true)))
    ensures Enabled(w, Advance(m, a.(ok := false, applied := false)))
    ensures Covers(w, m, Next(w, Advance(m, a.(ok := true))), Next(w, Advance(m, a.(ok := false, applied := true))),
                   Next(w, Advance(m, a.(ok := false, applied := false))))
  {
    hide JoinStep, LeaveStep, DisconnectStep, EndStep, ExpireStep, Covers;
    match w.active[m]
    case Join(_, _, _, _, _, _, _) => JoinLost(w, m, a);
    case Leave(_, _) => LeaveLost(w, m, a);
    case Disconnect(_, _) => DisconnectLost(w, m, a);
    case End(_, _, _) => EndLost(w, m, a);
    case Expire(_, _) => ExpireLost(w, m, a);
  }

  lemma JoinLost(w: World, m: Meeting, a: Answer)
    requires m in w.rooms && m in w.active && w.active[m].Join? && Writes(w.active[m])
    ensures Covers(w, m, JoinStep(w, m, a.(ok := true)), JoinStep(w, m, a.(ok := false, applied := true)),
                   JoinStep(w, m, a.(ok := false, applied := false)))
  {
    hide MarkOf, JoinFinished, Released, RoomReleased, MayResume, BindStep;
  }

  lemma LeaveLost(w: World, m: Meeting, a: Answer)
    requires m in w.rooms && m in w.active && w.active[m].Leave? && Writes(w.active[m])
    ensures Covers(w, m, LeaveStep(w, m, a.(ok := true)), LeaveStep(w, m, a.(ok := false, applied := true)),
                   LeaveStep(w, m, a.(ok := false, applied := false)))
  {
    hide MarkOf, JoinFinished, Released, RoomReleased, MayResume, BindStep;
  }

  lemma DisconnectLost(w: World, m: Meeting, a: Answer)
    requires m in w.rooms && m in w.active && w.active[m].Disconnect? && Writes(w.active[m])
    ensures Covers(w, m, DisconnectStep(w, m, a.(ok := true)), DisconnectStep(w, m, a.(ok := false, applied := true)),
                   DisconnectStep(w, m, a.(ok := false, applied := false)))
  {
    hide MarkOf, JoinFinished, Released, RoomReleased, MayResume, BindStep;
  }

  lemma EndLost(w: World, m: Meeting, a: Answer)
    requires m in w.rooms && m in w.active && w.active[m].End? && Writes(w.active[m])
    ensures Covers(w, m, EndStep(w, m, a.(ok := true)), EndStep(w, m, a.(ok := false, applied := true)),
                   EndStep(w, m, a.(ok := false, applied := false)))
  {
    hide MarkOf, JoinFinished, Released, RoomReleased, MayResume, BindStep, SetMark;
    if w.active[m].ending == DropRoster { hide SetOp; } else { hide EndClosed, Finished; }
  }

  lemma ExpireLost(w: World, m: Meeting, a: Answer)
    requires m in w.rooms && m in w.active && w.active[m].Expire? && Writes(w.active[m])
    ensures Covers(w, m, ExpireStep(w, m, a.(ok := true)), ExpireStep(w, m, a.(ok := false, applied := true)),
                   ExpireStep(w, m, a.(ok := false, applied := false)))
  {
    hide MarkOf, JoinFinished, Released, RoomReleased, MayResume, BindStep;
  }

  // ---- Nobody is held back ----

  /** Whoever counts as having joined a meeting is a member of it. */
  ghost predicate InPlace(users: map<User, Presence>, rooms: map<Meeting, Room>) {
    forall u :: u in users && users[u].joined ==>
      users[u].meeting in rooms && u in rooms[users[u].meeting].members
  }

  ghost predicate BoundIsMember(w: World, m: Meeting, r: Room)
    requires m in w.active
  {
    w.active[m].Join? && BoundTo(w, w.active[m].c, m) ==> w.active[m].c.user in r.members
  }

  lemma SetInPlace(w: World, m: Meeting, r: Room)
    requires InPlace(w.users, w.rooms) && m in w.rooms && r.members == w.rooms[m].members
    ensures InPlace(w.users, SetRoom(w, m, r).rooms)
  {
  }

  lemma FinishInPlace(w: World, m: Meeting, r: Room)
    requires InPlace(w.users, w.rooms) && m in w.active && m in w.rooms && r.members == w.rooms[m].members
    requires BoundIsMember(w, m, r)
    ensures InPlace(Finished(SetRoom(w, m, r), m).users, Finished(SetRoom(w, m, r), m).rooms)
    ensures InPlace(Finished(w, m).users, Finished(w, m).rooms)
  {
  }

  lemma BindInPlace(w: World, m: Meeting)
    requires InPlace(w.users, w.rooms) && m in w.rooms && m in w.active && w.active[m].Join?
    requires w.active[m].resume ==> w.active[m].c.user in w.rooms[m].members
    ensures var v := BindStep(w, m, w.active[m]); InPlace(v.users, v.rooms)
  {
    hide Renewed, Superseded;
    var r, v := w.rooms[m], BindStep(w, m, w.active[m]).rooms[m];
    assert forall u: User :: u in r.members ==> u in v.members;
  }

  /** Members that go have given their places back. */
  lemma GoneInPlace(users: map<User, Presence>, w: World, m: Meeting, r: Room)
    requires InPlace(w.users, w.rooms) && m in w.rooms
    requires forall u :: u in users ==> u in w.users && users[u] == w.users[u]
    requires forall u :: u in users && users[u].meeting == m && u in w.rooms[m].members ==> u in r.members
    ensures InPlace(users, w.rooms[m := r])
  {
  }

  lemma BeginInPlace(w: World, m: Meeting, op: Op)
    requires InPlace(w.users, w.rooms) && m in w.rooms
    ensures InPlace(Begun(w, m, op).users, Begun(w, m, op).rooms)
  {
    hide HasOther, Overtaken, InGrace;
    if op.Disconnect? {
      var r := Dropped(w.rooms[m], op.c, w.now);
      assert forall u: User :: u in w.rooms[m].members ==> u in r.members;
      hide Dropped;
    }
  }

  /** The operation goes on or ends with another room. */
  ghost predicate GoesOnInPlace(w: World, m: Meeting, r: Room)
    requires m in w.rooms && m in w.active
  {
    && InPlace(Finished(SetRoom(w, m, r), m).users, Finished(SetRoom(w, m, r), m).rooms)
    && InPlace(w.users, SetRoom(w, m, r).rooms)
  }

  lemma SameMembersInPlace(w: World, m: Meeting, r: Room)
    requires InPlace(w.users, w.rooms) && m in w.rooms && m in w.active && r.members == w.rooms[m].members
    requires BoundIsMember(w, m, r)
    ensures GoesOnInPlace(w, m, r) && InPlace(Finished(w, m).users, Finished(w, m).rooms)
  {
    SetInPlace(w, m, r);
    FinishInPlace(w, m, r);
  }

  /** An operation that is no join ends. */
  lemma EndsInPlace(w: World, m: Meeting, r: Room, users: map<User, Presence>, bound: map<Conn, Meeting>)
    requires InPlace(w.users, w.rooms) && m in w.rooms && m in w.active && !w.active[m].Join?
    requires forall u :: u in users ==> u in w.users && users[u] == w.users[u]
    requires forall u :: u in users && users[u].meeting == m && u in w.rooms[m].members ==> u in r.members
    ensures var v := Finished(SetRoom(w, m, r).(users := users, bound := bound), m); InPlace(v.users, v.rooms)
    ensures var v := Finished(SetRoom(w, m, r).(users := users), m); InPlace(v.users, v.rooms)
  {
    GoneInPlace(users, w, m, r);
  }

  lemma JoinInPlace(w: World, m: Meeting, a: Answer)
    requires InPlace(w.users, w.rooms) && m in w.rooms && m in w.active && w.active[m].Join?
    requires BoundIsMember(w, m, w.rooms[m])
    ensures InPlace(JoinStep(w, m, a).users, JoinStep(w, m, a).rooms)
  {
    hide JoinStep, InPlace, BindStep;
    var op, r := w.active[m], w.rooms[m];
    match op.joining
    case Add => JoinRosterInPlace(w, m, a, r.(roster := r.roster + {op.c.user}));
    case Undo => JoinRosterInPlace(w, m, a, r.(roster := r.roster - {op.c.user}));
    case MarkActive => JoinMarkInPlace(w, m, a);
    case Activate => JoinMarkInPlace(w, m, a);
    case _ => JoinCheckInPlace(w, m, a);
  }

  lemma JoinRosterInPlace(w: World, m: Meeting, a: Answer, r: Room)
    requires InPlace(w.users, w.rooms) && m in w.rooms && m in w.active && w.active[m].Join?
    requires BoundIsMember(w, m, w.rooms[m]) && w.active[m].joining in {Add, Undo}
    requires r == w.rooms[m].(roster := r.roster)
    requires r.roster == if w.active[m].joining == Add then w.rooms[m].roster + {w.active[m].c.user}
                         else w.rooms[m].roster - {w.active[m].c.user}
    ensures InPlace(JoinStep(w, m, a).users, JoinStep(w, m, a).rooms)
  {
    SameMembersInPlace(w, m, r);
    hide InPlace, Finished, BindStep, SetRoom, SetMark, MayResume, MarkOf, BoundIsMember;
  }

  lemma JoinMarkInPlace(w: World, m: Meeting, a: Answer)
    requires InPlace(w.users, w.rooms) && m in w.rooms && m in w.active && w.active[m].Join?
    requires BoundIsMember(w, m, w.rooms[m]) && w.active[m].joining in {MarkActive, Activate}
    ensures InPlace(JoinStep(w, m, a).users, JoinStep(w, m, a).rooms)
  {
    SameMembersInPlace(w, m, SetMark(w.rooms[m], w.active[m].c.user, Active));
    hide InPlace, Finished, BindStep, SetRoom, SetMark, MayResume, MarkOf, BoundIsMember;
  }

  lemma JoinCheckInPlace(w: World, m: Meeting, a: Answer)
    requires InPlace(w.users, w.rooms) && m in w.rooms && m in w.active && w.active[m].Join?
    requires BoundIsMember(w, m, w.rooms[m]) && w.active[m].joining in {Check, Count, State, Record, Bind, Reply}
    ensures InPlace(JoinStep(w, m, a).users, JoinStep(w, m, a).rooms)
  {
    FinishInPlace(w, m, w.rooms[m]);
    if w.active[m].resume ==> w.active[m].c.user in w.rooms[m].members { BindInPlace(w, m); }
    hide InPlace, Finished, BindStep, SetRoom, SetMark, MayResume, MarkOf, BoundIsMember;
  }

  lemma LeaveInPlace(w: World, m: Meeting, a: Answer)
    requires InPlace(w.users, w.rooms) && m in w.rooms && m in w.active && w.active[m].Leave?
    ensures InPlace(LeaveStep(w, m, a).users, LeaveStep(w, m, a).rooms)
  {
    var r, c := w.rooms[m], w.active[m].c;
    SameMembersInPlace(w, m, r.(roster := r.roster - {c.user}));
    SameMembersInPlace(w, m, SetMark(r, c.user, Absent));
    SameMembersInPlace(w, m, r.(sessions := r.sessions - {c}));
    EndsInPlace(w, m, r.(members := r.members - {c.user}), Released(w.users, c.user, m), w.bound - {c});
    hide InPlace, Finished, SetRoom, SetMark, Released;
  }

  lemma DisconnectInPlace(w: World, m: Meeting, a: Answer)
    requires InPlace(w.users, w.rooms) && m in w.rooms && m in w.active && w.active[m].Disconnect?
    ensures InPlace(DisconnectStep(w, m, a).users, DisconnectStep(w, m, a).rooms)
  {
    var r, u := w.rooms[m], w.active[m].c.user;
    GoneInPlace(w.users, w, m, SetMark(r, u, Reconnecting));
    GoneInPlace(w.users, w, m, SetMark(r, u, Active));
    hide InPlace, SetMark, MarkOf;
  }

  lemma EndInPlace(w: World, m: Meeting, a: Answer)
    requires InPlace(w.users, w.rooms) && m in w.rooms && m in w.active && w.active[m].End?
    ensures InPlace(EndStep(w, m, a).users, EndStep(w, m, a).rooms)
  {
    var r := w.rooms[m];
    SameMembersInPlace(w, m, r);
    SameMembersInPlace(w, m, SetMark(r, a.user, Absent));
    ClosedInPlace(w, m, r);
    ClosedInPlace(w, m, r.(roster := {}));
    assert SetRoom(w, m, r) == w by { SameRoom(w, m); }
    hide InPlace, Finished, SetRoom, SetMark, EndClosed;
  }

  lemma ClosedInPlace(w: World, m: Meeting, r: Room)
    requires InPlace(w.users, w.rooms) && m in w.rooms && m in w.active && w.active[m].End?
    ensures InPlace(EndClosed(SetRoom(w, m, r), m).users, EndClosed(SetRoom(w, m, r), m).rooms)
  {
    var closed := r.(members := map[], sessions := {});
    RoomReleasedAll(w.users, m);
    EndsInPlace(w, m, closed, RoomReleased(w.users, m), w.bound - r.sessions);
    assert SetRoom(SetRoom(w, m, r), m, closed) == SetRoom(w, m, closed);
    hide InPlace, RoomReleased;
  }

  lemma ExpireInPlace(w: World, m: Meeting, a: Answer)
    requires InPlace(w.users, w.rooms) && m in w.rooms && m in w.active && w.active[m].Expire?
    ensures InPlace(ExpireStep(w, m, a).users, ExpireStep(w, m, a).rooms)
  {
    var r, u := w.rooms[m], w.active[m].u;
    SameMembersInPlace(w, m, r.(roster := r.roster - {u}));
    SameMembersInPlace(w, m, SetMark(r, u, Absent));
    EndsInPlace(w, m, r.(members := r.members - {u}), Released(w.users, u, m), w.bound);
    hide InPlace, Finished, SetRoom, SetMark, Released, MarkOf;
  }

  lemma StepInPlace(w: World, step: Step)
    requires Inv(w) && InPlace(w.users, w.rooms) && Enabled(w, step)
    ensures InPlace(Next(w, step).users, Next(w, step).rooms)
  {
    hide InPlace, JoinStep, LeaveStep, DisconnectStep, EndStep, ExpireStep, Begun;
    match step
    case Begin(m, op) => hide Inv; BeginInPlace(w, m, op);
    case Vanish(c, m) => hide Inv; SetInPlace(w, m, w.rooms[m].(sessions := w.rooms[m].sessions - {c}));
    case Advance(m, a) =>
      StageKnown(w, m);
      if w.active[m].Join? { assert BoundOk(w, w.active[m].c); }
      hide Inv, Stage, RoomOk, BoundOk;
      match w.active[m] {
        case Join(_, _, _, _, _, _, _) => JoinInPlace(w, m, a);
        case Leave(_, _) => LeaveInPlace(w, m, a);
        case Disconnect(_, _) => DisconnectInPlace(w, m, a);
        case End(_, _, _) => EndInPlace(w, m, a);
        case Expire(_, _) => ExpireInPlace(w, m, a);
      }
    case _ => hide Inv;
  }

  lemma {:induction false} RunInPlace(w: World, steps: seq<Step>)
    requires Inv(w) && InPlace(w.users, w.rooms) && Feasible(w, steps)
    ensures Inv(Run(w, steps)) && InPlace(Run(w, steps).users, Run(w, steps).rooms)
    decreases |steps|
  {
    hide Inv, InPlace, Next;
    if steps != [] {
      StepKeepsInv(w, steps[0]);
      StepInPlace(w, steps[0]);
      RunInPlace(Next(w, steps[0]), steps[1..]);
    }
  }

  /** In every run a place is taken only by those who are in: somebody who is neither a member of the meeting that
      the table of users has him in, nor just joining it, is not in the table, and any meeting takes him. */
  lemma NobodyIsHeldBack(w: World, steps: seq<Step>, u: User)
    requires Fresh(w) && Feasible(w, steps)
    ensures var v := Run(w, steps);
      u in v.users ==>
        var m := v.users[u].meeting;
        (m in v.rooms && u in v.rooms[m].members) || (m in v.active && v.active[m].Join? && v.active[m].c.user == u)
  {
    RunInPlace(w, steps);
    hide Run, Feasible, BoundOk, RoomOk, OpOk, LinkOk;
    if u in Run(w, steps).users {
      assert UserOk(Run(w, steps), u);
    }
  }
}
