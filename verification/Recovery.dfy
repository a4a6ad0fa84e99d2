/**
 Recovery of the client's connection and meeting (recoverycontroller.cpp) with the gate in front of the
 socket (tcpmgr.cpp). Everything runs on one thread; a send that fails calls back into the controller
 before it returns.
 */
module Recovery {
  import opened Histories

  const BUDGET_MS: nat := 45000

  datatype State = Idle | Ready | Waiting | Connecting | Authenticating | Resuming | Failed

  datatype Socket = NoSocket | Opening | Open

  /** The retained meeting; `home` is the socket generation on which it was joined or resumed last. */
  datatype Meeting = Meeting(hasTicket: bool, home: nat)

  datatype Kind = Auth | Resume | Heartbeat | Business

  /** How a send ends: taken by the socket, refused as too long, or fatal for the connection before or
      after the frame was handed over. */
  datatype Outcome = Taken | TooLong | Overflow | Short

  /** A frame handed to the socket, with what held at that moment. */
  datatype Frame = Frame(kind: Kind, generation: nat, authedOn: nat, meeting: Option<Meeting>)

  datatype Link = Link(socket: Socket, generation: nat, connectTimer: bool, gate: bool, written: seq<Frame>)

  /** Timers are armed or not; the budget timer remembers when it was started. `authedOn` is the last
      generation on which the login was accepted. */
  datatype Client = Client(
    state: State, retry: bool, stage: bool, budget: Option<nat>, failures: nat, authenticated: bool,
    request: nat, lastRequest: nat, meeting: Option<Meeting>, authedOn: nat, now: nat, link: Link)

  predicate Recovering(state: State) {
    state in {Waiting, Connecting, Authenticating, Resuming}
  }

  // ---- The socket ----

  function LinkClosed(l: Link): Link {
    l.(generation := l.generation + 1, connectTimer := false, gate := false, socket := NoSocket)
  }

  function LinkOpening(l: Link): Link {
    LinkClosed(l).(socket := Opening, connectTimer := true)
  }

  predicate Passes(l: Link, kind: Kind, outcome: Outcome) {
    l.socket == Open && (l.gate || kind != Business) && !outcome.TooLong?
  }

  // ---- The controller ----

  function Closed(c: Client): Client {
    c.(link := LinkClosed(c.link))
  }

  function SetState(c: Client, state: State): Client {
    c.(state := state, link := c.link.(gate := state == Ready))
  }

  function Retried(c: Client): Client {
    if !Recovering(c.state) then c
    else
      var d := Closed(c.(stage := false));
      if d.retry then d else SetState(d, Waiting).(failures := d.failures + 1, retry := true)
  }

  /** `leaving`: the user had already asked to leave the meeting when the connection was lost. */
  function Interrupted(c: Client, leaving: bool): Client {
    var id := c.lastRequest + 1;
    SetState(c.(failures := 0, request := id, lastRequest := id, budget := Some(c.now)), Waiting)
      .(meeting := if leaving then None else c.meeting)
  }

  function DisconnectedFrom(c: Client, leaving: bool): Client {
    if !c.authenticated || c.state == Idle || c.state == Failed then c
    else Retried(if c.state == Ready then Interrupted(c, leaving) else c)
  }

  function Lost(c: Client, leaving: bool): Client {
    if c.link.socket == NoSocket then c else DisconnectedFrom(Closed(c), leaving)
  }

  function Handed(c: Client, kind: Kind): Client {
    c.(link := c.link.(written := c.link.written + [Frame(kind, c.link.generation, c.authedOn, c.meeting)]))
  }

  function Sent(c: Client, kind: Kind, outcome: Outcome, leaving: bool): Client {
    if !Passes(c.link, kind, outcome) then c
    else match outcome
      case Overflow => Lost(c, leaving)
      case Short => Lost(Handed(c, kind), leaving)
      case _ => Handed(c, kind)
  }

  function Finished(c: Client): Client {
    SetState(c.(retry := false, stage := false, budget := None, failures := 0), Ready)
  }

  function Stopped(c: Client): Client {
    SetState(Closed(c.(retry := false, stage := false, budget := None, authenticated := false, request := 0)), Idle)
      .(meeting := None)
  }

  function FailedFrom(c: Client): Client {
    SetState(Stopped(c), Failed)
  }

  function HeartbeatStarted(c: Client, supported: bool, outcome: Outcome, leaving: bool): Client {
    if supported && c.link.socket == Open then Sent(c, Heartbeat, outcome, leaving) else c
  }

  // ---- Events ----

  datatype Reply = Transient | Refused | Success
  datatype Match = Absent | Same | Other

  datatype Step =
    | Tick                                // one millisecond; the budget timer fires when it is due
    | LoginConnects
    | SocketOpens(outcome: Outcome)
    | SocketLost(leaving: bool)           // end of stream, error, connect timeout, heartbeat timeout
    | RetryFires
    | StageFires
    | LoginAccepted(heartbeat: bool, outcome: Outcome, leaving: bool)
    | AuthReply(reply: Reply, resumable: bool, heartbeat: bool, beat: Outcome, outcome: Outcome)
    | ResumeReply(reply: Reply, id: Match, applies: bool)
    | BusinessSend(outcome: Outcome, leaving: bool)
    | HeartbeatSend(outcome: Outcome, leaving: bool)
    | Joined(hasTicket: bool)
    | MeetingEnds
    | UserLeaves
    | StopRequested

  predicate Enabled(c: Client, step: Step) {
    match step
    case LoginConnects => c.state == Idle
    case SocketOpens(_) => c.link.socket == Opening
    case RetryFires => c.retry
    case StageFires => c.stage
    case LoginAccepted(_, _, _) => c.link.socket == Open && (c.state == Idle || c.state == Ready)
    case AuthReply(_, _, _, _, _) => c.link.socket == Open && Recovering(c.state)
    case ResumeReply(_, _, _) => c.link.socket == Open
    case Joined(_) => c.link.socket == Open && c.state == Ready
    case MeetingEnds => c.link.socket == Open && c.state == Ready
    case UserLeaves => Recovering(c.state) || c.state == Failed
    case _ => true
  }

  function SocketOpened(c: Client, outcome: Outcome): Client {
    var d := c.(link := c.link.(socket := Open, connectTimer := false));
    if d.state != Connecting then d
    else Sent(SetState(d, Authenticating).(stage := true), Auth, outcome, false)
  }

  function ConnectNow(c: Client): Client {
    if c.state != Waiting then c
    else var d := SetState(c, Connecting); d.(link := LinkOpening(d.link))
  }

  function LoginTaken(c: Client, heartbeat: bool, outcome: Outcome, leaving: bool): Client {
    HeartbeatStarted(Finished(c.(authenticated := true, authedOn := c.link.generation)), heartbeat, outcome, leaving)
  }

  function ResumeBegun(c: Client, outcome: Outcome): Client {
    Sent(SetState(c, Resuming).(stage := true), Resume, outcome, false)
  }

  /** Starting the heartbeat may already have lost the connection. */
  function AuthContinued(c: Client, resumable: bool, outcome: Outcome): Client {
    if c.state != Authenticating then c
    else if c.meeting.None? then Finished(c)
    else if !resumable || !c.meeting.value.hasTicket then Finished(c.(meeting := None))
    else ResumeBegun(c, outcome)
  }

  function AuthAccepted(c: Client, resumable: bool, heartbeat: bool, beat: Outcome, outcome: Outcome): Client {
    AuthContinued(HeartbeatStarted(c.(authedOn := c.link.generation), heartbeat, beat, false), resumable, outcome)
  }

  function AuthReplied(
    c: Client, reply: Reply, resumable: bool, heartbeat: bool, beat: Outcome, outcome: Outcome): Client
  {
    if c.state != Authenticating then c
    else match reply
      case Transient => Retried(c.(stage := false))
      case Refused => FailedFrom(c.(stage := false))
      case Success => AuthAccepted(c.(stage := false), resumable, heartbeat, beat, outcome)
  }

  /** `id` compares the request id in the reply with the one of this recovery; `applies`: the snapshot
      fits the retained meeting. */
  function ResumeReplied(c: Client, reply: Reply, id: Match, applies: bool): Client {
    if c.state != Resuming || id == Other then c
    else match reply
      case Transient => Retried(c.(stage := false))
      case Refused => Finished(c.(stage := false, meeting := None))
      case Success =>
        if id != Same || !applies || c.meeting.None? then FailedFrom(c.(stage := false))
        else Finished(c.(stage := false, meeting := Some(c.meeting.value.(home := c.link.generation))))
  }

  function Ticked(c: Client): Client {
    var d := c.(now := c.now + 1);
    if d.budget.Some? && d.now >= d.budget.value + BUDGET_MS then FailedFrom(d.(budget := None)) else d
  }

  function Next(c: Client, step: Step): Client
    requires Enabled(c, step)
  {
    match step
    case Tick => Ticked(c)
    case LoginConnects => c.(link := LinkOpening(c.link))
    case SocketOpens(outcome) => SocketOpened(c, outcome)
    case SocketLost(leaving) => Lost(c, leaving)
    case RetryFires => ConnectNow(c.(retry := false))
    case StageFires => Retried(c.(stage := false))
    case LoginAccepted(heartbeat, outcome, leaving) => LoginTaken(c, heartbeat, outcome, leaving)
    case AuthReply(reply, resumable, heartbeat, beat, outcome) =>
      AuthReplied(c, reply, resumable, heartbeat, beat, outcome)
    case ResumeReply(reply, id, applies) => ResumeReplied(c, reply, id, applies)
    case BusinessSend(outcome, leaving) => Sent(c, Business, outcome, leaving)
    case HeartbeatSend(outcome, leaving) => Sent(c, Heartbeat, outcome, leaving)
    case Joined(hasTicket) => c.(meeting := Some(Meeting(hasTicket, c.link.generation)))
    case MeetingEnds => c.(meeting := None)
    case UserLeaves =>
      var d := c.(meeting := None);
      if d.state == Resuming then Retried(d) else d
    case StopRequested => Stopped(c)
  }

  // ---- The invariant ----

  /** Which timers are armed and what the socket is, state by state. */
  predicate Timed(c: Client) {
    && (c.retry <==> c.state == Waiting)
    && (c.stage <==> c.state == Authenticating || c.state == Resuming)
    && (c.budget.Some? <==> Recovering(c.state))
    && (c.link.connectTimer <==> c.link.socket == Opening)
    && (c.state == Waiting ==> c.link.socket == NoSocket)
    && (c.state == Connecting ==> c.link.socket == Opening)
    && (c.state in {Authenticating, Resuming, Ready} ==> c.link.socket == Open)
    && (c.budget.Some? ==> c.budget.value <= c.now < c.budget.value + BUDGET_MS)
  }

  predicate Gated(c: Client) {
    && (c.link.gate <==> c.state == Ready)
    && (Recovering(c.state) || c.state == Ready ==> c.authenticated)
    && (c.state == Resuming || c.state == Ready ==> c.authedOn == c.link.generation)
    && (c.state == Ready && c.meeting.Some? ==> c.meeting.value.home == c.link.generation)
    && (c.state == Resuming ==> c.meeting.Some?)
    && (c.state == Idle || c.state == Failed ==> c.meeting.None?)
  }

  /** On its generation the login had been accepted, and the meeting kept at that moment, if any, had been
      joined or resumed. */
  predicate Lawful(f: Frame) {
    f.kind == Business ==>
      f.authedOn == f.generation && (f.meeting.Some? ==> f.meeting.value.home == f.generation)
  }

  ghost predicate Inv(c: Client) {
    Timed(c) && Gated(c) && forall f :: f in c.link.written ==> Lawful(f)
  }

  lemma LostKeepsInv(c: Client, leaving: bool)
    requires Inv(c)
    ensures Inv(Lost(c, leaving)) && Lost(c, leaving).link.written == c.link.written
    ensures Recovering(c.state) ==> Lost(c, leaving).budget == c.budget
  {
  }

  lemma SentKeepsInv(c: Client, kind: Kind, outcome: Outcome, leaving: bool)
    requires Inv(c)
    ensures Inv(Sent(c, kind, outcome, leaving))
    ensures Recovering(c.state) ==> Sent(c, kind, outcome, leaving).budget == c.budget
  {
    var h := Handed(c, kind);
    if Passes(c.link, kind, outcome) {
      assert Lawful(Frame(kind, c.link.generation, c.authedOn, c.meeting));
      assert Inv(h);
    }
    LostKeepsInv(c, leaving);
    if Passes(c.link, kind, outcome) { LostKeepsInv(h, leaving); }
  }

  /** The stage timer plays no part until the state is left. */
  lemma SentWithoutStage(c: Client, kind: Kind, outcome: Outcome)
    requires Inv(c) && c.state == Authenticating
    ensures var d := Sent(c, kind, outcome, false);
      Sent(c.(stage := false), kind, outcome, false) == if d.state == Authenticating then d.(stage := false) else d
  {
  }

  lemma ContinueKeepsInv(e: Client, resumable: bool, outcome: Outcome)
    requires Inv(e) && (e.state == Authenticating ==> e.authedOn == e.link.generation)
    ensures var d := AuthContinued(if e.state == Authenticating then e.(stage := false) else e, resumable, outcome);
      Inv(d) && (Recovering(e.state) && Recovering(d.state) ==> d.budget == e.budget)
  {
    if e.state == Authenticating && e.meeting.Some? {
      SentKeepsInv(SetState(e, Resuming).(stage := true), Resume, outcome, false);
      assert SetState(e.(stage := false), Resuming).(stage := true) == SetState(e, Resuming).(stage := true);
      hide Sent;
    }
  }

  lemma SentStaysAuthed(c: Client, outcome: Outcome)
    requires c.authedOn == c.link.generation
    ensures var d := Sent(c, Heartbeat, outcome, false);
      d.state == Authenticating && c.state == Authenticating && Inv(c) ==> d.authedOn == d.link.generation
  {
  }

  lemma AuthKeepsInv(c: Client, resumable: bool, heartbeat: bool, beat: Outcome, outcome: Outcome)
    requires Inv(c) && c.state == Authenticating
    ensures var e := AuthAccepted(c.(stage := false), resumable, heartbeat, beat, outcome);
      Inv(e) && (Recovering(e.state) ==> e.budget == c.budget)
  {
    var d := c.(authedOn := c.link.generation);
    assert Inv(d);
    SentKeepsInv(d, Heartbeat, beat, false);
    SentWithoutStage(d, Heartbeat, beat);
    SentStaysAuthed(d, beat);
    hide Sent, AuthContinued, Lawful;
    var e := HeartbeatStarted(d, heartbeat, beat, false);
    assert c.(stage := false).(authedOn := c.link.generation) == d.(stage := false);
    ContinueKeepsInv(e, resumable, outcome);
  }

  lemma LoginKeepsInv(c: Client, heartbeat: bool, outcome: Outcome, leaving: bool)
    requires Inv(c) && c.link.socket == Open && (c.state == Idle || c.state == Ready)
    ensures Inv(LoginTaken(c, heartbeat, outcome, leaving))
  {
    var d := Finished(c.(authenticated := true, authedOn := c.link.generation));
    assert Inv(d);
    SentKeepsInv(d, Heartbeat, outcome, leaving);
  }

  lemma StepKeepsInv(c: Client, step: Step)
    requires Inv(c) && Enabled(c, step)
    ensures Inv(Next(c, step))
    ensures Recovering(c.state) && Recovering(Next(c, step).state) ==> Next(c, step).budget == c.budget
  {
    match step
    case SocketOpens(outcome) =>
      var d := SetState(c.(link := c.link.(socket := Open, connectTimer := false)), Authenticating).(stage := true);
      if c.state == Connecting {
        assert Inv(d);
        SentKeepsInv(d, Auth, outcome, false);
      }
    case SocketLost(leaving) => LostKeepsInv(c, leaving);
    case LoginAccepted(heartbeat, outcome, leaving) => LoginKeepsInv(c, heartbeat, outcome, leaving);
    case AuthReply(reply, resumable, heartbeat, beat, outcome) =>
      if c.state == Authenticating && reply == Success { AuthKeepsInv(c, resumable, heartbeat, beat, outcome); }
    case BusinessSend(outcome, leaving) => SentKeepsInv(c, Business, outcome, leaving);
    case HeartbeatSend(outcome, leaving) => SentKeepsInv(c, Heartbeat, outcome, leaving);
    case _ =>
  }

  // ---- What events do ----

  /** Recovery goes on: the connection is closed, and the retry timer gets it on; nothing is given up. */
  predicate TriesAgain(c: Client, d: Client) {
    && d.state == Waiting && d.retry && !d.stage && d.link.socket == NoSocket && !d.link.connectTimer && !d.link.gate
    && d.meeting == c.meeting && d.request == c.request && d.budget == c.budget && d.authenticated
  }

  /** Recovery is over and nothing of the session is left. */
  predicate GivesUp(d: Client) {
    && d.state == Failed && !d.retry && !d.stage && d.budget == None && d.meeting == None
    && !d.authenticated && d.request == 0 && d.link.socket == NoSocket && !d.link.gate
  }

  /** Recovery is over and business goes on over the connection. */
  predicate GoesOn(c: Client, d: Client) {
    && d.state == Ready && !d.retry && !d.stage && d.budget == None && d.failures == 0 && d.link.gate
    && d.link.socket == Open && d.link.generation == c.link.generation && d.authenticated
  }

  predicate Fatal(outcome: Outcome) {
    outcome.Overflow? || outcome.Short?
  }

  /** The answer to the login, while it is awaited: a temporary error is tried again, a refusal ends
      recovery, and acceptance resumes the kept meeting if that can be done. */
  lemma LoginReplies(c: Client, reply: Reply, resumable: bool, heartbeat: bool, beat: Outcome, outcome: Outcome)
    requires Inv(c) && c.link.socket == Open && Recovering(c.state)
    ensures var d := Next(c, AuthReply(reply, resumable, heartbeat, beat, outcome));
      var kept := c.meeting.Some? && resumable && c.meeting.value.hasTicket;
      && (c.state != Authenticating ==> d == c)
      && (c.state == Authenticating && reply == Transient ==> TriesAgain(c, d) && d.failures == c.failures + 1)
      && (c.state == Authenticating && reply == Refused ==> GivesUp(d))
      && (c.state == Authenticating && reply == Success && heartbeat && Fatal(beat) ==> TriesAgain(c, d))
      && (c.state == Authenticating && reply == Success && !(heartbeat && Fatal(beat)) ==>
            if !kept then GoesOn(c, d) && d.meeting == None
            else if Fatal(outcome) then TriesAgain(c, d)
            else d.state == Resuming && d.stage && !d.retry && d.meeting == c.meeting && d.request == c.request
                 && d.budget == c.budget && d.link.socket == Open && !d.link.gate)
  {
    if c.state == Authenticating && reply == Success {
      hide Lawful, Inv;
      AcceptedLogin(c, resumable, heartbeat, beat, outcome);
    }
  }

  lemma BeatSent(c: Client, beat: Outcome)
    requires c.state == Authenticating && !c.retry && c.authenticated && c.link.socket == Open
    ensures var d := Sent(c, Heartbeat, beat, false);
      if Fatal(beat) then TriesAgain(c, d)
      else d == c.(link := c.link.(written := d.link.written))
  {
  }

  lemma ResumeSent(c: Client, outcome: Outcome)
    requires Recovering(c.state) && !c.retry && c.authenticated && c.link.socket == Open
    ensures var d := ResumeBegun(c, outcome);
      if Fatal(outcome) then TriesAgain(c, d)
      else d == SetState(c, Resuming).(stage := true,
                  link := c.link.(gate := false, written := d.link.written))
  {
  }

  lemma AcceptedLogin(c: Client, resumable: bool, heartbeat: bool, beat: Outcome, outcome: Outcome)
    requires c.state == Authenticating && !c.retry && c.authenticated && c.link.socket == Open && !c.link.connectTimer
    ensures var d := AuthAccepted(c.(stage := false), resumable, heartbeat, beat, outcome);
      var kept := c.meeting.Some? && resumable && c.meeting.value.hasTicket;
      if heartbeat && Fatal(beat) then TriesAgain(c, d)
      else if !kept then GoesOn(c, d) && d.meeting == None
      else if Fatal(outcome) then TriesAgain(c, d)
      else d.state == Resuming && d.stage && !d.retry && d.meeting == c.meeting && d.request == c.request
           && d.budget == c.budget && d.link.socket == Open && !d.link.gate
  {
    var b := c.(stage := false).(authedOn := c.link.generation);
    BeatSent(b, beat);
    var e := HeartbeatStarted(b, heartbeat, beat, false);
    if e.state == Authenticating { ResumeSent(e, outcome); }
    hide Sent, ResumeBegun;
  }

  /** The answer to the resumption, while it is awaited; one to another request changes nothing. */
  lemma ResumeReplies(c: Client, reply: Reply, id: Match, applies: bool)
    requires Inv(c) && c.link.socket == Open
    ensures var d := Next(c, ResumeReply(reply, id, applies));
      && (c.state != Resuming || id == Other ==> d == c)
      && (c.state == Resuming && id != Other && reply == Transient ==>
            TriesAgain(c, d) && d.failures == c.failures + 1)
      && (c.state == Resuming && id != Other && reply == Refused ==> GoesOn(c, d) && d.meeting == None)
      && (c.state == Resuming && id == Same && reply == Success && applies ==>
            GoesOn(c, d) && d.meeting == Some(Meeting(c.meeting.value.hasTicket, c.link.generation)))
      && (c.state == Resuming && reply == Success && (id == Absent || (id == Same && !applies)) ==> GivesUp(d))
  {
  }

  /** A lost connection: in normal operation recovery begins, with the whole budget and a new request id. */
  lemma Losses(c: Client, leaving: bool)
    requires Inv(c) && c.link.socket != NoSocket
    ensures var d := Next(c, SocketLost(leaving));
      && d.link.socket == NoSocket && d.link.generation > c.link.generation
      && (c.state == Ready ==>
            && d.state == Waiting && d.retry && !d.stage && d.failures == 1 && d.budget == Some(c.now)
            && d.request == c.lastRequest + 1 && d.meeting == (if leaving then None else c.meeting) && d.authenticated)
      && (Recovering(c.state) ==> TriesAgain(c, d) && d.failures == c.failures + 1)
      && (c.state == Idle || c.state == Failed ==> d.state == c.state && !d.retry)
  {
  }

  /** The timers get recovery on, or end it. */
  lemma Timers(c: Client)
    requires Inv(c)
    ensures c.retry ==> var d := Next(c, RetryFires);
      d.state == Connecting && !d.retry && d.link.socket == Opening && d.link.connectTimer &&
      d.meeting == c.meeting && d.request == c.request && d.budget == c.budget
    ensures c.stage ==> var d := Next(c, StageFires); TriesAgain(c, d) && d.failures == c.failures + 1
    ensures var d := Next(c, Tick);
      if Recovering(c.state) && c.now + 1 >= c.budget.value + BUDGET_MS then GivesUp(d) else d == c.(now := c.now + 1)
  {
  }

  /** An opened connection logs in again at once. */
  lemma Openings(c: Client, outcome: Outcome)
    requires Inv(c) && c.state == Connecting
    ensures var d := Next(c, SocketOpens(outcome));
      if Fatal(outcome) then TriesAgain(c, d) && d.failures == c.failures + 1
      else d.state == Authenticating && d.stage && d.link.socket == Open && !d.link.gate && d.meeting == c.meeting
           && d.budget == c.budget
    ensures var d := Next(c, SocketOpens(outcome));
      outcome.Taken? ==> |d.link.written| == |c.link.written| + 1 && d.link.written[|c.link.written|].kind == Auth
  {
  }

  /** Business frames go out in normal operation only. */
  lemma Sendings(c: Client, outcome: Outcome, leaving: bool)
    requires Inv(c)
    ensures var d := Next(c, BusinessSend(outcome, leaving));
      if c.state != Ready || outcome.TooLong? then d == c
      else if outcome.Taken? then
        d == c.(link := c.link.(written :=
          c.link.written + [Frame(Business, c.link.generation, c.authedOn, c.meeting)]))
      else d.state == Waiting && d.retry && d.budget == Some(c.now) && d.link.socket == NoSocket
    ensures c.link.socket == Open && c.state == Idle ==> var d := Next(c, LoginAccepted(false, outcome, leaving));
      GoesOn(c, d) && d.meeting == c.meeting
    ensures c.link.socket == Open && c.state == Ready ==>
      Next(c, MeetingEnds) == c.(meeting := None) &&
      forall ticket :: Next(c, Joined(ticket)).meeting == Some(Meeting(ticket, c.link.generation))
  {
  }

  /** The user's own doings. */
  lemma UserActs(c: Client)
    requires Inv(c)
    ensures var d := Next(c, StopRequested);
      d.state == Idle && !d.retry && !d.stage && d.budget == None && d.meeting == None && !d.authenticated &&
      d.link.socket == NoSocket
    ensures Recovering(c.state) || c.state == Failed ==> var d := Next(c, UserLeaves);
      && d.meeting == None && d.request == c.request && d.budget == c.budget
      && (if c.state == Resuming then d.state == Waiting && d.retry && d.link.socket == NoSocket
          else d.state == c.state)
  {
  }

  /** A refused login, an answer to the resumption that does not fit, or the end of the budget. */
  predicate EndsRecovery(c: Client, step: Step) {
    match step
    case AuthReply(reply, _, _, _, _) => c.state == Authenticating && reply == Refused
    case ResumeReply(reply, id, applies) =>
      c.state == Resuming && reply == Success && (id == Absent || (id == Same && !applies))
    case Tick => c.budget.Some? && c.now + 1 >= c.budget.value + BUDGET_MS
    case _ => false
  }

  /** One of these, a refused resumption, want of support, or the user. */
  predicate EndsMeeting(c: Client, step: Step) {
    match step
    case AuthReply(reply, resumable, _, _, _) =>
      c.state == Authenticating &&
      (reply == Refused || (reply == Success && c.meeting.Some? && !(resumable && c.meeting.value.hasTicket)))
    case ResumeReply(reply, id, applies) =>
      c.state == Resuming && id != Other && (reply == Refused || EndsRecovery(c, step))
    case Tick => EndsRecovery(c, step)
    case UserLeaves => true
    case StopRequested => true
    case _ => false
  }

  lemma FailsOnlyFor(c: Client, step: Step)
    requires Inv(c) && Enabled(c, step) && Recovering(c.state) && Next(c, step).state == Failed
    ensures EndsRecovery(c, step)
  {
    hide Lawful;
    match step
    case AuthReply(reply, resumable, heartbeat, beat, outcome) =>
      LoginReplies(c, reply, resumable, heartbeat, beat, outcome);
      hide Inv, AuthReplied;
    case SocketOpens(outcome) => if c.state == Connecting { Openings(c, outcome); } hide Inv, Sent;
    case _ =>
  }

  lemma MeetingLostOnlyFor(c: Client, step: Step)
    requires Inv(c) && Enabled(c, step) && Recovering(c.state) && c.meeting.Some? && Next(c, step).meeting == None
    ensures EndsMeeting(c, step)
  {
    hide Lawful;
    match step
    case AuthReply(reply, resumable, heartbeat, beat, outcome) =>
      LoginReplies(c, reply, resumable, heartbeat, beat, outcome);
      hide Inv, AuthReplied;
    case SocketOpens(outcome) => if c.state == Connecting { Openings(c, outcome); } hide Inv, Sent;
    case _ =>
  }

  // ---- Runs ----

  ghost predicate Feasible(c: Client, steps: seq<Step>)
    decreases |steps|
  {
    steps == [] || (Enabled(c, steps[0]) && Feasible(Next(c, steps[0]), steps[1..]))
  }

  ghost function Run(c: Client, steps: seq<Step>): Client
    requires Feasible(c, steps)
    decreases |steps|
  {
    if steps == [] then c else Run(Next(c, steps[0]), steps[1..])
  }

  lemma {:induction false} RunKeepsInv(c: Client, steps: seq<Step>)
    requires Inv(c) && Feasible(c, steps)
    ensures Inv(Run(c, steps))
    decreases |steps|
  {
    hide Inv, Next;
    if steps != [] {
      StepKeepsInv(c, steps[0]);
      RunKeepsInv(Next(c, steps[0]), steps[1..]);
    }
  }

  function Start(): Client {
    Client(Idle, false, false, None, 0, false, 0, 0, None, 0, 0, Link(NoSocket, 0, false, false, []))
  }

  /** In every run, a business frame is handed to the socket only after the login was accepted on that very
      generation and, if a meeting is kept at that moment, after it was joined or resumed on it. */
  lemma BusinessOnlyWhenRestored(steps: seq<Step>, f: Frame)
    requires Feasible(Start(), steps)
    requires f in Run(Start(), steps).link.written && f.kind == Business
    ensures f.authedOn == f.generation
    ensures f.meeting.Some? ==> f.meeting.value.home == f.generation
  {
    RunKeepsInv(Start(), steps);
    assert Lawful(f);
  }

  /** In every run, recovery never hangs: a recovering state has the timer armed that gets it on, and the
      budget timer, which ends recovery when it fires, runs in exactly these states. */
  lemma RecoveryKeepsMoving(steps: seq<Step>)
    requires Feasible(Start(), steps)
    ensures var c := Run(Start(), steps);
      && (c.state == Waiting ==> c.retry)
      && (c.state == Connecting ==> c.link.connectTimer && c.link.socket == Opening)
      && (c.state == Authenticating || c.state == Resuming ==> c.stage)
      && (c.budget.Some? <==> Recovering(c.state))
      && (c.budget.Some? ==> c.now < c.budget.value + BUDGET_MS)
      && (c.retry ==> c.state == Waiting) && (c.stage ==> c.state == Authenticating || c.state == Resuming)
  {
    RunKeepsInv(Start(), steps);
  }

  /** The budget is started when the connection is lost, and nothing that happens while recovering starts
      it anew. */
  lemma {:induction false} BudgetIsNotExtended(c: Client, steps: seq<Step>)
    requires Inv(c) && Recovering(c.state) && Feasible(c, steps)
    requires forall i :: 0 <= i <= |steps| ==> Feasible(c, steps[..i]) && Recovering(Run(c, steps[..i]).state)
    ensures Run(c, steps).budget == c.budget
    decreases |steps|
  {
    if steps != [] {
      var next := Next(c, steps[0]);
      StepKeepsInv(c, steps[0]);
      assert steps[..1] == [steps[0]] && steps[..1][1..] == [];
      assert Run(c, steps[..1]) == Run(next, []) == next;
      forall i | 0 <= i <= |steps[1..]|
        ensures Feasible(next, steps[1..][..i]) && Recovering(Run(next, steps[1..][..i]).state)
      {
        assert steps[..i + 1][1..] == steps[1..][..i] && steps[..i + 1][0] == steps[0];
      }
      BudgetIsNotExtended(next, steps[1..]);
    }
  }

  /** In every run, recovery fails only over a refused login, an answer to the resumption that does not fit, or
      the end of its budget; and it gives the kept meeting up only then, over a refused resumption, for want of
      support, or for the user. */
  lemma EndsOnlyFor(steps: seq<Step>, step: Step)
    requires Feasible(Start(), steps) && Enabled(Run(Start(), steps), step)
    requires Recovering(Run(Start(), steps).state)
    ensures var c, d := Run(Start(), steps), Next(Run(Start(), steps), step);
      && (d.state == Failed ==> EndsRecovery(c, step))
      && (c.meeting.Some? && d.meeting == None ==> EndsMeeting(c, step))
  {
    RunKeepsInv(Start(), steps);
    var c := Run(Start(), steps);
    hide Run, Feasible, Next, Inv;
    if Next(c, step).state == Failed { FailsOnlyFor(c, step); }
    if c.meeting.Some? && Next(c, step).meeting == None { MeetingLostOnlyFor(c, step); }
  }

  function Ticks(steps: seq<Step>): nat {
    if steps == [] then 0 else Ticks(steps[1..]) + if steps[0].Tick? then 1 else 0
  }

  lemma {:induction false} ClockCounts(c: Client, steps: seq<Step>)
    requires Feasible(c, steps)
    ensures Run(c, steps).now == c.now + Ticks(steps)
    decreases |steps|
  {
    if steps != [] {
      StepCounts(c, steps[0]);
      ClockCounts(Next(c, steps[0]), steps[1..]);
    }
  }

  lemma SendTakesNoTime(c: Client)
    ensures forall kind, outcome, leaving :: Sent(c, kind, outcome, leaving).now == c.now
    ensures forall leaving :: Lost(c, leaving).now == c.now
  {
  }

  lemma AuthTakesNoTime(c: Client, resumable: bool, heartbeat: bool, beat: Outcome, outcome: Outcome)
    ensures AuthAccepted(c, resumable, heartbeat, beat, outcome).now == c.now
  {
    var d := c.(authedOn := c.link.generation);
    SendTakesNoTime(d);
    var e := HeartbeatStarted(d, heartbeat, beat, false);
    SendTakesNoTime(SetState(e, Resuming).(stage := true));
    hide Sent;
  }

  lemma StepCounts(c: Client, step: Step)
    requires Enabled(c, step)
    ensures Next(c, step).now == c.now + if step.Tick? then 1 else 0
  {
    hide Sent, Lost, AuthAccepted;
    match step
    case SocketOpens(_) =>
      SendTakesNoTime(SetState(c.(link := c.link.(socket := Open, connectTimer := false)), Authenticating)
                        .(stage := true));
    case LoginAccepted(_, _, _) =>
      SendTakesNoTime(Finished(c.(authenticated := true, authedOn := c.link.generation)));
    case AuthReply(_, resumable, heartbeat, beat, outcome) =>
      AuthTakesNoTime(c.(stage := false), resumable, heartbeat, beat, outcome);
    case _ => SendTakesNoTime(c);
  }

  /** No connection stays in recovery for 45 seconds, whatever is lost, refused or answered meanwhile: while it
      recovers, fewer ticks pass than the budget has. */
  lemma RecoveryEnds(c: Client, steps: seq<Step>)
    requires Inv(c) && Recovering(c.state) && Feasible(c, steps)
    requires forall i :: 0 <= i <= |steps| ==> Feasible(c, steps[..i]) && Recovering(Run(c, steps[..i]).state)
    ensures Ticks(steps) < BUDGET_MS
  {
    BudgetIsNotExtended(c, steps);
    ClockCounts(c, steps);
    RunKeepsInv(c, steps);
    assert steps[..|steps|] == steps;
  }

  // ---- The objects ----

  class TcpMgr {
    var socket: Socket
    var generation: nat
    var connectTimer: bool
    var businessReady: bool

    constructor ()
      ensures socket == NoSocket && generation == 0 && !connectTimer && !businessReady
    {
      socket, generation, connectTimer, businessReady := NoSocket, 0, false, false;
    }

    method CloseConnection()
      modifies this
      ensures socket == NoSocket && generation == old(generation) + 1 && !connectTimer && !businessReady
    {
      generation := generation + 1;
      connectTimer := false;
      businessReady := false;
      socket := NoSocket;
    }

    method Connect()
      modifies this
      ensures socket == Opening && generation == old(generation) + 1 && connectTimer && !businessReady
    {
      CloseConnection();
      socket := Opening;
      connectTimer := true;
    }

    /** Whether the frame went out, and whether the connection was given up over it. */
    method Send(kind: Kind, outcome: Outcome) returns (handed: bool, lost: bool)
      modifies this
      ensures var passes := old(socket) == Open && (old(businessReady) || kind != Business) && !outcome.TooLong?;
        handed == (passes && !outcome.Overflow?) && lost == (passes && (outcome.Overflow? || outcome.Short?))
      ensures lost ==> socket == NoSocket && generation == old(generation) + 1 && !connectTimer && !businessReady
      ensures !lost ==> socket == old(socket) && generation == old(generation)
      ensures !lost ==> connectTimer == old(connectTimer) && businessReady == old(businessReady)
    {
      handed, lost := false, false;
      if socket != Open || (!businessReady && kind == Business) || outcome.TooLong? {
        return;
      }
      if outcome.Overflow? {
        CloseConnection();
        return false, true;
      }
      handed := true;
      if outcome.Short? {
        CloseConnection();
        lost := true;
      }
    }
  }

  class RecoveryController {
    const tcp: TcpMgr
    var state: State
    var retryTimer: bool
    var stageTimer: bool
    var budgetTimer: Option<nat>
    var failures: nat
    var authenticated: bool
    var request: nat              // 0 while there is none; a new one is fresh
    var lastRequest: nat
    var meeting: Option<Meeting>  // kept by the meeting controller
    ghost var authedOn: nat
    ghost var written: seq<Frame>
    var now: nat

    ghost function View(): Client
      reads this, tcp
    {
      Client(state, retryTimer, stageTimer, budgetTimer, failures, authenticated, request, lastRequest, meeting,
             authedOn, now, Link(tcp.socket, tcp.generation, tcp.connectTimer, tcp.businessReady, written))
    }

    constructor (tcp: TcpMgr)
      requires tcp.socket == NoSocket && tcp.generation == 0 && !tcp.connectTimer && !tcp.businessReady
      ensures this.tcp == tcp && View() == Start()
    {
      this.tcp := tcp;
      state, retryTimer, stageTimer, budgetTimer := Idle, false, false, None;
      failures, authenticated, request, lastRequest, meeting, now := 0, false, 0, 0, None, 0;
      authedOn, written := 0, [];
    }

    method ChangeState(next: State)
      modifies this`state, tcp`businessReady
      ensures View() == SetState(old(View()), next)
    {
      state := next;
      tcp.businessReady := next == Ready;
    }

    method Retry()
      modifies this, tcp
      ensures View() == Retried(old(View()))
      ensures meeting == old(meeting) && request == old(request) && budgetTimer == old(budgetTimer)
      ensures old(state) in {Waiting, Connecting, Authenticating, Resuming} ==>
        !stageTimer && retryTimer && tcp.socket == NoSocket && !tcp.connectTimer
      ensures old(state) in {Waiting, Connecting, Authenticating, Resuming} && !old(retryTimer) ==>
        state == Waiting && failures == old(failures) + 1
      ensures old(state) in {Idle, Ready, Failed} ==> View() == old(View())
    {
      if !(state in {Waiting, Connecting, Authenticating, Resuming}) {
        return;
      }
      stageTimer := false;
      tcp.CloseConnection();
      if retryTimer {
        return;
      }
      failures := failures + 1;
      ChangeState(Waiting);
      retryTimer := true;
    }

    method Disconnected(leaving: bool)
      modifies this, tcp
      ensures View() == DisconnectedFrom(old(View()), leaving)
      ensures !old(authenticated) || old(state) in {Idle, Failed} ==> View() == old(View())
      ensures old(authenticated) && old(state) == Ready ==>
        request == old(lastRequest) + 1 && budgetTimer == Some(now) && retryTimer && tcp.socket == NoSocket &&
        meeting == (if leaving then None else old(meeting))
    {
      if !authenticated || state == Idle || state == Failed {
        return;
      }
      hide Retried;
      if state == Ready {
        Interrupt(leaving);
      }
      Retry();
    }

    method Interrupt(leaving: bool)
      modifies this, tcp
      ensures View() == Interrupted(old(View()), leaving)
    {
      failures := 0;
      lastRequest := lastRequest + 1;
      request := lastRequest;
      budgetTimer := Some(now);
      ChangeState(Waiting);
      if leaving {
        meeting := None;
      }
    }

    /** A send that loses the connection calls back before it returns. */
    method Send(kind: Kind, outcome: Outcome, leaving: bool)
      modifies this, tcp
      ensures View() == Sent(old(View()), kind, outcome, leaving)
    {
      hide DisconnectedFrom;
      ghost var before := View();
      var handed, lost := tcp.Send(kind, outcome);
      if handed {
        written := Handed(before, kind).link.written;
      }
      if lost {
        assert View() == Closed(if handed then Handed(before, kind) else before);
        Disconnected(leaving);
      }
    }

    method Finish()
      modifies this, tcp
      ensures View() == Finished(old(View()))
      ensures state == Ready && !retryTimer && !stageTimer && budgetTimer == None && tcp.businessReady
      ensures meeting == old(meeting) && tcp.generation == old(tcp.generation)
    {
      retryTimer, stageTimer, budgetTimer, failures := false, false, None, 0;
      ChangeState(Ready);
    }

    method Stop()
      modifies this, tcp
      ensures View() == Stopped(old(View()))
      ensures state == Idle && !retryTimer && !stageTimer && budgetTimer == None && meeting == None && !authenticated
    {
      Forget();
      tcp.CloseConnection();
      ChangeState(Idle);
      meeting := None;
    }

    method Forget()
      modifies this`retryTimer, this`stageTimer, this`budgetTimer, this`authenticated, this`request
      ensures !retryTimer && !stageTimer && budgetTimer == None && !authenticated && request == 0
    {
      retryTimer, stageTimer, budgetTimer, authenticated, request := false, false, None, false, 0;
    }

    method Fail()
      modifies this, tcp
      ensures View() == FailedFrom(old(View()))
      ensures state == Failed && !retryTimer && !stageTimer && budgetTimer == None && meeting == None && !authenticated
    {
      Stop();
      ChangeState(Failed);
    }

    /** A millisecond passes; the budget timer fires when it is due. */
    method Tick()
      modifies this, tcp
      ensures View() == Ticked(old(View()))
    {
      hide FailedFrom;
      now := now + 1;
      if budgetTimer.Some? && now >= budgetTimer.value + BUDGET_MS {
        budgetTimer := None;
        Fail();
      }
    }

    method RetryFired()
      requires retryTimer
      modifies this, tcp
      ensures View() == Next(old(View()), RetryFires)
    {
      retryTimer := false;
      if state != Waiting {
        return;
      }
      ChangeState(Connecting);
      tcp.Connect();
    }

    method HandleAuthReply(reply: Reply, resumable: bool, heartbeat: bool, beat: Outcome, outcome: Outcome)
      modifies this, tcp
      ensures View() == AuthReplied(old(View()), reply, resumable, heartbeat, beat, outcome)
      ensures old(state) != Authenticating ==> View() == old(View())
      ensures old(state) == Authenticating && !old(retryTimer) && reply == Transient ==>
        state == Waiting && retryTimer && !stageTimer && tcp.socket == NoSocket && failures == old(failures) + 1
      ensures old(state) == Authenticating && reply == Transient ==>
        meeting == old(meeting) && request == old(request) && budgetTimer == old(budgetTimer)
      ensures old(state) == Authenticating && reply == Refused ==>
        state == Failed && !retryTimer && !stageTimer && budgetTimer == None && meeting == None && !authenticated
      ensures old(state) == Authenticating && reply == Success && old(meeting) == None && !heartbeat ==>
        state == Ready && !retryTimer && !stageTimer && budgetTimer == None && tcp.businessReady
    {
      hide Retried, FailedFrom, AuthAccepted;
      if state != Authenticating {
        return;
      }
      stageTimer := false;
      match reply {
        case Transient => Retry();
        case Refused => Fail();
        case Success => AcceptAuth(resumable, heartbeat, beat, outcome);
      }
    }

    method AcceptAuth(resumable: bool, heartbeat: bool, beat: Outcome, outcome: Outcome)
      modifies this, tcp
      ensures View() == AuthAccepted(old(View()), resumable, heartbeat, beat, outcome)
      ensures old(state) == Authenticating && old(meeting) == None && !heartbeat ==>
        state == Ready && !retryTimer && !stageTimer && budgetTimer == None && tcp.businessReady
    {
      hide HeartbeatStarted, AuthContinued;
      authedOn := tcp.generation;
      StartHeartbeat(heartbeat, beat);
      ContinueAuth(resumable, outcome);
    }

    method ContinueAuth(resumable: bool, outcome: Outcome)
      modifies this, tcp
      ensures View() == AuthContinued(old(View()), resumable, outcome)
      ensures old(state) == Authenticating && old(meeting) == None ==>
        state == Ready && !retryTimer && !stageTimer && budgetTimer == None && tcp.businessReady
    {
      hide Sent, Finished, ResumeBegun;
      if state != Authenticating {
        return;
      }
      if meeting.Some? && resumable && meeting.value.hasTicket {
        AskToResume(outcome);
      } else {
        meeting := None;
        Finish();
      }
    }

    method StartHeartbeat(supported: bool, outcome: Outcome)
      modifies this, tcp
      ensures View() == HeartbeatStarted(old(View()), supported, outcome, false)
      ensures !supported ==> state == old(state) && meeting == old(meeting)
    {
      hide Sent;
      if supported && tcp.socket == Open {
        Send(Heartbeat, outcome, false);
      }
    }

    method AskToResume(outcome: Outcome)
      modifies this, tcp
      ensures View() == ResumeBegun(old(View()), outcome)
    {
      hide Sent;
      ChangeState(Resuming);
      stageTimer := true;
      Send(Resume, outcome, false);
    }

    method HandleResumeReply(reply: Reply, id: Match, applies: bool)
      modifies this, tcp
      ensures View() == ResumeReplied(old(View()), reply, id, applies)
      ensures old(state) != Resuming || id == Other ==> View() == old(View())
      ensures old(state) == Resuming && id != Other && !old(retryTimer) && reply == Transient ==>
        state == Waiting && retryTimer && !stageTimer && tcp.socket == NoSocket
      ensures old(state) == Resuming && id != Other && reply == Transient ==>
        meeting == old(meeting) && request == old(request) && budgetTimer == old(budgetTimer)
      ensures old(state) == Resuming && id != Other && reply == Refused ==>
        state == Ready && meeting == None && !stageTimer && budgetTimer == None
      ensures old(state) == Resuming && reply == Success && id == Same && applies && old(meeting).Some? ==>
        state == Ready && budgetTimer == None && tcp.generation == old(tcp.generation) &&
        meeting == Some(Meeting(old(meeting).value.hasTicket, tcp.generation))
      ensures old(state) == Resuming && reply == Success && (id == Absent || (id == Same && !applies)) ==>
        state == Failed && meeting == None && budgetTimer == None && !retryTimer && !stageTimer
    {
      hide Retried, FailedFrom, Finished;
      if state != Resuming || id == Other {
        return;
      }
      stageTimer := false;
      if reply == Transient {
        Retry();
      } else if reply == Refused {
        meeting := None;
        Finish();
      } else if id != Same || !applies || meeting.None? {
        Fail();
      } else {
        meeting := Some(Meeting(meeting.value.hasTicket, tcp.generation));
        Finish();
      }
    }
  }
}
