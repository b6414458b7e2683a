/** The mocked real-time connection: message dispatch, the mock duel it builds on join, the
    timed updates that play the opponent, and the mocked submission verdicts. Each timer
    callback is a method of its own; the delays between them are not modelled. */
module WebSocketContext {
  import opened Types

  /** The signed-in user as the context sees it. */
  datatype SessionUser = SessionUser(id: string, username: string, avatarUrl: Option<string>)

  /** The fields of a message payload the context reads. */
  datatype Payload = Payload(duelId: string, code: string, language: string)

  const MockDescription: string :=
    "Given an array of integers nums and an integer target, return indices of the two numbers such that they add up to target.\n\nYou may assume that each input would have exactly one solution, and you may not use the same element twice.\n\nYou can return the answer in any order."

  const MockTestCases: seq<TestCase> :=
    [TestCase("1", "[2,7,11,15]\n9", "[0,1]", true), TestCase("2", "[3,2,4]\n6", "[1,2]", true)]

  /** The task of every mock duel; `createdAt` is the time of the join. */
  function MockTask(now: int): Task
  {
    Task(
      "123",
      "Two Sum",
      MockDescription,
      MEDIUM,
      2000,
      256,
      MockTestCases,
      now,
      234,
      12)
  }

  /** `a || b` on strings: the first operand unless it is empty. */
  function OrElse(a: Option<string>, b: string): string
  {
    if a.Some? && a.value != "" then a.value else b
  }

  /** The duel `simulateJoinDuel(duelId)` builds: player 1 is the signed-in user (or the mock
      user "1" / "codemaster"), ready; player 2 is the mock challenger "2", not ready. */
  function JoinedDuel(duelId: string, user: Option<SessionUser>, now: int): (d: Duel)
    ensures d.id == duelId && d.status == WAITING
    ensures d.player1.isReady && d.player2.Some? && !d.player2.value.isReady
    ensures !d.player1.hasSubmitted && !d.player1.hasCompleted && d.player1.submissionTime.None?
    ensures !d.player2.value.hasSubmitted && !d.player2.value.hasCompleted && d.player2.value.submissionTime.None?
    ensures d.startTime.None? && d.endTime.None? && d.winnerId.None? && !d.isPrivate
    ensures d.player1.userId == OrElse(if user.Some? then Some(user.value.id) else None, "1")
    ensures d.player2.value.userId == "2"
  {
    var id := if user.Some? then Some(user.value.id) else None;
    var name := if user.Some? then Some(user.value.username) else None;
    var avatar := if user.Some? then user.value.avatarUrl else None;
    Duel(
      duelId,
      WAITING,
      MockTask(now),
      DuelPlayer(OrElse(id, "1"), OrElse(name, "codemaster"), avatar, true, false, false, None),
      Some(DuelPlayer("2", "challenger", Some("https://i.pravatar.cc/150?u=challenger"), false, false, false, None)),
      None,
      None,
      None,
      false,
      None)
  }

  /** The opponent gets ready: a missing duel stays missing; otherwise the duel is under way
      from `now` and player 2 is ready, and nothing else changes. */
  function OpponentReady(prev: Option<Duel>, now: int): (next: Option<Duel>)
    requires prev.Some? ==> prev.value.player2.Some?
    ensures next.None? <==> prev.None?
    ensures next.Some? ==>
      && next.value.status == IN_PROGRESS
      && next.value.startTime == Some(now)
      && next.value.player2 == Some(prev.value.player2.value.(isReady := true))
      && next.value.(status := prev.value.status, startTime := prev.value.startTime,
                     player2 := prev.value.player2) == prev.value
  {
    if prev.None? then None
    else
      var d := prev.value;
      Some(d.(status := IN_PROGRESS, startTime := Some(now), player2 := Some(d.player2.value.(isReady := true))))
  }

  /** Player 1's submission is accepted: player 1 has submitted and completed at `now`; the
      status, player 2 and every other field are unchanged. */
  function RecordSubmission(prev: Option<Duel>, now: int): (next: Option<Duel>)
    ensures next.None? <==> prev.None?
    ensures next.Some? ==>
      && next.value.player1.hasSubmitted && next.value.player1.hasCompleted
      && next.value.player1.submissionTime == Some(now)
      && next.value.player1.(hasSubmitted := prev.value.player1.hasSubmitted,
                             hasCompleted := prev.value.player1.hasCompleted,
                             submissionTime := prev.value.player1.submissionTime) == prev.value.player1
      && next.value.(player1 := prev.value.player1) == prev.value
  {
    if prev.None? then None
    else
      var d := prev.value;
      Some(d.(player1 := d.player1.(hasSubmitted := true, hasCompleted := true, submissionTime := Some(now))))
  }

  /** The opponent finishes: the duel is over at `now`, player 1 is the winner, and player 2 has
      submitted without completing; nothing else changes. */
  function FinishDuel(prev: Option<Duel>, now: int): (next: Option<Duel>)
    requires prev.Some? ==> prev.value.player2.Some?
    ensures next.None? <==> prev.None?
    ensures next.Some? ==>
      && next.value.status == FINISHED
      && next.value.endTime == Some(now)
      && next.value.winnerId == Some(prev.value.player1.userId)
      && next.value.player2 == Some(prev.value.player2.value.(hasSubmitted := true, hasCompleted := false))
      && next.value.(status := prev.value.status, endTime := prev.value.endTime,
                     winnerId := prev.value.winnerId, player2 := prev.value.player2) == prev.value
  {
    if prev.None? then None
    else
      var d := prev.value;
      Some(d.(status := FINISHED, endTime := Some(now), winnerId := Some(d.player1.userId),
              player2 := Some(d.player2.value.(hasSubmitted := true, hasCompleted := false))))
  }

  /** The whole mocked duel: join, opponent ready, player 1 accepted, opponent finished. The
      status goes WAITING, IN_PROGRESS, IN_PROGRESS, FINISHED, and player 1 wins. */
  lemma MockDuelLifecycle(duelId: string, user: Option<SessionUser>, t0: int, t1: int, t2: int, t3: int)
    ensures var d0 := Some(JoinedDuel(duelId, user, t0));
      var d1 := OpponentReady(d0, t1);
      var d2 := RecordSubmission(d1, t2);
      var d3 := FinishDuel(d2, t3);
      && d0.value.status == WAITING
      && d1.Some? && d1.value.status == IN_PROGRESS && d1.value.startTime == Some(t1)
      && d2.Some? && d2.value.status == IN_PROGRESS && d2.value.player2.Some?
      && d3.Some? && d3.value.status == FINISHED
      && d3.value.winnerId == Some(d0.value.player1.userId)
      && d3.value.id == duelId && d3.value.startTime == Some(t1) && d3.value.endTime == Some(t3)
  {
  }

  /** The verdicts the mock ever reports: pending, running, accepted. */
  predicate MockVerdict(s: SubmissionStatus)
  {
    s == PENDING || s == RUNNING || s == ACCEPTED
  }

  /** Position of a mock verdict in the order it is reported. */
  function VerdictStage(s: SubmissionStatus): nat
  {
    match s
    case PENDING => 0
    case RUNNING => 1
    case _ => 2
  }

  /** The status shown `elapsedMs` after a submission, for a submission left alone: pending,
      then running from one second on, then accepted from three seconds on. */
  function SubmissionStatusAfter(elapsedMs: nat): (s: SubmissionStatus)
    ensures MockVerdict(s)
  {
    if elapsedMs < 1000 then PENDING else if elapsedMs < 3000 then RUNNING else ACCEPTED
  }

  /** The status only moves forward, pending to running to accepted, and never reports a
      failing verdict. */
  lemma SubmissionStatusMonotone(t1: nat, t2: nat)
    requires t1 <= t2
    ensures VerdictStage(SubmissionStatusAfter(t1)) <= VerdictStage(SubmissionStatusAfter(t2))
    ensures MockVerdict(SubmissionStatusAfter(t1)) && MockVerdict(SubmissionStatusAfter(t2))
  {
  }

  /** What `sendMessage` does with a message. */
  datatype Dispatch = Dropped | Join | Submit | Ignored

  /** `sendMessage`'s decision: nothing is sent while disconnected; 'JOIN_DUEL' and
      'SUBMIT_SOLUTION' are handled; every other type is only logged. */
  function Route(isConnected: bool, msgType: string): (r: Dispatch)
    ensures r == Dropped <==> !isConnected
    ensures r == Join <==> isConnected && msgType == "JOIN_DUEL"
    ensures r == Submit <==> isConnected && msgType == "SUBMIT_SOLUTION"
    ensures r == Ignored <==> isConnected && msgType != "JOIN_DUEL" && msgType != "SUBMIT_SOLUTION"
  {
    if !isConnected then Dropped
    else if msgType == "JOIN_DUEL" then Join
    else if msgType == "SUBMIT_SOLUTION" then Submit
    else Ignored
  }

  /** The provider's state. */
  class Provider {
    var user: Option<SessionUser>
    var isConnected: bool
    var currentDuel: Option<Duel>
    var submissionStatus: Option<SubmissionStatus>

    /** A current duel always has a player 2 (the mock challenger), and the status is one of
        the mock verdicts. */
    ghost predicate Valid()
      reads this
    {
      && (currentDuel.Some? ==> currentDuel.value.player2.Some?)
      && (submissionStatus.Some? ==> MockVerdict(submissionStatus.value))
    }

    constructor (user: Option<SessionUser>)
      ensures Valid()
      ensures this.user == user && !isConnected && currentDuel.None? && submissionStatus.None?
    {
      this.user := user;
      isConnected := false;
      currentDuel := None;
      submissionStatus := None;
    }

    /** The connection timer fires: only a signed-in user gets connected. */
    method ConnectionOpened()
      requires Valid()
      modifies this`isConnected
      ensures Valid()
      ensures isConnected == (old(isConnected) || user.Some?)
    {
      if user.None? {
        return;
      }
      isConnected := true;
    }

    /** The connection effect is cleaned up. */
    method ConnectionClosed()
      requires Valid()
      modifies this`isConnected
      ensures Valid() && !isConnected
    {
      isConnected := false;
    }

    /** `sendMessage(type, payload)`: while disconnected nothing changes; a join builds the mock
        duel; a submission sets the status to pending; any other type changes nothing. */
    method SendMessage(msgType: string, payload: Payload, now: int)
      requires Valid()
      modifies this`currentDuel, this`submissionStatus
      ensures Valid()
      ensures Route(isConnected, msgType) == Join ==>
        currentDuel == Some(JoinedDuel(payload.duelId, user, now)) && submissionStatus == old(submissionStatus)
      ensures Route(isConnected, msgType) == Submit ==>
        submissionStatus == Some(PENDING) && currentDuel == old(currentDuel)
      ensures Route(isConnected, msgType) in {Dropped, Ignored} ==>
        currentDuel == old(currentDuel) && submissionStatus == old(submissionStatus)
    {
      match Route(isConnected, msgType)
      case Dropped =>
      case Join => SimulateJoinDuel(payload.duelId, now);
      case Submit => SimulateSubmitSolution(payload.duelId, payload.code, payload.language);
      case Ignored =>
    }

    /** `simulateJoinDuel(duelId)`: the mock duel becomes the current duel. */
    method SimulateJoinDuel(duelId: string, now: int)
      requires Valid()
      modifies this`currentDuel
      ensures Valid() && currentDuel == Some(JoinedDuel(duelId, user, now))
    {
      currentDuel := Some(JoinedDuel(duelId, user, now));
    }

    /** The join's two-second timer: the opponent gets ready. */
    method OpponentReadyTimer(now: int)
      requires Valid()
      modifies this`currentDuel
      ensures Valid() && currentDuel == OpponentReady(old(currentDuel), now)
    {
      currentDuel := OpponentReady(currentDuel, now);
    }

    /** `simulateSubmitSolution`: the submission is pending. */
    method SimulateSubmitSolution(duelId: string, code: string, language: string)
      requires Valid()
      modifies this`submissionStatus
      ensures Valid() && submissionStatus == Some(PENDING)
    {
      submissionStatus := Some(PENDING);
    }

    /** The submission's one-second timer: the tests are running. */
    method TestsRunningTimer()
      requires Valid()
      modifies this`submissionStatus
      ensures Valid() && submissionStatus == Some(RUNNING)
    {
      submissionStatus := Some(RUNNING);
    }

    /** The submission's three-second timer: accepted, and recorded on player 1. */
    method TestsPassedTimer(now: int)
      requires Valid()
      modifies this`submissionStatus, this`currentDuel
      ensures Valid()
      ensures submissionStatus == Some(ACCEPTED) && currentDuel == RecordSubmission(old(currentDuel), now)
    {
      submissionStatus := Some(ACCEPTED);
      currentDuel := RecordSubmission(currentDuel, now);
    }

    /** Three seconds after acceptance: the opponent finishes and player 1 wins. */
    method OpponentFinishedTimer(now: int)
      requires Valid()
      modifies this`currentDuel
      ensures Valid() && currentDuel == FinishDuel(old(currentDuel), now)
    {
      currentDuel := FinishDuel(currentDuel, now);
    }
  }
}
