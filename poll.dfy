/**
 * The bounded poll behind every wait of the channel: pull the oldest message
 * until something other than "empty" comes back or the clock reaches the
 * deadline. Each run ends in one of three ways (a pull error, a timeout, or the
 * first message), and the two waits differ only in how they judge that message.
 */
module Polling {
  import opened Json
  import opened Channels
  import opened Transport

  /** How a poll loop ended. */
  datatype Exit = PullFailed(error: TransportError) | TimedOut | Arrived(payload: Payload)

  /**
   * A finished poll: its exit, the queue and the clock script it leaves behind,
   * and the number of pulls it made.
   */
  datatype PollRun = PollRun(exit: Exit, inbox: seq<Pull>, readings: seq<int>, pulls: nat)

  /** The answer of the j-th pull (from 0) from queue q. */
  function PullAt(q: seq<Pull>, j: nat): Pull {
    if j < |q| then q[j] else Empty
  }

  /** The queue after n pulls. */
  function Drop(q: seq<Pull>, n: nat): seq<Pull> {
    if n <= |q| then q[n..] else []
  }

  /** The poll loop, one iteration per pull, against the deadline fixed at its start. */
  function Poll(inbox: seq<Pull>, readings: seq<int>, deadline: int): (run: PollRun)
    requires Reaches(readings, deadline)
    ensures run.pulls >= 1
    ensures |run.readings| <= |readings|
    ensures run.exit.TimedOut? ==> |run.readings| < |readings|
    decreases |readings|
  {
    match First(inbox)
    case Failure(e) => PollRun(PullFailed(e), Rest(inbox), readings, 1)
    case Message(p) => PollRun(Arrived(p), Rest(inbox), readings, 1)
    case Empty =>
      if readings[0] < deadline then
        ReachesLater(readings, deadline);
        var later := Poll(Rest(inbox), readings[1..], deadline);
        later.(pulls := later.pulls + 1)
      else
        PollRun(TimedOut, Rest(inbox), readings[1..], 1)
  }

  /** One iteration of the loop, read off the definition of Poll. */
  lemma PollUnfolds(inbox: seq<Pull>, readings: seq<int>, deadline: int)
    requires Reaches(readings, deadline)
    ensures First(inbox).Failure? ==>
      Poll(inbox, readings, deadline) == PollRun(PullFailed(First(inbox).error), Rest(inbox), readings, 1)
    ensures First(inbox).Message? ==>
      Poll(inbox, readings, deadline) == PollRun(Arrived(First(inbox).payload), Rest(inbox), readings, 1)
    ensures First(inbox).Empty? && readings[0] >= deadline ==>
      Poll(inbox, readings, deadline) == PollRun(TimedOut, Rest(inbox), readings[1..], 1)
    ensures First(inbox).Empty? && readings[0] < deadline ==>
      && Reaches(readings[1..], deadline)
      && SameEnding(Poll(inbox, readings, deadline), Poll(Rest(inbox), readings[1..], deadline))
  {
  }

  /** The first k pulls found the queue empty and each was followed by a reading before the deadline. */
  ghost predicate Quiet(inbox: seq<Pull>, readings: seq<int>, deadline: int, k: nat) {
    k <= |readings| &&
    forall j :: 0 <= j < k ==> PullAt(inbox, j) == Empty && readings[j] < deadline
  }

  /** Pull k ends the loop: it is not empty, or the reading after it is at or after the deadline. */
  ghost predicate Decides(inbox: seq<Pull>, readings: seq<int>, deadline: int, k: nat) {
    PullAt(inbox, k) != Empty || (k < |readings| && readings[k] >= deadline)
  }

  /** Pull k is the first that ends the loop. */
  ghost predicate FirstDecision(inbox: seq<Pull>, readings: seq<int>, deadline: int, k: nat) {
    Quiet(inbox, readings, deadline, k) && Decides(inbox, readings, deadline, k)
  }

  /** The exit a deciding pull gives. */
  function ExitOf(p: Pull): Exit {
    match p
    case Failure(e) => PullFailed(e)
    case Empty => TimedOut
    case Message(m) => Arrived(m)
  }

  /** The run's ending agrees with the other's (the pull count aside). */
  ghost predicate SameEnding(a: PollRun, b: PollRun) {
    a.exit == b.exit && a.inbox == b.inbox && a.readings == b.readings
  }

  lemma PullAtRest(q: seq<Pull>, j: nat)
    ensures PullAt(Rest(q), j) == PullAt(q, j + 1)
    ensures Drop(Rest(q), j) == Drop(q, j + 1)
    ensures PullAt(q, 0) == First(q)
  {
  }

  /**
   * What a run says about the queue and clock it ran on: it made pulls up to and
   * including the first deciding one and no more, exited as that pull says, left
   * every later message queued, and used one clock reading per empty pull.
   */
  ghost predicate Characterizes(inbox: seq<Pull>, readings: seq<int>, deadline: int, run: PollRun) {
    && run.pulls >= 1
    && FirstDecision(inbox, readings, deadline, run.pulls - 1)
    && run.exit == ExitOf(PullAt(inbox, run.pulls - 1))
    && run.inbox == Drop(inbox, run.pulls)
    && run.readings == readings[run.pulls - (if run.exit.TimedOut? then 0 else 1)..]
  }

  /** An empty pull before the deadline adds one quiet pull in front of the rest of the run. */
  lemma CharacterizesStep(inbox: seq<Pull>, readings: seq<int>, deadline: int, later: PollRun)
    requires First(inbox) == Empty && |readings| > 0 && readings[0] < deadline
    requires Characterizes(Rest(inbox), readings[1..], deadline, later)
    ensures Characterizes(inbox, readings, deadline, later.(pulls := later.pulls + 1))
  {
    var k := later.pulls - 1;
    PullAtRest(inbox, k);
    PullAtRest(inbox, k + 1);
    forall j | 0 <= j < k + 1
      ensures PullAt(inbox, j) == Empty && readings[j] < deadline
    {
      if j > 0 {
        PullAtRest(inbox, j - 1);
        assert readings[j] == readings[1..][j - 1];
      } else {
        PullAtRest(inbox, 0);
      }
    }
    var used := later.pulls - (if later.exit.TimedOut? then 0 else 1);
    assert readings[1..][used..] == readings[used + 1..];
  }

  /** What the loop does, stated without the loop. */
  lemma {:induction false} PollCharacterized(inbox: seq<Pull>, readings: seq<int>, deadline: int)
    requires Reaches(readings, deadline)
    ensures Characterizes(inbox, readings, deadline, Poll(inbox, readings, deadline))
    decreases |readings|
  {
    PullAtRest(inbox, 0);
    var run := Poll(inbox, readings, deadline);
    match First(inbox)
    case Failure(e) =>
      assert run == PollRun(PullFailed(e), Rest(inbox), readings, 1);
      assert Quiet(inbox, readings, deadline, 0);
    case Message(p) =>
      assert run == PollRun(Arrived(p), Rest(inbox), readings, 1);
      assert Quiet(inbox, readings, deadline, 0);
    case Empty =>
      if readings[0] < deadline {
        ReachesLater(readings, deadline);
        var later := Poll(Rest(inbox), readings[1..], deadline);
        assert run == later.(pulls := later.pulls + 1);
        PollCharacterized(Rest(inbox), readings[1..], deadline);
        CharacterizesStep(inbox, readings, deadline, later);
      } else {
        assert run == PollRun(TimedOut, Rest(inbox), readings[1..], 1);
        assert Quiet(inbox, readings, deadline, 0);
      }
  }

  /** The deciding pull is unique: the loop stops at the first pull that can end it. */
  lemma PollStopsAtFirstDecision(inbox: seq<Pull>, readings: seq<int>, deadline: int, k: nat)
    requires Reaches(readings, deadline)
    requires FirstDecision(inbox, readings, deadline, k)
    ensures Poll(inbox, readings, deadline).pulls == k + 1
    ensures Poll(inbox, readings, deadline).exit == ExitOf(PullAt(inbox, k))
  {
    PollCharacterized(inbox, readings, deadline);
  }
}

