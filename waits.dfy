module Waits {
  import opened Json
  import opened Channels
  import opened Transport
  import opened Polling

  /** The run of a wait of the given duration whose start is the first clock reading. */
  function WaitRun(inbox: seq<Pull>, readings: seq<int>, duration: int): PollRun
    requires DeadlineReachable(readings, duration)
  {
    Poll(inbox, readings[1..], readings[0] + duration)
  }

  /** How waitForMessage judges the end of its loop: only the exact expected map is success. */
  function MessageVerdict(exit: Exit, expected: map<string, string>): (status: Status)
    ensures status == Done <==> exit.Arrived? && DecodeStringMap(exit.payload) == StringMap(expected)
    ensures status == Failed(UnexpectedMessage) <==>
      exit.Arrived? && DecodeStringMap(exit.payload) != StringMap(expected)
    ensures status == Failed(NoResponse) <==> exit == TimedOut
    ensures exit.PullFailed? <==> status.Failed? && status.error.Transport?
    ensures exit.PullFailed? ==> status.error.cause == exit.error
  {
    match exit
    case PullFailed(e) => Failed(Transport(e))
    case TimedOut => Failed(NoResponse)
    case Arrived(p) => if DecodeStringMap(p) == StringMap(expected) then Done else Failed(UnexpectedMessage)
  }

  /** How waitForValue judges the end of its loop: the named value of a decodable message is the answer. */
  function ValueVerdict(exit: Exit, name: string): (fetched: Fetched)
    ensures fetched.Value? <==>
      exit.Arrived? && DecodeStringMap(exit.payload).StringMap? && name in DecodeStringMap(exit.payload).entries
    ensures fetched.Value? ==> fetched.text == DecodeStringMap(exit.payload).entries[name]
    ensures fetched == NotFetched(MissingValue(name)) <==> exit.Arrived? && !fetched.Value?
    ensures fetched == NotFetched(NoResponse) <==> exit == TimedOut
    ensures exit.PullFailed? <==> fetched.NotFetched? && fetched.error.Transport?
    ensures exit.PullFailed? ==> fetched.error.cause == exit.error
  {
    match exit
    case PullFailed(e) => NotFetched(Transport(e))
    case TimedOut => NotFetched(NoResponse)
    case Arrived(p) =>
      match DecodeStringMap(p)
      case StringMap(fields) => if name in fields then Value(fields[name]) else NotFetched(MissingValue(name))
      case _ => NotFetched(MissingValue(name))
  }

  /**
   * What a wait leaves behind: the channel's queue and the clock script where
   * the run stopped, every other queue and the push side as they were.
   */
  ghost predicate LeftAsRun(relay: Relay, clock: Clock, queues: map<string, seq<Pull>>, pushed: seq<Outbound>,
                            outcomes: seq<Delivery>, channel: Channel, run: PollRun)
    reads relay, clock
  {
    && relay.queues == queues[channel.id := run.inbox]
    && clock.readings == run.readings
    && relay.pushed == pushed && relay.outcomes == outcomes
  }

  /**
   * The poll loop both waits run: fix the deadline from one clock reading,
   * then pull until a pull fails, a message arrives, or an empty pull is
   * followed by a reading at or after the deadline.
   */
  method AwaitMessage(relay: Relay, clock: Clock, channel: Channel, duration: int) returns (exit: Exit)
    requires DeadlineReachable(clock.readings, duration)
    modifies relay, clock
    ensures var run := WaitRun(old(relay.Queue(channel.id)), old(clock.readings), duration);
      && exit == run.exit
      && LeftAsRun(relay, clock, old(relay.queues), old(relay.pushed), old(relay.outcomes), channel, run)
  {
    var start := clock.Now();
    var deadline := start + duration;
    ghost var run := Poll(relay.Queue(channel.id), clock.readings, deadline);
    while true
      invariant Reaches(clock.readings, deadline)
      invariant SameEnding(Poll(relay.Queue(channel.id), clock.readings, deadline), run)
      invariant relay.queues == old(relay.queues) ||
                relay.queues == old(relay.queues)[channel.id := relay.Queue(channel.id)]
      invariant relay.pushed == old(relay.pushed) && relay.outcomes == old(relay.outcomes)
      decreases |clock.readings|
    {
      ghost var queue, before := relay.Queue(channel.id), clock.readings;
      PollUnfolds(queue, before, deadline);
      var message := relay.PullOldest(channel);
      assert relay.queues == old(relay.queues)[channel.id := Rest(queue)];
      if message.Failure? {
        return PullFailed(message.error);
      }
      if message.Empty? {
        var now := clock.Now();
        if now < deadline {
          continue;
        }
        return TimedOut;
      }
      return Arrived(message.payload);
    }
  }

  /** waitForMessage: success exactly when the first message is the expected one. */
  method WaitForMessage(relay: Relay, clock: Clock, channel: Channel, duration: int, expected: map<string, string>)
    returns (status: Status)
    requires DeadlineReachable(clock.readings, duration)
    modifies relay, clock
    ensures var run := WaitRun(old(relay.Queue(channel.id)), old(clock.readings), duration);
      && status == MessageVerdict(run.exit, expected)
      && LeftAsRun(relay, clock, old(relay.queues), old(relay.pushed), old(relay.outcomes), channel, run)
  {
    var exit := AwaitMessage(relay, clock, channel, duration);
    var received: Decoded;
    match exit {
      case PullFailed(e) => return Failed(Transport(e));
      case TimedOut => return Failed(NoResponse);
      case Arrived(p) => received := DecodeStringMap(p);
    }
    if received != StringMap(expected) {
      return Failed(UnexpectedMessage);
    }
    return Done;
  }

  /** waitForValue: the named value of the first message, other keys notwithstanding. */
  method WaitForValue(relay: Relay, clock: Clock, channel: Channel, duration: int, name: string)
    returns (fetched: Fetched)
    requires DeadlineReachable(clock.readings, duration)
    modifies relay, clock
    ensures var run := WaitRun(old(relay.Queue(channel.id)), old(clock.readings), duration);
      && fetched == ValueVerdict(run.exit, name)
      && LeftAsRun(relay, clock, old(relay.queues), old(relay.pushed), old(relay.outcomes), channel, run)
  {
    var exit := AwaitMessage(relay, clock, channel, duration);
    var received: Decoded;
    match exit {
      case PullFailed(e) => return NotFetched(Transport(e));
      case TimedOut => return NotFetched(NoResponse);
      case Arrived(p) => received := DecodeStringMap(p);
    }
    if !received.StringMap? || name !in received.entries {
      return NotFetched(MissingValue(name));
    }
    return Value(received.entries[name]);
  }

  /**
   * waitForMessage is decided by the first deciding pull k, and makes no pull
   * after it: success exactly when that pull is a message that decodes to the
   * expected map (no key more, none less, every value equal); a mismatch when it
   * is any other message, malformed ones included; a timeout exactly when it is
   * empty; and a pull error is returned as it is.
   */
  lemma WaitForMessageOutcome(inbox: seq<Pull>, readings: seq<int>, duration: int,
                              expected: map<string, string>, k: nat)
    requires DeadlineReachable(readings, duration)
    requires FirstDecision(inbox, readings[1..], readings[0] + duration, k)
    ensures WaitRun(inbox, readings, duration).pulls == k + 1
    ensures MessageJudgement(PullAt(inbox, k), expected, MessageVerdict(WaitRun(inbox, readings, duration).exit, expected))
  {
    DecidingPullIsLast(inbox, readings, duration, k);
    MessageVerdictJudges(PullAt(inbox, k), expected);
  }

  /** What waitForMessage answers when p is the deciding pull. */
  ghost predicate MessageJudgement(p: Pull, expected: map<string, string>, status: Status) {
    && (status == Done <==> p.Message? && DecodeStringMap(p.payload) == StringMap(expected))
    && (status == Failed(UnexpectedMessage) <==> p.Message? && DecodeStringMap(p.payload) != StringMap(expected))
    && (status == Failed(NoResponse) <==> p == Empty)
    && (status.Failed? && status.error.Transport? <==> p.Failure?)
    && (p.Failure? ==> status == Failed(Transport(p.error)))
  }

  lemma MessageVerdictJudges(p: Pull, expected: map<string, string>)
    ensures MessageJudgement(p, expected, MessageVerdict(ExitOf(p), expected))
  {
  }

  /** The first deciding pull is the wait's last pull, and its exit is the wait's. */
  lemma DecidingPullIsLast(inbox: seq<Pull>, readings: seq<int>, duration: int, k: nat)
    requires DeadlineReachable(readings, duration)
    requires FirstDecision(inbox, readings[1..], readings[0] + duration, k)
    ensures WaitRun(inbox, readings, duration).pulls == k + 1
    ensures WaitRun(inbox, readings, duration).exit == ExitOf(PullAt(inbox, k))
  {
    PollStopsAtFirstDecision(inbox, readings[1..], readings[0] + duration, k);
  }

  /**
   * waitForValue is decided by the first deciding pull k, and makes no pull
   * after it: it answers the value stored under name exactly when that pull is
   * a message that decodes to a map holding name (whatever else the map holds);
   * any other message gives the error naming name; an empty pull a timeout; and
   * a pull error is returned as it is.
   */
  lemma WaitForValueOutcome(inbox: seq<Pull>, readings: seq<int>, duration: int, name: string, k: nat)
    requires DeadlineReachable(readings, duration)
    requires FirstDecision(inbox, readings[1..], readings[0] + duration, k)
    ensures WaitRun(inbox, readings, duration).pulls == k + 1
    ensures ValueJudgement(PullAt(inbox, k), name, ValueVerdict(WaitRun(inbox, readings, duration).exit, name))
  {
    DecidingPullIsLast(inbox, readings, duration, k);
    ValueVerdictJudges(PullAt(inbox, k), name);
  }

  /** What waitForValue answers when p is the deciding pull. */
  ghost predicate ValueJudgement(p: Pull, name: string, fetched: Fetched) {
    var d := if p.Message? then DecodeStringMap(p.payload) else Invalid;
    && (fetched.Value? <==> p.Message? && d.StringMap? && name in d.entries)
    && (fetched.Value? ==> fetched.text == d.entries[name])
    && (fetched == NotFetched(MissingValue(name)) <==> p.Message? && !(d.StringMap? && name in d.entries))
    && (fetched == NotFetched(NoResponse) <==> p == Empty)
    && (fetched.NotFetched? && fetched.error.Transport? <==> p.Failure?)
    && (p.Failure? ==> fetched == NotFetched(Transport(p.error)))
  }

  lemma ValueVerdictJudges(p: Pull, name: string)
    ensures ValueJudgement(p, name, ValueVerdict(ExitOf(p), name))
  {
  }

  /**
   * A wait times out only once a reading is at or after the deadline: every pull was
   * empty, every reading before the last was before the deadline, and the last is not.
   */
  lemma NoTimeoutBeforeDeadline(inbox: seq<Pull>, readings: seq<int>, duration: int)
    requires DeadlineReachable(readings, duration)
    ensures var run := WaitRun(inbox, readings, duration);
      run.exit == TimedOut ==>
        && run.pulls < |readings|
        && readings[run.pulls] >= readings[0] + duration
        && (forall j :: 1 <= j < run.pulls ==> readings[j] < readings[0] + duration)
        && (forall j :: 0 <= j < run.pulls ==> PullAt(inbox, j) == Empty)
  {
    var deadline := readings[0] + duration;
    PollCharacterized(inbox, readings[1..], deadline);
    var run := WaitRun(inbox, readings, duration);
    if run.exit == TimedOut {
      forall j | 1 <= j < run.pulls
        ensures readings[j] < deadline
      {
        assert readings[j] == readings[1..][j - 1];
      }
      assert readings[run.pulls] == readings[1..][run.pulls - 1];
    }
  }

  /** While the queue stays empty and the clock before the deadline, a wait keeps pulling. */
  lemma KeepsPollingBeforeDeadline(inbox: seq<Pull>, readings: seq<int>, duration: int, k: nat)
    requires DeadlineReachable(readings, duration)
    requires k < |readings|
    requires forall j :: 0 <= j < k ==> PullAt(inbox, j) == Empty
    requires forall j :: 1 <= j <= k ==> readings[j] < readings[0] + duration
    ensures WaitRun(inbox, readings, duration).pulls > k
  {
    var deadline := readings[0] + duration;
    PollCharacterized(inbox, readings[1..], deadline);
  }

  /**
   * A wait takes at most one message off the queue: every pull before the last
   * was empty, and everything behind the deciding pull stays queued.
   */
  lemma ConsumesAtMostOneMessage(inbox: seq<Pull>, readings: seq<int>, duration: int)
    requires DeadlineReachable(readings, duration)
    ensures var run := WaitRun(inbox, readings, duration);
      && (forall j :: 0 <= j < run.pulls - 1 ==> PullAt(inbox, j) == Empty)
      && run.inbox == Drop(inbox, run.pulls)
  {
    PollCharacterized(inbox, readings[1..], readings[0] + duration);
  }

  /**
   * A pull error ends a wait at the pull that failed, unchanged: no clock
   * reading follows it and nothing behind it is pulled.
   */
  lemma PullErrorEndsWait(inbox: seq<Pull>, readings: seq<int>, duration: int)
    requires DeadlineReachable(readings, duration)
    ensures var run := WaitRun(inbox, readings, duration);
      run.exit.PullFailed? ==>
        && PullAt(inbox, run.pulls - 1) == Failure(run.exit.error)
        && run.pulls <= |readings|
        && run.readings == readings[run.pulls..]
        && run.inbox == Drop(inbox, run.pulls)
  {
    var deadline := readings[0] + duration;
    PollCharacterized(inbox, readings[1..], deadline);
    var run := WaitRun(inbox, readings, duration);
    if run.exit.PullFailed? {
      assert readings[1..][run.pulls - 1..] == readings[run.pulls..];
    }
  }

  /** Against a relay that never has anything queued, a wait can only time out. */
  lemma SilentRelayTimesOut(inbox: seq<Pull>, readings: seq<int>, duration: int)
    requires DeadlineReachable(readings, duration)
    requires forall j :: 0 <= j < |inbox| ==> inbox[j] == Empty
    ensures WaitRun(inbox, readings, duration).exit == TimedOut
  {
    PollCharacterized(inbox, readings[1..], readings[0] + duration);
  }
}
