/**
 * The relay server and the clock, as the channel sees them. The relay keeps
 * one queue of incoming messages per channel identifier and a log of every
 * push; what each pull and each push answers is scripted, so that every run
 * of a wait is determined by the script. The clock answers a scripted
 * sequence of readings (in nanoseconds), one reading per call.
 */
module Transport {
  import opened Json
  import opened Channels

  /** A failure of the relay connection, passed on as it is. */
  datatype TransportError = TransportError(reason: string)

  /** What one pull of the oldest message answers. */
  datatype Pull = Failure(error: TransportError) | Empty | Message(payload: Payload)

  /** What one push answers. */
  datatype Delivery = Delivered | Refused(error: TransportError)

  /** One push as the relay received it: the channel it was sent on and the JSON document. */
  datatype Outbound = Outbound(channel: Channel, doc: Json)

  /** The failures a channel operation reports. */
  datatype Error =
    | Transport(cause: TransportError)
    | NoResponse          // nothing arrived in the given duration
    | UnexpectedMessage   // a message arrived that is not the expected one
    | MissingValue(name: string)  // a message arrived without the named value

  /** Outcome of an operation that answers only success or an error. */
  datatype Status = Done | Failed(error: Error)

  /** Outcome of an operation that answers a string value or an error. */
  datatype Fetched = Value(text: string) | NotFetched(error: Error)

  /** The answer of the next pull from queue q: its oldest entry, or Empty once nothing is queued. */
  function First(q: seq<Pull>): Pull {
    if q == [] then Empty else q[0]
  }

  /** The queue after one pull. */
  function Rest(q: seq<Pull>): seq<Pull> {
    if q == [] then [] else q[1..]
  }

  /** The answer of the push at the head of the script; once the script is exhausted, pushes are delivered. */
  function PushStatus(outcomes: seq<Delivery>): (s: Status)
    ensures s.Failed? ==> s.error.Transport?
  {
    if outcomes == [] || outcomes[0].Delivered? then Done else Failed(Transport(outcomes[0].error))
  }

  class Relay {
    /** The messages queued for each channel identifier, oldest first. */
    var queues: map<string, seq<Pull>>
    /** The answers of the coming pushes. */
    var outcomes: seq<Delivery>
    /** Every push so far, in order. */
    var pushed: seq<Outbound>

    constructor (queues: map<string, seq<Pull>>, outcomes: seq<Delivery>)
      ensures this.queues == queues && this.outcomes == outcomes && pushed == []
    {
      this.queues := queues;
      this.outcomes := outcomes;
      pushed := [];
    }

    /** The queue of channel identifier id; a channel nothing was queued for has an empty queue. */
    function Queue(id: string): seq<Pull>
      reads this
    {
      if id in queues then queues[id] else []
    }

    /** Push one document on a channel; the relay logs it and answers the next scripted outcome. */
    method Push(channel: Channel, doc: Json) returns (status: Status)
      modifies this
      ensures pushed == old(pushed) + [Outbound(channel, doc)]
      ensures status == PushStatus(old(outcomes))
      ensures outcomes == (if old(outcomes) == [] then [] else old(outcomes)[1..])
      ensures queues == old(queues)
    {
      status := PushStatus(outcomes);
      if outcomes != [] {
        outcomes := outcomes[1..];
      }
      pushed := pushed + [Outbound(channel, doc)];
    }

    /** Take the oldest message queued for the channel (a destructive read). */
    method PullOldest(channel: Channel) returns (p: Pull)
      modifies this
      ensures p == First(old(Queue(channel.id)))
      ensures queues == old(queues)[channel.id := Rest(old(Queue(channel.id)))]
      ensures pushed == old(pushed) && outcomes == old(outcomes)
    {
      p := First(Queue(channel.id));
      queues := queues[channel.id := Rest(Queue(channel.id))];
    }
  }

  class Clock {
    /** The readings the coming calls of Now answer, in order. */
    var readings: seq<int>

    constructor (readings: seq<int>)
      ensures this.readings == readings
    {
      this.readings := readings;
    }

    method Now() returns (t: int)
      requires readings != []
      modifies this
      ensures t == old(readings)[0] && readings == old(readings)[1..]
    {
      t := readings[0];
      readings := readings[1..];
    }
  }

  /** Some reading in the script is at or after the deadline. */
  predicate Reaches(readings: seq<int>, deadline: int) {
    exists i :: 0 <= i < |readings| && readings[i] >= deadline
  }

  /**
   * The clock will pass the deadline of a wait of the given duration that
   * starts now: the first reading is the start, and a later one is at or
   * after start + duration.
   */
  predicate DeadlineReachable(readings: seq<int>, duration: int) {
    |readings| > 0 && Reaches(readings[1..], readings[0] + duration)
  }

  /** A reading before the deadline does not use up the reading that reaches it. */
  lemma ReachesLater(readings: seq<int>, deadline: int)
    requires Reaches(readings, deadline) && readings[0] < deadline
    ensures Reaches(readings[1..], deadline)
  {
  }
}
