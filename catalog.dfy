/**
 * The named exchanges of pairing and of later confirmations. Each Send pushes
 * one fixed-shape JSON object; each Wait is one waitForMessage with a fixed
 * expected map or one waitForValue with a fixed name. The field names and
 * literal values are what the mobile app understands and must stay as they are.
 */
module Catalog {
  import opened Json
  import opened Channels
  import opened Transport
  import opened Polling
  import opened Waits

  datatype Option<T> = None | Some(value: T)

  /** The commands the desktop pushes, with their arguments. */
  datatype Command =
    | VerifyPass(verifyPass: Json)
    | PairingTest(tfa: string)
    | Ping
    | Clear
    | XpubEcho(xpubEcho: string)
    | SigningEcho(signingEcho: string, transaction: string)
    | RandomNumberEcho(randomNumberEcho: string)

  /**
   * The JSON object each command is pushed as: the verify pass is carried as
   * it is under "verifypass"; only ping and clear carry an action, and only
   * the echoes an echo.
   */
  function Wire(c: Command): (doc: Json)
    ensures doc.JObject?
    ensures c.VerifyPass? ==> doc.fields == map["verifypass" := c.verifyPass]
    ensures "action" in doc.fields <==> c.Ping? || c.Clear?
    ensures "echo" in doc.fields <==> c.XpubEcho? || c.SigningEcho? || c.RandomNumberEcho?
  {
    match c
    case VerifyPass(v) => JObject(map["verifypass" := v])
    case PairingTest(tfa) => FromStrings(map["tfa" := tfa])
    case Ping => FromStrings(map["action" := "ping"])
    case Clear => FromStrings(map["action" := "clear"])
    case XpubEcho(echo) => FromStrings(map["echo" := echo, "type" := "p2pkh"])
    case SigningEcho(echo, tx) => FromStrings(map["echo" := echo, "tx" := tx])
    case RandomNumberEcho(echo) => FromStrings(map["echo" := echo])
  }

  /** The replies the desktop waits for, matched exactly. */
  const ScanningSuccess: map<string, string> := map["id" := "success"]
  const Pong: map<string, string> := map["action" := "pong"]
  const RandomNumberClear: map<string, string> := map["random" := "clear"]

  /** The values the desktop waits for, by name. */
  const MobilePublicKey: string := "ecdh"
  const SigningPin: string := "pin"

  /** What the mobile answers for the signing PIN when its user cancels. */
  const Abort: string := "abort"

  /**
   * How a receiver tells the commands apart: by the exact key set, by the
   * action, and by the value kinds.
   */
  function Parse(doc: Json): Option<Command> {
    if !doc.JObject? then None
    else
      var f := doc.fields;
      if f.Keys == {"verifypass"} then Some(VerifyPass(f["verifypass"]))
      else if f.Keys == {"tfa"} && f["tfa"].JString? then Some(PairingTest(f["tfa"].s))
      else if f.Keys == {"action"} && f["action"] == JString("ping") then Some(Ping)
      else if f.Keys == {"action"} && f["action"] == JString("clear") then Some(Clear)
      else if f.Keys == {"echo", "type"} && f["echo"].JString? && f["type"] == JString("p2pkh") then
        Some(XpubEcho(f["echo"].s))
      else if f.Keys == {"echo", "tx"} && f["echo"].JString? && f["tx"].JString? then
        Some(SigningEcho(f["echo"].s, f["tx"].s))
      else if f.Keys == {"echo"} && f["echo"].JString? then Some(RandomNumberEcho(f["echo"].s))
      else None
  }

  /** Every pushed command reads back as itself. */
  lemma ParseWire(c: Command)
    ensures Parse(Wire(c)) == Some(c)
  {
    var f := Wire(c).fields;
    match c
    case VerifyPass(_) =>
    case PairingTest(_) => assert f.Keys == {"tfa"};
    case Ping => assert f.Keys == {"action"};
    case Clear => assert f.Keys == {"action"};
    case XpubEcho(_) => assert f.Keys == {"echo", "type"};
    case SigningEcho(_, _) => assert f.Keys == {"echo", "tx"};
    case RandomNumberEcho(_) => assert f.Keys == {"echo"};
  }

  /** Every command but the verify pass is a flat object of strings, so a receiver reads it as a string map. */
  lemma WireIsStringMap(c: Command)
    requires !c.VerifyPass?
    ensures DecodeStringMap(Doc(Wire(c))).StringMap?
  {
  }

  /** Different commands, or the same command with different arguments, are different on the wire. */
  lemma WireInjective(c1: Command, c2: Command)
    requires c1 != c2
    ensures Wire(c1) != Wire(c2)
  {
    ParseWire(c1);
    ParseWire(c2);
  }

  /**
   * A pushed command, decoded as a string map, is none of the replies the desktop
   * waits for and holds neither waited-for name: a relay that sends the
   * desktop's own messages back cannot complete a wait.
   */
  lemma CommandIsNoReply(c: Command)
    ensures DecodeStringMap(Doc(Wire(c))) != StringMap(ScanningSuccess)
    ensures DecodeStringMap(Doc(Wire(c))) != StringMap(Pong)
    ensures DecodeStringMap(Doc(Wire(c))) != StringMap(RandomNumberClear)
    ensures MobilePublicKey !in Wire(c).fields && SigningPin !in Wire(c).fields
  {
    var d := DecodeStringMap(Doc(Wire(c)));
    if d.StringMap? {
      assert "id" !in d.entries && "random" !in d.entries;
      assert "action" in d.entries ==> d.entries["action"] != "pong";
    }
  }

  /** The one push of a Send: logged on the channel, answered by the script, nothing else touched. */
  ghost predicate PushedOnce(relay: Relay, before: seq<Outbound>, outcomes: seq<Delivery>,
                             queues: map<string, seq<Pull>>, channel: Channel, c: Command, status: Status)
    reads relay
  {
    && relay.pushed == before + [Outbound(channel, Wire(c))]
    && status == PushStatus(outcomes)
    && relay.outcomes == (if outcomes == [] then [] else outcomes[1..])
    && relay.queues == queues
  }

  method SendCommand(relay: Relay, channel: Channel, c: Command) returns (status: Status)
    modifies relay
    ensures PushedOnce(relay, old(relay.pushed), old(relay.outcomes), old(relay.queues), channel, c, status)
  {
    status := relay.Push(channel, Wire(c));
  }

  /** Send the verify pass that finishes pairing. */
  method SendVerifyPass(relay: Relay, channel: Channel, verifyPass: Json) returns (status: Status)
    modifies relay
    ensures PushedOnce(relay, old(relay.pushed), old(relay.outcomes), old(relay.queues), channel,
                       VerifyPass(verifyPass), status)
  {
    status := SendCommand(relay, channel, VerifyPass(verifyPass));
  }

  /** Send the pairing test string. */
  method SendPairingTest(relay: Relay, channel: Channel, tfaTestString: string) returns (status: Status)
    modifies relay
    ensures PushedOnce(relay, old(relay.pushed), old(relay.outcomes), old(relay.queues), channel,
                       PairingTest(tfaTestString), status)
  {
    status := SendCommand(relay, channel, PairingTest(tfaTestString));
  }

  /** Send a ping, which the mobile answers with a pong. */
  method SendPing(relay: Relay, channel: Channel) returns (status: Status)
    modifies relay
    ensures PushedOnce(relay, old(relay.pushed), old(relay.outcomes), old(relay.queues), channel, Ping, status)
  {
    status := SendCommand(relay, channel, Ping);
  }

  /** Clear the mobile's screen. */
  method SendClear(relay: Relay, channel: Channel) returns (status: Status)
    modifies relay
    ensures PushedOnce(relay, old(relay.pushed), old(relay.outcomes), old(relay.queues), channel, Clear, status)
  {
    status := SendCommand(relay, channel, Clear);
  }

  /** Send the xpub echo. */
  method SendXpubEcho(relay: Relay, channel: Channel, xpubEcho: string) returns (status: Status)
    modifies relay
    ensures PushedOnce(relay, old(relay.pushed), old(relay.outcomes), old(relay.queues), channel,
                       XpubEcho(xpubEcho), status)
  {
    status := SendCommand(relay, channel, XpubEcho(xpubEcho));
  }

  /** Send the signing echo with its transaction. */
  method SendSigningEcho(relay: Relay, channel: Channel, signingEcho: string, transaction: string)
    returns (status: Status)
    modifies relay
    ensures PushedOnce(relay, old(relay.pushed), old(relay.outcomes), old(relay.queues), channel,
                       SigningEcho(signingEcho, transaction), status)
  {
    status := SendCommand(relay, channel, SigningEcho(signingEcho, transaction));
  }

  /** Send the random number echo. */
  method SendRandomNumberEcho(relay: Relay, channel: Channel, randomNumberEcho: string) returns (status: Status)
    modifies relay
    ensures PushedOnce(relay, old(relay.pushed), old(relay.outcomes), old(relay.queues), channel,
                       RandomNumberEcho(randomNumberEcho), status)
  {
    status := SendCommand(relay, channel, RandomNumberEcho(randomNumberEcho));
  }

  /** Wait for the mobile's report that it scanned the pairing code. */
  method WaitForScanningSuccess(relay: Relay, clock: Clock, channel: Channel, duration: int) returns (status: Status)
    requires DeadlineReachable(clock.readings, duration)
    modifies relay, clock
    ensures var run := WaitRun(old(relay.Queue(channel.id)), old(clock.readings), duration);
      && status == MessageVerdict(run.exit, ScanningSuccess)
      && LeftAsRun(relay, clock, old(relay.queues), old(relay.pushed), old(relay.outcomes), channel, run)
  {
    status := WaitForMessage(relay, clock, channel, duration, ScanningSuccess);
  }

  /** Wait for the mobile's ECDH public key. */
  method WaitForMobilePublicKey(relay: Relay, clock: Clock, channel: Channel, duration: int) returns (fetched: Fetched)
    requires DeadlineReachable(clock.readings, duration)
    modifies relay, clock
    ensures var run := WaitRun(old(relay.Queue(channel.id)), old(clock.readings), duration);
      && fetched == ValueVerdict(run.exit, MobilePublicKey)
      && LeftAsRun(relay, clock, old(relay.queues), old(relay.pushed), old(relay.outcomes), channel, run)
  {
    fetched := WaitForValue(relay, clock, channel, duration, MobilePublicKey);
  }

  /** Wait for the pong that answers a ping. */
  method WaitForPong(relay: Relay, clock: Clock, channel: Channel, duration: int) returns (status: Status)
    requires DeadlineReachable(clock.readings, duration)
    modifies relay, clock
    ensures var run := WaitRun(old(relay.Queue(channel.id)), old(clock.readings), duration);
      && status == MessageVerdict(run.exit, Pong)
      && LeftAsRun(relay, clock, old(relay.queues), old(relay.pushed), old(relay.outcomes), channel, run)
  {
    status := WaitForMessage(relay, clock, channel, duration, Pong);
  }

  /** Wait for the signing PIN, or "abort" when the mobile's user cancels. */
  method WaitForSigningPin(relay: Relay, clock: Clock, channel: Channel, duration: int) returns (fetched: Fetched)
    requires DeadlineReachable(clock.readings, duration)
    modifies relay, clock
    ensures var run := WaitRun(old(relay.Queue(channel.id)), old(clock.readings), duration);
      && fetched == ValueVerdict(run.exit, SigningPin)
      && LeftAsRun(relay, clock, old(relay.queues), old(relay.pushed), old(relay.outcomes), channel, run)
  {
    fetched := WaitForValue(relay, clock, channel, duration, SigningPin);
  }

  /** Wait for the mobile's report that the random number prompt was cleared. */
  method WaitForRandomNumberClear(relay: Relay, clock: Clock, channel: Channel, duration: int) returns (status: Status)
    requires DeadlineReachable(clock.readings, duration)
    modifies relay, clock
    ensures var run := WaitRun(old(relay.Queue(channel.id)), old(clock.readings), duration);
      && status == MessageVerdict(run.exit, RandomNumberClear)
      && LeftAsRun(relay, clock, old(relay.queues), old(relay.pushed), old(relay.outcomes), channel, run)
  {
    status := WaitForMessage(relay, clock, channel, duration, RandomNumberClear);
  }

  /** Each expected reply, sent by the mobile as the deciding message, completes its wait. */
  lemma RepliesComplete(inbox: seq<Pull>, readings: seq<int>, duration: int, expected: map<string, string>, k: nat)
    requires DeadlineReachable(readings, duration)
    requires FirstDecision(inbox, readings[1..], readings[0] + duration, k)
    requires PullAt(inbox, k) == Message(Doc(FromStrings(expected)))
    ensures MessageVerdict(WaitRun(inbox, readings, duration).exit, expected) == Done
  {
    DecodeFromStrings(expected);
    WaitForMessageOutcome(inbox, readings, duration, expected, k);
  }

  /**
   * A relay that hands the desktop one of its own pushes as the deciding message
   * makes every wait of the catalog fail with a mismatch or a missing value.
   */
  lemma ReflectedCommandFailsWaits(inbox: seq<Pull>, readings: seq<int>, duration: int, k: nat, c: Command)
    requires DeadlineReachable(readings, duration)
    requires FirstDecision(inbox, readings[1..], readings[0] + duration, k)
    requires PullAt(inbox, k) == Message(Doc(Wire(c)))
    ensures var exit := WaitRun(inbox, readings, duration).exit;
      && MessageVerdict(exit, ScanningSuccess) == Failed(UnexpectedMessage)
      && MessageVerdict(exit, Pong) == Failed(UnexpectedMessage)
      && MessageVerdict(exit, RandomNumberClear) == Failed(UnexpectedMessage)
      && ValueVerdict(exit, MobilePublicKey) == NotFetched(MissingValue(MobilePublicKey))
      && ValueVerdict(exit, SigningPin) == NotFetched(MissingValue(SigningPin))
  {
    var deadline := readings[0] + duration;
    PollCharacterized(inbox, readings[1..], deadline);
    PollStopsAtFirstDecision(inbox, readings[1..], deadline, k);
    assert WaitRun(inbox, readings, duration).exit == Arrived(Doc(Wire(c)));
    ArrivedCommandFailsWaits(c);
  }

  lemma ArrivedCommandFailsWaits(c: Command)
    ensures var exit := Arrived(Doc(Wire(c)));
      && MessageVerdict(exit, ScanningSuccess) == Failed(UnexpectedMessage)
      && MessageVerdict(exit, Pong) == Failed(UnexpectedMessage)
      && MessageVerdict(exit, RandomNumberClear) == Failed(UnexpectedMessage)
      && ValueVerdict(exit, MobilePublicKey) == NotFetched(MissingValue(MobilePublicKey))
      && ValueVerdict(exit, SigningPin) == NotFetched(MissingValue(SigningPin))
  {
    CommandIsNoReply(c);
  }

  /**
   * The signing PIN is the "pin" field of the deciding message, verbatim, whatever
   * other fields it carries (so a cancel answers exactly "abort"); a reply
   * without the field is the missing-value error, never a guessed PIN.
   */
  lemma SigningPinVerbatim(inbox: seq<Pull>, readings: seq<int>, duration: int, k: nat, reply: map<string, string>)
    requires DeadlineReachable(readings, duration)
    requires FirstDecision(inbox, readings[1..], readings[0] + duration, k)
    requires PullAt(inbox, k) == Message(Doc(FromStrings(reply)))
    ensures SigningPin in reply ==>
      ValueVerdict(WaitRun(inbox, readings, duration).exit, SigningPin) == Value(reply[SigningPin])
    ensures SigningPin !in reply ==>
      ValueVerdict(WaitRun(inbox, readings, duration).exit, SigningPin) == NotFetched(MissingValue(SigningPin))
  {
    DecodeFromStrings(reply);
    WaitForValueOutcome(inbox, readings, duration, SigningPin, k);
  }

  /** A ping answered by a pong within the duration completes the liveness check. */
  method PingPongExchange(channel: Channel) returns (sent: Status, answered: Status, log: seq<Outbound>)
    ensures sent == Done && answered == Done
    ensures log == [Outbound(channel, Wire(Ping))]
  {
    var relay := new Relay(map[channel.id := [Message(Doc(FromStrings(Pong)))]], []);
    var clock := new Clock([0, 5_000_000_000]);
    sent := SendPing(relay, channel);
    assert DeadlineReachable(clock.readings, 5_000_000_000) by {
      assert clock.readings[1..][0] >= clock.readings[0] + 5_000_000_000;
    }
    DecodeFromStrings(Pong);
    answered := WaitForPong(relay, clock, channel, 5_000_000_000);
    log := relay.pushed;
  }

  /** Waiting for the scan against a relay that stays empty gives up at the first reading at the deadline. */
  method ScanTimeout(channel: Channel) returns (status: Status, left: seq<int>)
    ensures status == Failed(NoResponse)
    ensures left == [3_000_000_000]
  {
    var relay := new Relay(map[], []);
    var clock := new Clock([0, 1_000_000_000, 2_000_000_000, 3_000_000_000]);
    assert DeadlineReachable(clock.readings, 2_000_000_000) by {
      assert clock.readings[1..][1] >= clock.readings[0] + 2_000_000_000;
    }
    status := WaitForScanningSuccess(relay, clock, channel, 2_000_000_000);
    left := clock.readings;
  }
}
