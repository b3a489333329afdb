# Relay pairing channel of the BitBox desktop app, in Dafny

This project models the desktop side of the pairing and confirmation protocol
between the BitBox desktop app and its paired mobile app
(`backend/devices/bitbox/relay/channel.go`). The two apps never talk directly.
Each pushes JSON messages to a store-and-forward relay server. The relay keeps
a FIFO queue for each channel, and a pull takes the oldest message off it.

The model has three parts:

- **Channel identity** (`channels.dfy`, `base58.dfy`). A `Channel` is an
  immutable pair of an identifier and a 32-byte encryption key.
  `NewChannelWithRandomKey` takes its two 32-byte random draws as parameters.
  The identifier is the Bitcoin base58 encoding of the first draw. Base58 is
  written out as the btcutil algorithm: the bytes are read as a big-endian
  number written in base 58, and each leading zero byte becomes a leading `1`.
  A matching decoder is proved to invert it. Base58 of 32 bytes has no fixed
  length: each leading zero byte adds a `1` and shortens the rest.
- **Bounded poll** (`poll.dfy`, `waits.dfy`). `waitForMessage` and
  `waitForValue` run the same loop. It pulls the oldest message. A transport
  error ends the wait at once. An empty queue is pulled again while the clock
  reading is before `deadline = start + duration`, and gives a timeout once a
  reading is at or after it. The first message decides the wait. Both source
  loops are modelled by one loop method, `Waits.AwaitMessage`, which is proved
  against the specification function `Polling.Poll`. Two verdict functions
  then model how each wait judges the message that arrived.
  `Polling.PollCharacterized` states what `Poll` does without the loop: the
  run stops at the first "deciding" pull, which is a non-empty pull or an
  empty pull followed by a reading at or after the deadline.
- **Message catalog** (`catalog.dfy`). Each `Send*` pushes exactly one fixed
  JSON shape (`Catalog.Wire`). Each `Wait*` is one wait with a fixed expected
  map or a fixed value name. `Catalog.Parse` is a reference reader for the
  receiving side. It is proved to recover every command from its wire shape.

The environment is scripted (`transport.dfy`):

- The `Relay` class holds one queue of pull outcomes per channel identifier:
  `Failure(err)`, `Empty`, or `Message(payload)`. An exhausted queue answers
  `Empty`.
- The relay also holds a script of push outcomes, where an exhausted script
  means the push was delivered. It logs every push.
- The `Clock` class answers a scripted sequence of readings, in nanoseconds.

JSON decoding (`json.dfy`) follows `json.Unmarshal` into a Go
`map[string]string`:

- An object whose members are all strings or `null` decodes to that map. A
  `null` member becomes `""`.
- The document `null` decodes without error to a nil map. `reflect.DeepEqual`
  never equates a nil map with the non-nil expected map, and a nil map holds
  no key.
- Anything else is an error. A nested value or a number under a key is a
  decoding error, hence a mismatch.

The Go errors are modelled as `Transport.Error`:

- `Transport(cause)`: the pull or push error, returned unchanged.
- `NoResponse`: "Did not receive a response from the mobile in the given duration."
- `UnexpectedMessage`: "Received a different message from the paired mobile than expected."
- `MissingValue(name)`: "Did not receive the value '<name>' from the paired mobile."

## Model

| member | source | states |
|---|---|---|
| `Channels.NewChannel` | backend/devices/bitbox/relay/channel.go:24-30 | the channel holds exactly the given identifier and key |
| `Channels.NewChannelWithRandomKey` | backend/devices/bitbox/relay/channel.go:32-46 | the key is the 32-byte random draw itself; the identifier is made only of base58 symbols, holds no `=`, and decodes back to the 32-byte identifier draw |
| `Base58.Symbol` | backend/devices/bitbox/relay/channel.go:44-45 | each base-58 digit has a symbol of the alphabet, and only digit 0 is `1` |
| `Base58.DigitOf` | backend/devices/bitbox/relay/channel.go:44-45 | every alphabet symbol stands for a digit below 58 whose symbol it is |
| `Base58.Digits` | backend/devices/bitbox/relay/channel.go:44-45 | the digit string of a positive number has only alphabet symbols and no leading `1`; zero has none |
| `Base58.Encode` | backend/devices/bitbox/relay/channel.go:44-45 | an encoding holds only alphabet symbols, never `=` |
| `Base58.DecodeEncode` | backend/devices/bitbox/relay/channel.go:44-45 | decoding an encoding gives back the bytes, leading zero bytes included |
| `Base58.EncodeInjective` | backend/devices/bitbox/relay/channel.go:44-45 | different random draws give different channel identifiers |
| `Json.DecodeStringMap` | backend/devices/bitbox/relay/channel.go:93-95 | a payload decodes to a map exactly when it is an object of string or null members, with the same keys and values (null as ""); only the document `null` gives a nil map |
| `Json.FromStrings` | backend/devices/bitbox/relay/channel.go:148-187 | a marshalled string map (or the `action` struct) is an object with exactly the map's keys, each holding its value as a JSON string |
| `Json.DecodeFromStrings` | backend/devices/bitbox/relay/channel.go:146-151 | a string map the desktop marshals decodes back to exactly that map |
| `Json.FromStringsInjective` | backend/devices/bitbox/relay/channel.go:174-180 | different string maps are pushed as different documents |
| `Transport.Relay.PullOldest` | backend/devices/bitbox/relay/channel.go:83 | a pull answers the oldest queued entry of the channel (Empty if none) and removes it; nothing else changes |
| `Transport.Relay.Push` | backend/devices/bitbox/relay/channel.go:141-143 | a push is logged once, answers the next scripted outcome, and leaves the queues alone |
| `Transport.Clock.Now` | backend/devices/bitbox/relay/channel.go:81 | a reading answers the next scripted time and uses it up |
| `Polling.Poll` | backend/devices/bitbox/relay/channel.go:81-92 | every run makes at least one pull; it never gives clock readings back; a timeout always uses up the reading that reached the deadline |
| `Polling.PollCharacterized` | backend/devices/bitbox/relay/channel.go:81-92 | the loop pulls up to and including the first deciding pull and no further; it exits as that pull says; everything behind it stays queued; it reads the clock once per empty pull |
| `Polling.PollStopsAtFirstDecision` | backend/devices/bitbox/relay/channel.go:82-99 | any pull that is the first to end the loop is exactly the last pull the loop makes |
| `Waits.AwaitMessage` | backend/devices/bitbox/relay/channel.go:81-92 | the loop of both waits returns the exit of `Poll` on the queue and clock it started with, and leaves the queue and clock where `Poll` says; pushes are untouched |
| `Waits.MessageVerdict` | backend/devices/bitbox/relay/channel.go:84-98 | success exactly when the message decodes to the expected map; a mismatch exactly for any other message, malformed ones included; the no-response error exactly on a timeout; a transport error exactly when the pull failed, with its cause unchanged |
| `Waits.ValueVerdict` | backend/devices/bitbox/relay/channel.go:108-123 | a value exactly when the message decodes to a map that holds the name, and then the value under it; the missing-value error exactly for any other message; the no-response error exactly on a timeout; a transport error exactly when the pull failed, with its cause unchanged |
| `Waits.WaitForMessage` | backend/devices/bitbox/relay/channel.go:77-100 | the result is the message verdict of the poll's exit; state as for the loop |
| `Waits.WaitForValue` | backend/devices/bitbox/relay/channel.go:104-125 | the result is the value verdict of the poll's exit; state as for the loop |
| `Waits.WaitForMessageOutcome` | backend/devices/bitbox/relay/channel.go:83-98 | with the first deciding pull fixed: success iff it is a message decoding to exactly the expected map; mismatch iff it is any other message (malformed ones included); timeout iff it is empty; a transport error iff it failed, returned as it is; no pull after it |
| `Waits.WaitForValueOutcome` | backend/devices/bitbox/relay/channel.go:107-123 | with the first deciding pull fixed: the value iff it is a message decoding to a map that holds the name (other keys allowed), and then exactly the value under that name; the missing-value error naming it iff it is any other message; timeout iff it is empty; a transport error iff it failed, unchanged; no pull after it |
| `Waits.NoTimeoutBeforeDeadline` | backend/devices/bitbox/relay/channel.go:87-92 | a timeout comes only after all-empty pulls, every earlier reading before the deadline and the last one at or after it |
| `Waits.KeepsPollingBeforeDeadline` | backend/devices/bitbox/relay/channel.go:87-90 | while pulls are empty and readings before the deadline, the wait makes another pull |
| `Waits.ConsumesAtMostOneMessage` | backend/devices/bitbox/relay/channel.go:93-98 | every pull but the last was empty, and the queue after the wait is the queue behind the last pull: a mismatching message is never skipped |
| `Waits.PullErrorEndsWait` | backend/devices/bitbox/relay/channel.go:83-86 | a transport error is the last pull's error, returned unchanged, with no clock reading after it and nothing more pulled |
| `Waits.SilentRelayTimesOut` | backend/devices/bitbox/relay/channel.go:111-116 | against a queue that has only empty answers, a wait can only time out |
| `Catalog.ParseWire` | backend/devices/bitbox/relay/channel.go:139-202 | the receiver's reading recovers every pushed command with its arguments from its wire shape |
| `Catalog.WireInjective` | backend/devices/bitbox/relay/channel.go:139-202 | different commands, or different arguments, are pushed as different JSON objects |
| `Catalog.CommandIsNoReply` | backend/devices/bitbox/relay/channel.go:127-208 | no pushed shape decodes to `{id:"success"}`, `{action:"pong"}` or `{random:"clear"}`, and none carries `ecdh` or `pin` |
| `Catalog.Wire` | backend/devices/bitbox/relay/channel.go:141-201 | every push is a JSON object; the verify pass travels as it is under `verifypass`; exactly ping and clear carry an `action`; exactly the three echoes carry an `echo` |
| `Catalog.WireIsStringMap` | backend/devices/bitbox/relay/channel.go:147-201 | every command but the verify pass reads on the receiving side as a string map |
| `Catalog.SendCommand` | backend/devices/bitbox/relay/channel.go:141-143 | one push of the command's wire shape on the channel; the result is the push's; the queues are untouched and the push script advances by one |
| `Catalog.SendVerifyPass` | backend/devices/bitbox/relay/channel.go:140-144 | exactly one push of `{verifypass: v}` on the channel; the result is the push's; nothing else changes |
| `Catalog.SendPairingTest` | backend/devices/bitbox/relay/channel.go:147-151 | exactly one push of `{tfa: s}`; the result is the push's; nothing else changes |
| `Catalog.SendPing` | backend/devices/bitbox/relay/channel.go:159-161 | exactly one push of `{action:"ping"}`; the result is the push's; nothing else changes |
| `Catalog.SendClear` | backend/devices/bitbox/relay/channel.go:170-172 | exactly one push of `{action:"clear"}`; the result is the push's; nothing else changes |
| `Catalog.SendXpubEcho` | backend/devices/bitbox/relay/channel.go:175-180 | exactly one push of `{echo: e, type:"p2pkh"}`; the result is the push's; nothing else changes |
| `Catalog.SendSigningEcho` | backend/devices/bitbox/relay/channel.go:183-188 | exactly one push of `{echo: e, tx: t}`; the result is the push's; nothing else changes |
| `Catalog.SendRandomNumberEcho` | backend/devices/bitbox/relay/channel.go:198-202 | exactly one push of `{echo: e}`; the result is the push's; nothing else changes |
| `Catalog.WaitForScanningSuccess` | backend/devices/bitbox/relay/channel.go:129-131 | the message wait with expected map `{id:"success"}` |
| `Catalog.WaitForMobilePublicKey` | backend/devices/bitbox/relay/channel.go:135-137 | the value wait for name `ecdh` |
| `Catalog.WaitForPong` | backend/devices/bitbox/relay/channel.go:165-167 | the message wait with expected map `{action:"pong"}` |
| `Catalog.WaitForSigningPin` | backend/devices/bitbox/relay/channel.go:193-195 | the value wait for name `pin` |
| `Catalog.WaitForRandomNumberClear` | backend/devices/bitbox/relay/channel.go:206-208 | the message wait with expected map `{random:"clear"}` |
| `Catalog.RepliesComplete` | backend/devices/bitbox/relay/channel.go:93-98 | an expected reply, marshalled by the mobile and arriving as the deciding message, completes the wait |
| `Catalog.ReflectedCommandFailsWaits` | backend/devices/bitbox/relay/channel.go:127-208 | if the relay hands back one of the desktop's own pushes as the deciding message, every catalog wait fails with a mismatch or a missing value |
| `Catalog.SigningPinVerbatim` | backend/devices/bitbox/relay/channel.go:190-195 | the signing PIN is the `pin` field of the deciding message verbatim, whatever else it carries (so a cancel gives exactly `"abort"`); a reply without `pin` gives the missing-value error |
| `Catalog.PingPongExchange` | backend/devices/bitbox/relay/channel.go:158-167 | a ping is pushed as `{action:"ping"}`, and a pong queued within 5 s makes the wait succeed |
| `Catalog.ScanTimeout` | backend/devices/bitbox/relay/channel.go:127-131 | with an empty relay and a 2 s wait, the scan wait times out at the 2 s reading, the deadline, leaving the 3 s reading unused |

## Left out

- `NewChannelFromConfigFile` and `StoreToConfigFile` (channel.go:48-67) are left out. They read and write through a `config` package that is not part of this model. The source returns nil when the file is missing or unreadable.
- `relayServer` and `DefaultServer` (channel.go:69-73) are left out: the `Relay` object stands for the one configured server.
- `PushMessage` and `PullOldestMessage` are not part of this model. The network, the encryption under the channel key and the decryption are replaced by scripted outcomes. A refused push is still logged; what it leaves on the server is not modelled. The relay does not route pushes into any queue, because the mobile side is not modelled.
- `crypto/rand` is left out: the random draws are parameters. The panic when the random source fails is not modelled.
- `Channels.NewChannelWithRandomKey`: the length of the identifier (at most 44 symbols for 32 bytes) is not stated.
- Wall-clock time is replaced by scripted readings. Go's monotonic-clock details and the saturation of `time.Time.Add` are left out.
- `Waits.AwaitMessage` and every wait built on it require the clock script to hold a reading at or after the deadline. This stands for a real clock, which always gets there, and it is what makes the model's loop terminate.
- JSON text is not modelled. Payloads are JSON values, or bytes that are not JSON. Objects are maps, so duplicate keys (Go keeps the last) and string escaping are out of scope. So is a `verifyPass` value that `json.Marshal` cannot encode.
- Strings are sequences of Unicode characters, while a Go `string` is a byte string. Arguments that are not valid UTF-8 cannot be expressed, and `json.Marshal`'s replacement of invalid bytes by U+FFFD (which can push two different Go strings as the same bytes) is not modelled. `Json.FromStringsInjective` and `Catalog.WireInjective` hold for valid UTF-8 arguments only.
- `Channels.NewChannel` stores the caller's key slice by reference in the source, so a later write to that slice changes the channel's key. The model's key is an immutable sequence and cannot alias.
- Concurrency is left out. Two waits racing for the head of one queue are not modelled; every operation runs to completion alone.
- The polling cadence is not modelled: the source busy-polls and the model does the same.
- `backend/wallet.go` is not part of this model.
