# slkrd signaling server and error taxonomy, modelled in Dafny

slkrd pairs a file sender and a file receiver through a small UDP signaling
server. The sender sends an **Offer** under a passcode. The server records a
session under that passcode: the session id, the sender's address, and no
receiver yet. The receiver sends an **Answer** under the same passcode. The
server records the receiver's address and forwards the answer to the sender.
After that, **IceCandidate** messages are relayed to "the other peer": a
candidate from the sender goes to the recorded receiver, and a candidate from
any other address goes to the sender. A failed forward ends the handling with
a `Network` error. The errors the program can report form the `SlkrdError`
enum, and each variant displays with its own fixed prefix.

Files:

- `wrappers.dfy`: `Option` and `Result`.
- `error.dfy` (module `Errors`): `SlkrdError`, its display text, and a parser
  that reads an error's kind and payload text back from its message.
- `signaling.dfy` (module `Signaling`): messages, sessions, and the pure
  specification of one handling step (`Handle`) and of the receive loop
  (`Serve`). Lemmas about both. The class `SignalingServer` holds the session
  table and an outbox, and its methods are proved against `Handle` and `Serve`.

Abstractions:

- Socket addresses and session ids are opaque types compared only for
  equality.
- Each datagram the socket accepts is appended to the server's outbox. What
  `send_to` reports is an input (`SendStatus`): `Delivered`, or
  `SendFailed(reason)`, which becomes `Network(reason)`.
- JSON encoding and decoding carry the message through unchanged. A datagram
  that fails to decode is an inbound `Malformed(reason)`.
- The I/O and WebRTC errors inside `Io` and `WebRTC` are an opaque source
  (whatever else such an error holds) together with the text they display.

## Model

| member | source | states |
|---|---|---|
| `Errors.Display` | src/error.rs:16-22 | Every error's text starts with the fixed prefix of its own kind, and with no other kind's prefix. |
| `Errors.PrefixesDisagreeEarly` | src/error.rs:17-21 | Any two of the five prefixes differ in their first or second character. |
| `Errors.PrefixesExclusive` | src/error.rs:17-21 | A text that starts with one kind's prefix cannot start with another kind's prefix. So no prefix is a prefix of another. |
| `Errors.ParseDisplay` | src/error.rs:16-22 | The kind of an error and the text of its payload can be read back from its message. |
| `Errors.DisplayParse` | src/error.rs:16-22 | Every message the parser accepts is the prefix of the kind it reports followed by the payload text it reports. For InvalidPasscode that text is empty. |
| `Errors.DisplayDeterminesShown` | src/error.rs:16-22 | Two errors with the same message have the same kind and the same payload text. |
| `Errors.IoSourceNotShown` | src/error.rs:17 | Two I/O errors with equal text display the same message even when they differ otherwise, so the message does not determine the error. |
| `Errors.DisplayText` | src/error.rs:17-21 | Exact texts: "IO error: " + io text, "WebRTC error: " + webrtc text, "Network error: " + msg, exactly "Invalid passcode format", "Transfer failed: " + msg. |
| `Signaling.OtherPeer` | src/signaling.rs:94-98 | An ICE candidate is relayed only to a peer of the session. From an address outside the session it goes to the sender. When two distinct peers are recorded, it never goes back to its source. It goes nowhere only when the sender sends before any receiver is recorded. |
| `Signaling.ForwardTarget` | src/signaling.rs:69-110 | A forward is only ever addressed to a peer of the session registered under the message's own passcode. |
| `Signaling.UpdatedTable` | src/signaling.rs:70-89 | Only an Offer adds a passcode. Entries under every other passcode are unchanged. |
| `Signaling.Handle` | src/signaling.rs:64-113 | One message changes at most the entry under its own passcode. An ICE candidate leaves the table unchanged. Anything sent is the unchanged message, addressed to a session peer. A datagram is sent exactly when a forward is due and its send is delivered, and it goes to the forward target. Failure happens exactly when a forward is due and the send fails, and then the result is `Network(reason)` and nothing is sent. An Offer sends nothing and succeeds. |
| `Signaling.OfferRegistersSession` | src/signaling.rs:70-76 | An Offer stores `(session id, source address, no receiver)` under its passcode, replacing any earlier session. It sends nothing and returns Ok. |
| `Signaling.AnswerUnknownPasscodeIgnored` | src/signaling.rs:78-89 | An Answer under an unknown passcode leaves the table unchanged, sends nothing and returns Ok. |
| `Signaling.AnswerRecordsReceiver` | src/signaling.rs:78-89 | An Answer under a known passcode sets the receiver to the source address and keeps id and sender. It forwards the unchanged message once to the sender. If that send fails, it returns `Network` and the receiver update is kept. |
| `Signaling.IceCandidateRouting` | src/signaling.rs:91-110 | An ICE candidate never changes the table. From the sender it goes to the recorded receiver, or nowhere. From any other address it goes to the sender. Under an unknown passcode nothing is sent. |
| `Signaling.Serve` | src/signaling.rs:50-61 | The receive loop handles messages in order and stops at the first receive, decode or forward error. Every error that stops it is a `Network` error. |
| `Signaling.ServeLeavesOtherPasscodes` | src/signaling.rs:69-111 | Over any run of the receive loop, the entry under a passcode that no message mentions is unchanged. |
| `Signaling.IceTrafficKeepsTable` | src/signaling.rs:91-92 | Any run with no Offer and no Answer leaves the table exactly as it was. Such a run holds only ICE candidates and receive or decode failures. |
| `Signaling.ServeSendsAtMostOnePerDatagram` | src/signaling.rs:69-111 | The receive loop sends at most one datagram per datagram it receives. |
| `Signaling.Rendezvous` | src/signaling.rs:69-111 | A full exchange is an Offer from a, an Answer from b, and then one ICE candidate from each (a ≠ b). The answer reaches a, a's candidate reaches b, and b's candidate reaches a. The session ends up recording sender a and receiver b. |
| `Signaling.SignalingServer.constructor` | src/signaling.rs:36-45 | A new server has an empty session table and has sent nothing. |
| `Signaling.SignalingServer.SendTo` | src/signaling.rs:82-88 | A delivered send appends exactly one datagram to the outbox. A failed send appends nothing and yields `Network(reason)`. |
| `Signaling.SignalingServer.HandleMessage` | src/signaling.rs:64-113 | The in-place update of the session table, the datagram appended to the outbox and the returned result are exactly those of `Handle` on the old table. |
| `Signaling.SignalingServer.Run` | src/signaling.rs:47-62 | The receive loop over the datagrams that arrive ends with the table, the outbox and the stopping error that `Serve` gives. It stops at the first receive, decode or forward error. |

## Left out

- Binding the UDP socket in `SignalingServer::new` (src/signaling.rs:36-45) is network I/O. The constructor cannot fail in the model.
- `run` (src/signaling.rs:47-62) loops forever. The model runs it over a finite sequence of inbound datagrams, and `stopped == None` means the datagrams ran out while the server was still running. Truncation of a datagram longer than the 65536-byte receive buffer is not modelled. Such a datagram shows up only as a `Malformed` inbound.
- JSON encoding and decoding with serde (src/signaling.rs:57-58, 84, 103) is a foreign library. `to_vec(...).unwrap()` is taken never to panic, and a forwarded message is the received one, unchanged.
- The async runtime is not modelled. Messages are handled one at a time, in arrival order, as the single `&mut self` receive loop does.
- The `Debug` derivations, and `std::error::Error` for `SlkrdError` (src/error.rs:12), carry no logic.
- src/transfer.rs only constructs a WebRTC manager, a file handle and a progress bar, so there is no transfer logic to model. src/file.rs is thin file I/O wrappers. src/network.rs wraps a WebRTC library. src/main.rs is argument dispatch and logging. src/config.rs holds only defaults, including `chunk_size = 65536`, which nothing in the modelled code reads.
- Passcode generation and validation, a wire header, and a byte-counting chunk loop are not implemented anywhere in src/, so they are not modelled. `InvalidPasscode` is never raised. Only its display text is modelled.
