# OxiSH: a verified model of the SSH transport, key exchange, channels and handoff

OxiSH is an SSH server. This project models its protocol core in Dafny and proves what that core
is for: packets arrive as they were sent, keys and nonces are used once, a rekey excludes all
other traffic, channel windows balance, authentication is sound, and a connection that moves to
its own process goes on as if it had stayed.

| file | models |
|---|---|
| `Bytes.dfy`, `Named.dfy`, `Mpint.dfy` | wire primitives, name lists, mpints and signature blobs |
| `Gcm.dfy`, `Crypto.dfy` | nonce state of one direction, exchange hash input, key derivation |
| `Transport.dfy`, `Delivery.dfy`, `TwoParty.dfy`, `Connection.dfy` | packet reader and writer, the receive loop, both ends of a connection, flushing |
| `Negotiation.dfy`, `KeyExchange.dfy`, `KeyExchangeRuns.dfy` | algorithm choice, the two exchange machines, whole exchanges |
| `Channels.dfy`, `ChannelRuns.dfy`, `ChannelReplies.dfy`, `ChannelWitnesses.dfy` | the channel table, ledgers over whole runs, what is answered and reported, runs that show the exact conditions |
| `Nonces.dfy`, `Receipts.dfy` | the calls of the cipher over the life of a connection; what is received, told from the bytes |
| `Session.dfy`, `SessionRuns.dfy`, `SessionReplies.dfy`, `SessionKeys.dfy`, `SessionSizes.dfy` | the session loop on a connection; what its runs write, what each packet is answered with, the keys they install, how long their packets are |
| `Authentication.dfy`, `AuthReplies.dfy`, `Login.dfy`, `LoginRuns.dfy` | the authentication machine and its cache; what it reads and replies; a connection from its first packet to the login |
| `Handoff.dfy`, `HandoffRuns.dfy` | the handed-over state, its reassembly, the resumed session |
| `HostKeys.dfy` | the OpenSSH private key file |

Code that updates state in place (`ReadState`, `WriteState`, `GcmState`, the exchange machines,
the channel table, the session, the authenticator) is a class. Each method is proved to compute a
function of the old state, and the theorems are about those functions. Loops in the original are
loops here.

What the original takes from outside is a parameter, with the laws it needs written next to it:
the AEAD cipher (opening inverts sealing, fixed lengths), hashes (fixed positive output length),
key agreement and signing, UTF-8 validity (accepts ASCII), base64 (decoding inverts encoding, an
alphabet without dash and line ends), the address handed over (parsing inverts showing), the user
store, the
terminals and the clock, random bytes, and how the stream cuts the bytes it carries.

Where a natural property does not hold of the code, the code is kept and the exact condition is
proved:

- The output of a channel can break its order: exactly when it has ended and a step still sends a
  banner, or finds a terminal started again with something to report before all others (`OrderBreaksExactlyWhen`, with runs in
  `OrderCanBreak` and `OrderCanBreakWithoutBanner`). It cannot while no terminal is asked for after
  the output has ended (`ChannelOutputOrder`).
- The receive window equals granted minus accepted bytes exactly when every shell granted since the
  channel was opened found the window empty (`ReceiveWindowLedger`, with a run in
  `GrantsCanOverlap`). Sent bytes plus window equal what the peer allowed exactly when every
  adjustment fitted (`SendWindowLedger`, `AdjustsCanBeCapped`).
- Data is within the maximum packet size exactly when it comes from the terminal or is a banner of
  at most that size (`DataFitsPacketSize`, `BannerCanExceed`).
- How a stream is cut changes the error, and nothing else, exactly when one cut ends right behind an
  unencrypted packet of length zero and the other does not (`ChunkingIndependence`, `StarvesIff`,
  `DecodeIgnoresRest`, with `ErrorKindVaries`).
- What a signature covers is the request as received exactly if its flag byte is 1; any other non-zero
  flag is signed as 1 (`SignedIsRequest`).
- Name lists: the list holding only the empty name is read back as the empty list
  (`NamesRoundTrip`).
- Reassembly of a handed-over state needs the four bytes of its length in one piece
  (`ReassemblesIff`, `ShortFirstPiece`).
- A key file with a zero ECDSA scalar can be written but not read (`KeyFileRoundTrip`,
  `ZeroScalar`).

## Model

| member | source | states |
|---|---|---|
| `Bytes.FromToBE` | oxish-proto/src/lib.rs:578-606 | a number below 256^k is the value of its k big-endian bytes |
| `Bytes.ToFromBE` | oxish-proto/src/lib.rs:578-606 | k bytes are the big-endian bytes of their value |
| `Bytes.DecodeEncodedU32` | oxish-proto/src/lib.rs:578-591 | a 32-bit number is read back and exactly its four bytes are consumed |
| `Bytes.DecodeEncodedU64` | oxish-proto/src/lib.rs:593-606 | a 64-bit number is read back and exactly its eight bytes are consumed |
| `Bytes.StringRoundTrip` | oxish-proto/src/lib.rs:537-561 | a length-prefixed string is read back, whatever follows it, and reading stops at its end |
| `Bytes.StringInjective` | oxish-proto/src/lib.rs:537-561 | two encoded strings with tails agree only if strings and tails do |
| `Bytes.BigEndian` | oxish-proto/src/lib.rs:578-591 | the four bytes of a number, most significant first |
| `Bytes.ReadsU32Iff` | oxish-proto/src/lib.rs:578-591 | a number is read exactly if the bytes start with its four bytes |
| `Bytes.ReadsStringIff` | oxish-proto/src/lib.rs:537-561 | a string is read exactly if the bytes start with its encoding, and reading stops at its end |
| `Named.NameRoundTrip` | oxish-proto/src/named.rs:488-508 | an ASCII name is read back from its string field |
| `Named.SplitJoin` | oxish-proto/src/named.rs:426-486 | cutting a joined list of comma-free names at commas gives the names back |
| `Named.NamesRoundTrip` | oxish-proto/src/named.rs:426-486 | a list of valid comma-free names is read back unchanged, except that the list of one empty name becomes the empty list |
| `Named.ReadsNamesIff` | oxish-proto/src/named.rs:426-486 | a list of names is read exactly if the bytes start with its encoding and it is not the list of one empty name |
| `Named.EncodeNameList` | oxish-proto/src/named.rs:467-486 | the back-patching encoder appends the length-prefixed comma-separated list |
| `Named.SplitCommas` | oxish-proto/src/named.rs:426-462 | the scan for commas computes the recursive split |
| `Named.DecodeNameList` | oxish-proto/src/named.rs:426-462 | the pushing loop computes the specified decoder, errors included |
| `Gcm.NewSucceedsIff` | oxish-graviola/src/lib.rs:238-261 | building succeeds exactly for the right algorithm and lengths and a counter that does not pass the end |
| `Gcm.TracksIffRebuilt` | oxish-aws-lc/src/lib.rs:230-272 | a nonce state belongs to its source at its counter exactly when rebuilding from source and counter gives it |
| `Gcm.NextNonceTracks` | oxish-graviola/src/lib.rs:262-281 | a draw hands out nonce number `counter`, moves on by one, and is refused exactly at exhaustion |
| `Gcm.FreshNonceIsIv` | oxish-graviola/src/lib.rs:238-267 | the first nonce is the derived IV |
| `Gcm.NoncesDistinct` | oxish-graviola/src/lib.rs:262-281 | different invocation numbers give different nonces |
| `Gcm.RunIsConsecutive` | oxish-graviola/src/lib.rs:238-281 | any mix of draws and handoffs hands out consecutive nonces and keeps the state tied to its source |
| `Gcm.NoncesNeverRepeat` | oxish/src/server.rs:158-167 | for one derived key, over any mix of packets and process handoffs, no nonce is handed out twice |
| `Gcm.NewIsReplay` | oxish/src/unix/mod.rs:297-298 | starting at counter c equals starting at zero and drawing c nonces, in success and in failure |
| `Gcm.GcmState.Create` | oxish-graviola/src/lib.rs:238-261 | the object built is the specified state, or the specified error |
| `Gcm.GcmState.Advance` | oxish-graviola/src/lib.rs:268-281 | the in-place update of the nonce bytes adds to the invocation counter or refuses and changes nothing |
| `Gcm.GcmState.Next` | oxish-graviola/src/lib.rs:262-267 | returns the current nonce and steps, or refuses and changes nothing |
| `Crypto.HandshakeHash.Prefixed` | oxish-proto/src/crypto.rs:298-305 | two updates append one length-prefixed string |
| `Crypto.BufferingIsStreaming` | oxish-proto/src/crypto.rs:298-338 | buffering input until the hash is known and then feeding it in gives the hash of the streamed input, wherever the switch is |
| `Crypto.KeyStreamExtends` | oxish-proto/src/crypto.rs:222-270 | more blocks only extend the key stream |
| `Crypto.DerivedFromAnyBlocks` | oxish-proto/src/crypto.rs:244-270 | a key is the same prefix of the stream however many blocks are computed |
| `Crypto.DerivedPrefix` | oxish-proto/src/crypto.rs:244-270 | a shorter key is a prefix of a longer one |
| `Crypto.Derive` | oxish-proto/src/crypto.rs:244-270 | the block loop terminates and returns the len-byte prefix of K1, K2, ... of section 7.2 of RFC 4253 |
| `Crypto.DerivedKeysAreUsable` | oxish-proto/src/crypto.rs:145-183 | keys derived for a supported cipher can always be installed |
| `Crypto.DerivedAsStandardised` | oxish-proto/src/crypto.rs:145-183 | derivation fails exactly for an unknown cipher; otherwise the two IVs and two keys are the prefixes, of 12 and 16 bytes, of the blocks of section 7.2 of RFC 4253 for the letters A, B, C and D, client to server first |
| `Crypto.KeyForUnique` | oxish-proto/src/crypto.rs:222-286 | there is only one key of each length for a letter |
| `Transport.PaddingIsSound` | oxish-proto/src/io.rs:238-268 | the padded region is a whole number of blocks of at least 16 bytes, with 4 to 19 bytes of padding |
| `Transport.ReadState.CompactBuffer` | oxish-proto/src/io.rs:37-50 | drops exactly the packet delivered last |
| `Transport.ReadState.OpenInPlace` | oxish-proto/src/io.rs:51-94 | opens the first packet where it lies, or fails and delivers nothing if the tag does not verify |
| `Transport.ReadState.PollPacket` | oxish-proto/src/io.rs:37-94 | result, buffer, counters and opener are those of the specified poll |
| `Transport.ReadState.ResetSequenceNumber` | oxish-proto/src/io.rs:157-162 | the number restarts exactly under strict key exchange |
| `Transport.WriteState.Assemble` | oxish-proto/src/io.rs:224-300 | reserving, appending and patching builds the plain packet behind what was buffered |
| `Transport.WriteState.SealInPlace` | oxish-proto/src/io.rs:304-311 | everything behind the length field is encrypted and the tag filled in |
| `Transport.WriteState.EncodeKx` | oxish-proto/src/io.rs:224-316 | buffer, number and sealer are those of the specified encoder, and the payload enters the exchange hash |
| `Transport.WriteState.Written` | oxish-proto/src/io.rs:325-341 | accounts for the bytes taken, empties a finished buffer, refuses a zero write |
| `Transport.Apply` | oxish-proto/src/key_exchange.rs:313-320 | NEWKEYS goes out under the old key, then both directions switch; a failed write switches nothing |
| `Delivery.PollGrows` | oxish-proto/src/io.rs:37-94 | more bytes behind never change a decision; an incomplete poll only compacts |
| `Delivery.HintIsTight` | oxish-proto/src/io.rs:37-94 | the hint of an incomplete poll is positive and no fewer bytes can complete the packet |
| `Delivery.HintIsExact` | oxish-proto/src/io.rs:37-94 | once the length is known, exactly as many bytes as the hint decide the poll; before, it asks for the rest of the length |
| `Delivery.DecodeIgnoresRest` | oxish-proto/src/io.rs:97-147 | a packet decodes alike whatever follows; the result is the very same exactly unless its length is zero, nothing follows it yet and something will |
| `Delivery.ErrorKindVaries` | oxish/src/lib.rs:377-396 | two ways to receive the same five bytes that report different errors |
| `Delivery.ReceiveFromWhole` | oxish/src/lib.rs:377-411 | one packet read from pieces is the packet read from one buffer, with the same bytes left, and the same error except behind a bare packet of length zero |
| `Delivery.ChunkingIndependence` | oxish/src/lib.rs:377-411 | for every byte stream, valid or not, and any key changes, all ways to cut it deliver the same packets and fail at the same packet, with the same error exactly unless the unread bytes start with four zero bytes, no key is installed, and one of them has a cut right behind these bytes and the other has not |
| `Delivery.StarvesIff` | oxish/src/lib.rs:377-396 | a receive runs dry behind a bare packet of length zero exactly when the stream has those four zero bytes next, no key installed and a cut right behind them |
| `Delivery.CompactReceives` | oxish/src/server.rs:142-148 | dropping the last packet early changes nothing received later |
| `Delivery.DeliverPrefix` | oxish/src/lib.rs:377-411 | cutting a stream short only cuts what is delivered |
| `Delivery.ReceivePacket` | oxish/src/lib.rs:377-396 | the receive loop on a `ReadState` computes the specified receive |
| `Receipts.ReceiveExactly` | oxish/src/lib.rs:377-396 | for every reader, key and stream, a packet is received if and only if the unread bytes start with a whole packet of at most 65536 bytes that the cipher opens, if there is a key, with the next nonce, and that wraps a type and payload in at least four bytes of padding; then that is the packet and reading goes on right behind it; a packet the cipher refuses is DecryptionFailed, one too long InvalidPacket |
| `Receipts.ReceiveOpens` | oxish-graviola/src/lib.rs:201-212 | a packet received under a key is the opening of the one call made, under that key and on the next bytes |
| `Receipts.DeliveredAreOpened` | oxish/src/lib.rs:377-411 | so is every packet of a delivery, under any key changes |
| `TwoParty.WireIsFrames` | oxish-proto/src/io.rs:224-341 | with partial writes, the bytes on the wire and in the buffer are the frames of the run |
| `TwoParty.FrameReceived` | oxish-proto/src/io.rs:37-147 | a whole frame at the front is received as its packet and nothing more |
| `TwoParty.TwoPartyTransport` | oxish-proto/src/key_exchange.rs:313-320 | for every run of sends, key changes and partial writes, and every cutting, a mirror reader delivers exactly the payloads in order with the writer's numbers |
| `TwoParty.TwoPartyPrefix` | oxish-proto/src/io.rs:37-147 | with part of the bytes, it delivers an initial segment and nothing fails |
| `Connections.FlushWrites` | oxish/src/lib.rs:157-170 | a flush is a run of partial writes that leaves nothing buffered |
| `Connections.FlushesIff` | oxish/src/lib.rs:157-170 | a flush goes through exactly when writes that each take something take all that is buffered, and the stream then has those bytes |
| `Connections.Drain` | oxish/src/lib.rs:157-170 | the loop over partial writes takes the specified bytes off the buffer, or fails on a write of nothing |
| `Connections.SendEach` | oxish-proto/src/io.rs:216-222 | packets are encoded one after the other, as one run of the writer |
| `Connections.InstallKeys` | oxish-proto/src/key_exchange.rs:313-320 | new keys are announced under the old and both directions switch to fresh states |
| `Connections.InstalledWrites` | oxish-proto/src/key_exchange.rs:313-320 | installing keys is one operation of the writer and one of the reader |
| `Connections.Connection.Take` | oxish/src/lib.rs:377-396 | the next packet is received and nothing but the reader changes |
| `Connections.Connection.Peek` | oxish/src/lib.rs:377-396 | a receive that waits leaves the buffer compacted, with what it had read |
| `Nonces.FramesAreCalls` | oxish-graviola/src/lib.rs:165-186 | the frames under one key are what the cipher returned for the recorded calls |
| `Nonces.ReceiveMakesCalls` | oxish-graviola/src/lib.rs:201-212 | the recorded calls are all that receiving asks of the cipher: two ciphers that agree on them receive alike |
| `Nonces.SealsAreConsecutive` | oxish-graviola/src/lib.rs:165-186 | the calls of a run of the writer under one key use consecutive nonces from its counter on |
| `Nonces.OpensAreConsecutive` | oxish-graviola/src/lib.rs:201-212 | so do the calls of a run of the reader, failed openings included |
| `Nonces.AllSealsDiffer` | oxish-graviola/src/lib.rs:262-281 | in a run of the writer with fresh keys, for every key installed, the frames from there on start with its calls, and these have different nonces |
| `Nonces.AllOpensDiffer` | oxish-graviola/src/lib.rs:262-281 | in a run of the reader with fresh keys, the calls under every key installed have different nonces |
| `Mpint.AppendMpint` | oxish-proto/src/key_exchange.rs:857-870 | the encoder appends the specified mpint |
| `Mpint.BodyIsMinimal` | oxish-proto/src/key_exchange.rs:857-870 | the encoding is minimal, non-negative and has the value of the input |
| `Mpint.MinimalUnique` | oxish-proto/src/key_exchange.rs:857-870 | an integer has one minimal form |
| `Mpint.MpintCanonical` | oxish-proto/src/key_exchange.rs:857-870 | two values encode alike exactly when they are the same integer |
| `Mpint.ToFixedValue` | oxish-proto/src/auth.rs:491-504 | the fixed-width form has the same value |
| `Mpint.FixedRoundTrip` | oxish-proto/src/auth.rs:491-504 | a fixed-width value survives the mpint |
| `Mpint.MpintToFixed` | oxish-proto/src/auth.rs:491-504 | right-aligning into the slice writes the fixed form or fails, and touches nothing else |
| `Mpint.EncodeSignature` | oxish-proto/src/auth.rs:446-488 | the two halves are written side by side, or the specified error is returned |
| `Mpint.SignatureFramingRoundTrip` | oxish-proto/src/key_exchange.rs:815-851 | framing a signature, decoding the frame and re-encoding it for verification gives the same bytes |
| `Negotiation.FirstCommonIsEarliest` | oxish-proto/src/key_exchange.rs:897-972 | the choice is the earliest client entry in the server's list, and there is none exactly when the lists are disjoint |
| `Negotiation.FirstCommonKexSkipsMarkers` | oxish-proto/src/key_exchange.rs:897-972 | extension markers are never chosen |
| `Negotiation.ChooseIsNegotiation` | oxish-proto/src/key_exchange.rs:897-972 | negotiation fails exactly when one of the four categories is disjoint, and otherwise each choice is the earliest |
| `Negotiation.ChosenIsSupported` | oxish-graviola/src/lib.rs:123-156 | what is chosen against the server's own lists has a hash, an exchange, key lengths and a host key |
| `Negotiation.KexInitReadIff` | oxish-proto/src/key_exchange.rs:480-575 | a KEXINIT is accepted, as what it says, exactly if it is a cookie, ten lists, a flag and a number in the order of section 7.1 of RFC 4253, with nothing behind |
| `Negotiation.OfferReads` | oxish-proto/src/key_exchange.rs:576-609 | our KEXINIT is read as exactly our offer: the named exchanges in order, the host keys, the cipher in both directions, and the strict marker in the first one only |
| `KeyExchange.TranscriptInjective` | oxish-proto/src/key_exchange.rs:725-780 | the hashed bytes determine all eight fields |
| `KeyExchange.FindHostKeySucceeds` | oxish-proto/src/host_keys.rs:74-87 | a negotiated algorithm of the server's own has a host key of that algorithm |
| `KeyExchange.EcdhInitReadIff` | oxish-proto/src/key_exchange.rs:620-640 | an ECDH_INIT is accepted exactly if it is one string |
| `KeyExchange.Announce` | oxish-proto/src/key_exchange.rs:69-105 | our KEXINIT is written and the same bytes enter the transcript |
| `KeyExchange.AnswerEcdh` | oxish-proto/src/key_exchange.rs:658-700 | the reply, whose content `ReplyAnswers` states, is computed and written, or the specified error returned |
| `KeyExchange.InitialExchange.Handle` | oxish-proto/src/key_exchange.rs:69-151 | state, writer and result are those of the specified machine, errors leaving it complete |
| `KeyExchange.RekeyMachine.Handle` | oxish-proto/src/key_exchange.rs:205-269 | state, writer and result are those of the specified machine, errors leaving it in transition |
| `KeyExchangeRuns.StartSucceedsIff` | oxish-proto/src/key_exchange.rs:360-429 | starting succeeds exactly for a well-formed offer that negotiates, with randomness |
| `KeyExchangeRuns.EcdhSucceedsIff` | oxish-proto/src/key_exchange.rs:658-700 | after a successful negotiation only a bad message, key agreement or write can fail |
| `KeyExchangeRuns.ReplyHashesTranscript` | oxish-proto/src/key_exchange.rs:725-780 | the exchange hash is over V_C, V_S, I_C, I_S, K_S, Q_C, Q_S, K in order, and the keys are derived from it as the standard says, for the session id given or else for the hash itself |
| `KeyExchangeRuns.KeyBlobIsFields` | oxish-proto/src/key_exchange.rs:789-812 | K_S is the name of the algorithm, for ECDSA the curve, and the public key |
| `KeyExchangeRuns.ReplyAnswers` | oxish-proto/src/key_exchange.rs:703-780 | a client reads the reply, with nothing left, as the K_S and Q_S of the transcript and a signature that is the host key's over the exchange hash |
| `KeyExchangeRuns.InitialReply` | oxish-proto/src/key_exchange.rs:106-124 | that is what the first exchange writes in answer to an acceptable ECDH_INIT |
| `KeyExchangeRuns.RekeyReply` | oxish-proto/src/key_exchange.rs:226-250 | and what a rekey writes |
| `KeyExchangeRuns.InitialLanguage` | oxish-proto/src/key_exchange.rs:69-151 | keys are established exactly on KEXINIT, ECDH_INIT, NEWKEYS with nothing between, with the first exchange hash as session id, each key from its own letter, the client's for opening and ours for sealing, and the strict and extension flags the client asked for; after any error every call fails |
| `KeyExchangeRuns.RekeyKeeps` | oxish-proto/src/key_exchange.rs:205-269 | session id, identities, host key and strict flag never change, and a failed machine refuses everything |
| `KeyExchangeRuns.RekeyCycle` | oxish-proto/src/key_exchange.rs:205-269 | three packets rekey exactly when acceptable, with keys derived under the first session id, and the machine is back where it was |
| `KeyExchangeRuns.RekeyLanguage` | oxish-proto/src/key_exchange.rs:205-269 | for every packet sequence, keys are handed out at a packet exactly when it ends a list of acceptable cycles with nothing between, derived from this cycle's transcript under the first session id; after any number of cycles the machine is back where it was |
| `Channels.ChannelTable.OnOpen` | oxish/src/session/connections.rs:36-68 | the whole new table and the confirmation or refusal |
| `Channels.ChannelTable.OnRequest` | oxish/src/session/connections.rs:70-170 | the whole new table and the replies, grants and banner, or the error |
| `Channels.ChannelTable.OnAdjust` | oxish/src/session/connections.rs:172-185 | the send window grows, capped at 2^32-1 |
| `Channels.ChannelTable.OnData` | oxish/src/session/connections.rs:187-222 | data within the window is accepted and the window refilled below half; data beyond it is an error |
| `Channels.ChannelTable.OnClose` | oxish/src/session/connections.rs:235-282 | at most one close is answered and a live shell is kept to be reaped |
| `Channels.ChannelTable.Settle` | oxish/src/session/connections.rs:303-448 | the inner loop ends, by a rank on the terminal states, at the specified verdict |
| `Channels.ChannelTable.OnPoll` | oxish/src/session/connections.rs:303-448 | the outer loop visits the channels in order of id and stops at the first with something to report |
| `ChannelRuns.StepKeeps` | oxish/src/session/connections.rs:36-448 | every operation keeps each channel in agreement with its books |
| `ChannelRuns.ReceiveWindowLedger` | oxish/src/session/connections.rs:118-215 | in every reachable state the window is at most the initial size and at most granted minus accepted, equal exactly when every shell granted since the opening found the window empty |
| `ChannelRuns.SendWindowLedger` | oxish/src/session/connections.rs:156-185 | over every run sent bytes plus window are at most initial window plus adjusts, equal exactly when every adjust since the opening fitted |
| `ChannelRuns.ChannelOutputOrder` | oxish/src/session/connections.rs:235-448 | at most one close, no exit status after it, and, while no terminal is asked for after the output has ended, data, end of file, exit status and close in that order |
| `ChannelRuns.DataWithinWindow` | oxish/src/session/connections.rs:198-215 | in every reachable state data is accepted exactly within the window, after which the window is at least half full |
| `ChannelRuns.TerminalDataFits` | oxish/src/session/connections.rs:396-437 | terminal data is at most the packet size, the window and 4096 bytes, and the window shrinks by exactly that |
| `ChannelRuns.PollReportsOnce` | oxish/src/session/connections.rs:303-448 | a poll writes at most one packet, which is what its channel reports on its own |
| `ChannelRuns.DataFitsPacketSize` | oxish/src/session/connections.rs:156-170 | data is within the maximum packet size exactly when it is terminal data or a banner of at most that size |
| `ChannelRuns.OrderBreaksExactlyWhen` | oxish/src/session/connections.rs:82-170 | in every reachable state the next step breaks the order of a channel exactly when its output has ended and the event brings a banner that fits or finds its running terminal the first with something to report |
| `ChannelRuns.ReportsIff` | oxish/src/session/connections.rs:303-448 | a poll tells what a channel reports exactly when it is the first by id with anything to report |
| `ChannelReplies.RequestAnswered` | oxish/src/session/connections.rs:70-154 | a request ends the session exactly for an unknown channel or a shell or window size that cannot be had; otherwise it is answered if and only if an answer is wanted, once, to the number of the channel's peer, with success exactly for a terminal, a permitted variable while fewer than 32 are kept, a shell and a window change |
| `ChannelReplies.RequestEffects` | oxish/src/session/connections.rs:70-170 | all that a request leads to, in order: the window a shell grants, the answer, the banner if it fits; and the one channel that changes and how |
| `ChannelReplies.OpenAnswered` | oxish/src/session/connections.rs:36-68 | an opening is confirmed exactly for a session on a free number, and the new channel has the numbers of the request |
| `ChannelReplies.CloseAnswered` | oxish/src/session/connections.rs:235-282 | a close is answered with a close exactly if none was sent, and a channel is kept exactly while its shell lives |
| `ChannelReplies.OthersAnswered` | oxish/src/session/connections.rs:172-243 | a message for an unknown channel ends the session, except a close; an adjustment adds to the window up to its limit, an end of file changes nothing |
| `ChannelReplies.StepSpeaksToPeers` | oxish/src/session/connections.rs:70-448 | every message of every step goes to the peer of its channel, and no channel changes its numbers |
| `ChannelReplies.ChannelsKeepTheirNumbers` | oxish/src/session/connections.rs:36-68 | in every reachable state a channel has the remote number and packet size of the request that opened it |
| `ChannelReplies.PollTells` | oxish/src/session/connections.rs:303-448 | for each state of a terminal and each answer, what is reported and what becomes of the channel |
| `ChannelReplies.PollsAreTruthful` | oxish/src/session/connections.rs:303-448 | in every reachable state, data reported is what was read, end of file was read, and an exit status is the code waited for modulo 2^32 |
| `ChannelWitnesses.OrderCanBreak` | oxish/src/session/connections.rs:152-170 | for every banner, every window that holds it and every packet size, a run that ends with the banner after close |
| `ChannelWitnesses.OrderCanBreakWithoutBanner` | oxish/src/session/connections.rs:430-437 | a run without banners that ends with data after end of file |
| `ChannelWitnesses.GrantsCanOverlap` | oxish/src/session/connections.rs:118-122 | a run in which an empty data packet fills the window and the shell grant then replaces it |
| `ChannelWitnesses.AdjustsCanBeCapped` | oxish/src/session/connections.rs:172-185 | a run in which an adjust is cut off |
| `ChannelWitnesses.BannerCanExceed` | oxish/src/session/connections.rs:156-170 | for every banner, every smaller packet size and every window that holds it, a run in which it is sent |
| `SessionRuns.RekeyStepWrites` | oxish-proto/src/key_exchange.rs:205-269 | a step of the rekey machine takes the writer exactly through the packet it is said to send |
| `SessionRuns.SessionWrites` | oxish/src/session/mod.rs:62-136 | on every run the bytes on the wire come from exactly the recorded operations of the writer |
| `SessionRuns.RekeyExclusivity` | oxish/src/session/mod.rs:62-136 | on every run the bytes on the wire are the frames of the recorded packets under the keys then installed, and among those only the one reply stands between our KEXINIT and our NEWKEYS |
| `SessionSizes.SessionSendable` | oxish/src/session/mod.rs:62-136 | with short fields, banners, public values and signatures, every packet of every run is non-empty and within the maximum packet length |
| `SessionSizes.ClientSeesExclusiveRekeys` | oxish/src/session/mod.rs:62-136 | so a client that mirrors the key changes receives, however the bytes are cut, exactly the packets written, and every rekey in them is exclusive |
| `SessionKeys.SessionAdvances` | oxish/src/session/mod.rs:62-136 | on every run the reader goes through exactly the recorded operations, every packet under a key is the opening of one call, and every key installed in either direction is fresh |
| `SessionKeys.SessionTaken` | oxish/src/session/mod.rs:62-136 | the packets a run acts on are exactly the packets its reader received |
| `SessionReplies.PayloadsRendered` | oxish-proto/src/lib.rs:396-430 | each channel message is written with its number, 91 to 100, and its fields |
| `SessionReplies.PacketHandled` | oxish/src/session/mod.rs:66-130 | by message number, what a session that is not rekeying does with a packet, what it sends and exactly when it ends; a banner goes with a terminal request exactly if the keys are not post-quantum |
| `SessionReplies.RekeyPutsKeysInUse` | oxish/src/session/mod.rs:81-91 | a finished rekey puts the keys it agreed on in use in both directions, restarts numbers exactly under strict key exchange, and sets the post-quantum flag |
| `SessionReplies.RunAnswered` | oxish/src/session/mod.rs:62-136 | on every run every turn is answered so |
| `SessionRuns.CancelSafety` | oxish/src/session/mod.rs:64-65 | a receive can be given up while it waits: the run without the interruptions exists too and has written the same, seen the same and is in the same state |
| `SessionRuns.CompactionIsInvisible` | oxish/src/server.rs:142-148 | sessions that differ only in whether the last packet has been dropped both end, or go on alike, for all turns |
| `SessionRuns.IntruderEndsSession` | oxish/src/session/mod.rs:69-95 | in a rekey in progress, a packet leaves the session running exactly when it is to be ignored, or is the acceptable next message, can be answered under the writer's keys, and what is then buffered is flushed |
| `SessionRuns.IntruderEndsEveryRun` | oxish/src/session/mod.rs:69-95 | the same in every state a run can reach |
| `SessionRuns.SessionChannelsReachable` | oxish/src/session/mod.rs:108-130 | the channel table of every session run is a reachable one, so the ledgers and the order hold of it |
| `SessionLoop.SessionDriver.OnEvent` | oxish/src/session/mod.rs:108-130 | dispatch to the channel table takes the specified channel step, writes its messages and flushes |
| `SessionLoop.RekeyConn` | oxish/src/session/mod.rs:81-91 | the rekey machine takes its step on the writer and a finished rekey is applied to both directions |
| `SessionLoop.SessionDriver.Handle` | oxish/src/session/mod.rs:65-130 | one packet takes the specified step on connection, rekey machine and channels, or ends the session |
| `SessionLoop.SessionDriver.Arrive` | oxish/src/session/mod.rs:65-130 | receiving a packet and handling it is the specified turn |
| `SessionLoop.SessionDriver.GiveUp` | oxish/src/session/mod.rs:64-65 | a receive is given up exactly while it waits, keeping what it has read |
| `SessionLoop.SessionDriver.Step` | oxish/src/session/mod.rs:62-136 | one turn receives a packet and handles it, gives up a receive, or lets the terminals report |
| `SessionLoop.SessionDriver.Drive` | oxish/src/session/mod.rs:62-136 | the loop over the environment's turns computes the specified run of the whole session, connection included |
| `Authentication.SignatureInputInjective` | oxish-proto/src/auth.rs:608-622 | the signed bytes determine session id, user, service, algorithm and key blob |
| `Authentication.FindKeyIsFirst` | oxish/src/authentication.rs:194-194 | the key found is the first match, and none is found exactly when none matches |
| `Authentication.ScanKeys` | oxish/src/authentication.rs:194-194 | the scan over the keys computes the specified search |
| `Authentication.DecideKey` | oxish/src/authentication.rs:194-257 | the decision on a public key request, stand-in key included, is the one `RequestAnswered` characterises |
| `Authentication.HandleRequest` | oxish/src/authentication.rs:140-274 | budget and cache updated on the way give the specified next state and reply |
| `Authentication.Authenticator.OnPacket` | oxish/src/authentication.rs:107-286 | next state, error and written reply are the specified ones |
| `Authentication.CompletesIff` | oxish/src/authentication.rs:140-274 | a request completes exactly when attempts are left and the store authorises it: first matching key of that user, verified signature over this session's data, that key's options |
| `Authentication.AuthStepKeeps` | oxish/src/authentication.rs:107-286 | the budget stays in 1 to 6, so it never underflows; each request has one reply; the branch for a missing cache entry is not taken |
| `Authentication.KexInitRejected` | oxish/src/authentication.rs:276-284 | a KEXINIT during authentication is an error in every state |
| `Authentication.AttemptBudget` | oxish/src/authentication.rs:107-286 | over every packet sequence at most five requests are handled, each with one reply, and only the last can succeed |
| `Authentication.AuthenticationSoundness` | oxish/src/authentication.rs:107-286 | over every packet sequence a login is due to a packet the store authorises for that user and those options |
| `Authentication.CacheTransparency` | oxish/src/authentication.rs:175-192 | over every packet sequence the cached machine and one that always looks up give the same replies and outcome |
| `AuthReplies.RequestReadIff` | oxish-proto/src/auth.rs:294-370 | a request is accepted, as what it says, exactly if it is laid out as section 5 of RFC 4252 says |
| `AuthReplies.SignedIsRequest` | oxish-proto/src/auth.rs:608-622 | what is verified is the session id and the request as received up to its signature, exactly if its flag came as 1 |
| `AuthReplies.ReplyBytes` | oxish-proto/src/auth.rs:553-652 | the bytes of the four replies |
| `AuthReplies.RequestAnswered` | oxish/src/authentication.rs:140-274 | from the store alone: a key is confirmed, with its own algorithm and blob, exactly if it is asked about without a signature and the user has it; a login succeeds exactly if it is authorised; everything else that can be read fails with one attempt less; and exactly when a request is an error |
| `AuthReplies.PacketHandled` | oxish/src/authentication.rs:107-286 | the whole machine by message number; the service is accepted exactly on a request for user authentication |
| `Handoff.SideRoundTrip` | oxish/src/lib.rs:302-375 | key source, counter and number of one direction are read back |
| `Handoff.OptionsRoundTrip` | oxish-proto/src/auth.rs:237-278 | key options are read back |
| `Handoff.PeerRoundTrip` | oxish-proto/src/key_exchange.rs:1015-1042 | address, host key and identities are read back |
| `Handoff.StateRoundTrip` | oxish/src/lib.rs:188-283 | the whole state is read back, and what follows is left |
| `Handoff.Reassemble` | oxish/src/unix/mod.rs:201-265 | the receive loop computes the specified reassembly, errors included |
| `Handoff.ReassemblesIff` | oxish/src/unix/mod.rs:201-265 | however the message is cut it is put together, with the first descriptor, exactly when the first piece holds the length |
| `Handoff.ShortFirstPiece` | oxish/src/unix/mod.rs:245-264 | a cut inside the length is possible and refused |
| `Handoff.CutUpDelivers` | oxish/src/unix/mod.rs:201-265 | a message received a buffer at a time is delivered whole, with its descriptor first |
| `Handoff.HandoffPossible` | oxish/src/unix/mod.rs:158-265 | for every state whose strings fit there are surroundings and pieces that meet what the handoff asks, and the message comes back |
| `Logins.InitialStepWrites` | oxish-proto/src/key_exchange.rs:69-151 | a step of the first exchange takes the writer exactly through our KEXINIT or our reply |
| `Logins.ExchangeEstablishes` | oxish/src/lib.rs:71-86 | on one connection, whatever comes in, keys are established only by an acceptable KEXINIT, ECDH_INIT and NEWKEYS, as derived from their transcript, what is sent is our KEXINIT and the reply that answers it, and all of it is one run of the reader and the writer that changes no keys |
| `Logins.EstablishedFromOutput` | oxish-proto/src/key_exchange.rs:125-151 | on every packet sequence, what the exchange establishes has fresh keys from the sources it keeps and a session id that is a digest |
| `Logins.SwitchTraced` | oxish/src/lib.rs:85-95 | the switch and the closing packets are one run with one key change, after which the keys in use belong to those sources and nothing is left to be written |
| `Logins.SwitchSays` | oxish/src/lib.rs:88-95 | after the new keys, extension information goes out exactly if the client can take it, then an IGNORE without data |
| `Logins.AuthLoopTraced` | oxish/src/authentication.rs:31-51 | whatever is received during authentication, no keys change and nothing is left unflushed; a KEXINIT ends the loop |
| `Logins.LoginTraced` | oxish/src/server.rs:102-123 | at the login, whatever came in: three packets established the keys, both directions changed keys exactly once, to fresh ones, which are still in use |
| `LoginRuns.AuthLoopIsRun` | oxish/src/authentication.rs:31-51 | the loop on a connection is a run of the authentication machine on the packets received, and what is sent is its replies |
| `LoginRuns.LoginSound` | oxish/src/server.rs:102-123 | whatever came in, a login is due to a packet received on this connection that the store authorises, signed for the session id of this connection's own exchange |
| `Logins.ExchangePackets` | oxish/src/lib.rs:71-79 | the exchange loop on a connection computes the specified exchange |
| `Logins.ExchangeKeys` | oxish/src/lib.rs:65-97 | the whole first exchange, up to the last flush, leaves the specified connection, or fails |
| `Logins.Authenticate` | oxish/src/authentication.rs:23-51 | the authentication loop on a connection computes the specified login, or fails |
| `Logins.Accept` | oxish/src/server.rs:102-123 | a new connection is taken to the specified login, or fails |
| `HandoffRuns.LeaveRebuilds` | oxish/src/server.rs:132-170 | the state handed over rebuilds the connection, compacted, with the same keys, numbers and pending bytes |
| `HandoffRuns.HandoffTransparent` | oxish/src/unix/mod.rs:274-326 | for every connection from its first packet to the login and every cutting of the message, the resumed session is the one that would have run in place, exactly when the first piece holds the length |
| `HandoffRuns.ResumedSessionRuns` | oxish/src/unix/mod.rs:308-326 | on the rest of the stream and for all turns the resumed session and the one that stayed both end, or have written the same bytes, seen the same events and are in the same state |
| `HandoffRuns.HandoffSucceeds` | oxish/src/unix/mod.rs:158-326 | every connection whose strings fit is resumed, with surroundings that know its host key and the message received a buffer at a time |
| `HandoffRuns.ResumedDelivers` | oxish/src/unix/mod.rs:308-326 | under any later key changes the resumed reader delivers what the uncut one would |
| `HandoffRuns.ResumesOnly` | oxish/src/unix/mod.rs:201-326 | whatever arrives, a session is resumed only from a descriptor and a message that is its length and a state with nothing behind |
| `HandoffRuns.ConnectionNoncesDistinct` | oxish/src/server.rs:158-167 | from the first packet through login, handoff and session, across all rekeys, under every key installed in either direction all calls of the cipher have different nonces |
| `HandoffRuns.ConnectionPacketsOpened` | oxish/src/server.rs:102-170 | from the first packet through login, handoff and session, every packet acted on under a key is the opening of one call under it on the next bytes of the stream |
| `HostKeys.PadScalar` | oxish-proto/src/host_keys.rs:518-538 | stripping and left-padding gives the 32-byte scalar or refuses |
| `HostKeys.KeyRoundTrip` | oxish-proto/src/host_keys.rs:393-433 | a key entry is read back exactly when its scalar is not zero |
| `HostKeys.Serialize` | oxish-proto/src/host_keys.rs:169-210 | the two growing buffers and the padding loop build the specified file |
| `HostKeys.SkipPublics` | oxish-proto/src/host_keys.rs:305-308 | the loop skips one string per key |
| `HostKeys.ReadKeys` | oxish-proto/src/host_keys.rs:333-339 | the loop reads the keys and comments in order |
| `HostKeys.CheckPadding` | oxish-proto/src/host_keys.rs:341-345 | accepts exactly 1, 2, 3, ... |
| `HostKeys.BlobRoundTrip` | oxish-proto/src/host_keys.rs:169-210 | the binary file is read back for any check bytes exactly when no scalar is zero |
| `HostKeys.KeyFileLaidOut` | oxish-proto/src/host_keys.rs:169-210 | read as strings, the file is its magic, no cipher, no derivation, no options, the count, the public keys in order as the standards write them, and the private section |
| `HostKeys.KeyFileReadOnly` | oxish-proto/src/host_keys.rs:277-349 | whatever is read, only a well-formed file gives keys: not encrypted, the keys it counts in order, Ed25519 keys with their own public key, non-zero scalars, matching check bytes, padding that counts from one, nothing behind |
| `HostKeys.PemEncode` | oxish-proto/src/host_keys.rs:213-223 | the loop over 70-column pieces builds the specified text |
| `HostKeys.LinesAreFull` | oxish-proto/src/host_keys.rs:213-223 | the text is cut into lines of 70 bytes, but for the last |
| `HostKeys.TextBorders` | oxish-proto/src/host_keys.rs:213-223 | the lines of the text, borders included |
| `HostKeys.CollectLines` | oxish-proto/src/host_keys.rs:263-276 | the loop joins the lines up to the footer, or reports that there is none |
| `HostKeys.ReadText` | oxish-proto/src/host_keys.rs:257-349 | the whole parser computes the specified result, errors included |
| `HostKeys.KeyFileRoundTrip` | oxish-proto/src/host_keys.rs:257-349 | for every non-empty list of keys and any check bytes the text is read back exactly when no scalar is zero, and refused otherwise |
| `HostKeys.ZeroScalar` | oxish-proto/src/host_keys.rs:520-524 | a file with a zero scalar is refused |

## Left out

- Channel messages and global requests: their straight-line field codecs (oxish-proto/src/channels.rs) are parameters of the session loop; messages are datatypes with their message numbers.
- A step that ends the session: what it had buffered or flushed before it failed is not told.
- SessionLoop.SessionDriver.Drive: runs over the finite list of turns the environment takes; that the original waits for ever is not modelled.
- Concurrency of `tokio::select!`: a turn is one packet, one poll of the terminals, or a receive given up while it waits, in any order.
- Handoff.DecodeFlags: a session id of more than 64 bytes is a panic in the original and an error here.
- Authentication.AuthenticationSoundness: assumes that nothing verifies under the two stand-in keys and that lookup returns the name asked for; timing is not modelled.
- SessionSizes.SessionSendable: the field codecs are parameters, so that their fields, the banner, public values and signatures have at most 4096 bytes is a condition; in the original they are far shorter.
- Timeouts, the closing DISCONNECT of a failed authentication, process spawning and the acknowledgement of a handoff: operating-system plumbing.
- Identification strings: parsing them and setting the consumed length is not modelled; the transcript starts from the two identities.
- Text of the banner and its wrapping: any bytes.
- `AuthorizedKey::from_str`, `KeyOptions::parse`, `Username` checks and the system user store: parameters of the authentication machine.
- PKCS#8 layouts: loading a key from PKCS#8 bytes is a parameter.
- MAC, compression and language lists: carried through KEXINIT unread, as in the original.
- Cipher, hash, key agreement and signature internals of both providers, and zeroing of secrets.
- KeyExchangeRuns.ReplyAnswers: for values and signatures that fit their length fields, and 64 bytes from an ECDSA key.
- Environment variables: how many are kept, not which.
- EXT_INFO contents: any payload.
