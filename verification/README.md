# Verification models of the vendored protocol code

The application ships BoringSSL and nanopb. This project models the parts of them in which the difficult
state lives, as Dafny programs, and proves what their users rely on.

* **DTLS 1.2 handshake transport.** A sender cuts handshake messages into records that fit an MTU and sends
  a flight again when it must; a receiver filters replays, reassembles fragments in seven slots with a
  bitmask and hands messages on in order; read keys and write keys change in between. `ReplayWindow`, `Aead`,
  `DtlsRecord`, `Reassembly`, `DtlsReceive` and `DtlsSend` say what each operation computes; `DtlsReceiver`
  and `DtlsSender` are the objects that do it in place; `DtlsFlight` accounts for what a transmission puts on
  the wire, `DtlsSkips` says when none of it is skipped, `DtlsPacking` how full packets are and when sending
  succeeds, and `DtlsHistory` what a flight holds; `DtlsSystem` puts two endpoints around a network
  that loses, repeats and reorders, `DtlsDelivery` says what has to arrive for a message to be there,
  `DtlsOutcome` what the receive path reports of it, and `DtlsWrap` where the end-to-end law ends;
  `DtlsEpochs` and `DtlsNonce` follow read epochs and nonces over runs; `DtlsTimer` is the retransmission
  timer.
* **nanopb.** `PbWire` has the scalar encodings and `PbMessage` what the encoder and the decoder compute for
  a descriptor and a struct. `PbFormat` is the wire format by its bytes and `PbMeaning` what fields mean for a
  struct, in the terms of the Protocol Buffers Encoding; `PbRoundTrip` proves that decoding undoes encoding,
  `PbCompose` that decoding composes, `PbEncodable` what can be encoded, and `PbVarint32` what the 32-bit decoder
  makes of any input. `PbIter`, `PbEncode` and `PbDecode` are the code itself: the wrapping field iterator, the
  stream that counts or writes, the stream that reads, and their loops.
* **TLS 1.0 to 1.2 handshakes.** `TlsHandshake` has messages, the transcript, asynchronous operations and the
  driver; `TlsClient` and `TlsServer` have the states and the invariant of every run, `TlsClientChecks` and
  `TlsServerChecks` what was checked in it, `TlsClientUpkeep` and `TlsServerUpkeep` what else is kept, and
  `TlsFalseStart` what holds when data may be sent early; `TlsClientComplete` and `TlsServerComplete` show that
  each side completes every script (`TlsScript`) that is in order for it, and `TlsInterop` that both do;
  `TlsReorder` is about a ChangeCipherSpec out of turn; `TlsRetry`,
  `TlsClientRetry`, `TlsServerRetry` and `TlsTransparency` show that retries leave no trace; `TlsFlow` is the
  message flow of section 7.3 of RFC 5246, `TlsClientFlow` and `TlsServerFlow` hold each side to it, and
  `TlsAgreement` is what the two sides agree on; `TlsCipher` says which suite the server's choice is; `TlsConnection`,
  `TlsClientMachine` and `TlsServerMachine` are the objects with their loops.
* **Sessions.** `Der` is the subset of DER in use and `DerExact` its strictness, `SessionAsn1` the
  serialization and the parser, `SessionRoundTrip` their relation, `SessionFormat` and `SessionLayout` the ASN.1
  structure that both are held to, and `SessionCodec` the builder and the cursor that run them.
* **Smaller cores.** `CipherChoice` is the choice of a cipher suite with equal-preference groups; `Refcount`
  has both reference counts as interleaved threads.

`Words` and `Wire` hold machine words, bytes and big-endian numbers. Cryptography is a parameter: an AEAD is
a pair of functions of which opening inverts sealing, and signatures, MACs, certificate checks, callbacks and
what a peer's message says are functions or answers that a theorem ranges over.

Methods that update state are tied to specification functions, and the properties are proved of those. Where
a property that one might expect is false of the code, the exact condition is proved, and an input that
fails: `PbRoundTrip.FullStringFails` (a string without room for its terminator),
`PbVarint32.TakenForZero` and `PbVarint32.CounterWraps` (numbers that are taken for others),
`SessionRoundTrip.RefusedIsLost` (a negative verify result), `DtlsTimer.HalfWordWraps`, `DtlsNonce.NonceReuse`
(2^48 uses), `DtlsSkips.SkippingCall` (an MTU of 65563 or more, and a record that is too long), and
`DtlsWrap.EpochsRepeat` and `DtlsWrap.NumbersRepeat` (65536 and 65537 messages).

Points where the code is followed rather than its comments:

* A fragment numbered `handshake_read_seq + 7` passes the window check of `dtls1_open_handshake` and is then
  an error in `dtls1_get_incoming_message`; it is not ignored.
* `pb_decode_varint32_eof` accepts some numbers of more than 32 bits and takes them for others
  (`PbVarint32.Decodes32` says which), and its 8-bit position counter wraps behind 36 bytes.
* On an empty descriptor a tag of 0 with a wire type other than varint finds the terminator, which then fails
  as a field of size 0.
* What follows the INTEGER behind the time and timeout tags of a serialized session is not looked at.
* `dtls1_double_timeout` doubles in 32 bits before it compares with a minute.

## Model

| member | source | states |
|---|---|---|
| ReplayWindow.Bitmap.ShouldDiscard | ios/Pods/BoringSSL-GRPC/ssl/dtls_record.cc:140-153 | a number is discarded exactly when it was recorded or lies 64 or more below the highest recorded one |
| ReplayWindow.Bitmap.Record | ios/Pods/BoringSSL-GRPC/ssl/dtls_record.cc:155-175 | the map and maximum go on agreeing with the set of recorded numbers, bit for bit, through every shift |
| ReplayWindow.Bitmap.Clear | ios/Pods/BoringSSL-GRPC/ssl/dtls_method.cc:81-95 | an empty window rejects nothing |
| ReplayWindow.NoReplay | ios/Pods/BoringSSL-GRPC/ssl/dtls_record.cc:225-259 | over any run of arrivals no number is accepted twice (section 4.1.2.6 of RFC 6347) |
| ReplayWindow.FreshAccepted | ios/Pods/BoringSSL-GRPC/ssl/dtls_record.cc:140-175 | a number that never arrived is accepted whenever it is not 64 or more below the maximum |
| Aead.Create | ios/Pods/BoringSSL-GRPC/ssl/ssl_aead_ctx.cc:57-149 | which nonce layout each kind of suite gets, and when creation fails |
| Aead.NonceInjective | ios/Pods/BoringSSL-GRPC/ssl/ssl_aead_ctx.cc:325-369 | for every layout that is not random, different sequence inputs give different nonces |
| Aead.OpenSealed | ios/Pods/BoringSSL-GRPC/ssl/ssl_aead_ctx.cc:225-369 | opening what was sealed gives the plaintext back, for every layout, whenever the AEAD itself is inverted by its open function |
| Aead.SuiteSeals | ios/Pods/BoringSSL-GRPC/ssl/ssl_aead_ctx.cc:57-149 | for each suite, what stands in front of the ciphertext, the nonce and the additional data, by their bytes |
| DtlsRecord.RecordWriter.Seal | ios/Pods/BoringSSL-GRPC/ssl/dtls_record.cc:294-350 | a record is the header, sequence and sealed body of the chosen epoch, and only that epoch's counter moves |
| DtlsRecord.RecordWriter.SetWriteState | ios/Pods/BoringSSL-GRPC/ssl/dtls_method.cc:97-107 | a new write epoch starts at sequence zero and keeps the previous one alive |
| DtlsRecord.SequenceUpdate | ios/Pods/BoringSSL-GRPC/ssl/tls_record.cc:154-163 | the in-place byte loop adds one modulo 2^(8k) and fails exactly on wrap-around |
| DtlsRecord.IncrementAddsOne | ios/Pods/BoringSSL-GRPC/ssl/tls_record.cc:154-163 | the carry loop is addition of one on the big-endian number |
| DtlsRecord.RecordReader.Open | ios/Pods/BoringSSL-GRPC/ssl/dtls_record.cc:177-272 | parse, epoch check, replay check, decryption and recording, with the bytes consumed in each case; the state moves only for an accepted record |
| DtlsRecord.RecordReader.NextEpoch | ios/Pods/BoringSSL-GRPC/ssl/dtls_method.cc:81-95 | a new read epoch has an empty window |
| DtlsRecord.ParseEncoded | ios/Pods/BoringSSL-GRPC/ssl/dtls_record.cc:190-215 | parsing an encoded record returns its parts and what follows it |
| DtlsRecord.RecordBytes | ios/Pods/BoringSSL-GRPC/ssl/dtls_record.cc:294-350 | the header of a sealed record by its bytes: type, version, epoch, number and length, as section 4.1 of RFC 6347 has them |
| DtlsRecord.OpenSealedRecord | ios/Pods/BoringSSL-GRPC/ssl/dtls_record.cc:177-350 | what a reader makes of a sealed record, in all cases: what was sealed, an alert, too long, a replay or another epoch, or nothing it can read, with the bytes used and the window after it |
| Reassembly.RangeBit | ios/Pods/BoringSSL-GRPC/ssl/d1_both.cc:203-206 | bit_range sets exactly the bits from start up to end |
| Reassembly.SetRange | ios/Pods/BoringSSL-GRPC/ssl/d1_both.cc:211-237 | the mask update sets exactly the bits of the range, in whole bytes and at both ends, and no index leaves the mask |
| Reassembly.IsFull | ios/Pods/BoringSSL-GRPC/ssl/d1_both.cc:239-251 | the scan reports full exactly when every byte of the message was covered |
| Reassembly.HmFragment.constructor | ios/Pods/BoringSSL-GRPC/ssl/d1_both.cc:152-200 | a new fragment has room for header and body, its mask clear, and no mask at all when the body is empty |
| Reassembly.HmFragment.Mark | ios/Pods/BoringSSL-GRPC/ssl/d1_both.cc:211-251 | the mask tells which bytes are covered, has no bit past the message, and is dropped exactly when the ranges cover everything |
| Reassembly.HmFragment.Store | ios/Pods/BoringSSL-GRPC/ssl/d1_both.cc:393-402 | copying and marking one fragment is merging it into the partial message |
| Reassembly.MessageRing.Store | ios/Pods/BoringSSL-GRPC/ssl/d1_both.cc:387-402 | storing into one slot leaves the other slots and their buffers alone |
| DtlsReceive.FragmentBytes | ios/Pods/BoringSSL-GRPC/ssl/d1_both.cc:459-473 | the header of a fragment by its bytes, as section 4.2.2 of RFC 6347 has them |
| DtlsReceive.ParseEncodedFragment | ios/Pods/BoringSSL-GRPC/ssl/d1_both.cc:459-473 | parsing an encoded fragment header and body returns them and what follows |
| DtlsReceive.StepFragmentValid | ios/Pods/BoringSSL-GRPC/ssl/d1_both.cc:255-295 | ring invariant: a slot holds a message numbered in [read_seq, read_seq + 7) that belongs there, also across the wrap of the 16-bit number |
| DtlsReceive.SameSlotSameNumber | ios/Pods/BoringSSL-GRPC/ssl/d1_both.cc:265-295 | two numbers of the window in one slot are the same number, so the assertion on a matching number never fails |
| DtlsReceive.OpenFragmentsValid | ios/Pods/BoringSSL-GRPC/ssl/d1_both.cc:297-406 | every record of fragments, malformed ones included, keeps the ring invariant |
| DtlsReceive.HandshakeInputValid | ios/Pods/BoringSSL-GRPC/ssl/d1_both.cc:297-406 | every datagram, accepted or not, keeps it |
| DtlsReceive.DropMessageValid | ios/Pods/BoringSSL-GRPC/ssl/d1_both.cc:426-438 | taking the current message moves the window by one and keeps it |
| DtlsReceive.NewReadStateValid | ios/Pods/BoringSSL-GRPC/ssl/dtls_method.cc:81-95 | a change of read keys keeps it |
| DtlsReceiver.Receiver.GetIncomingMessage | ios/Pods/BoringSSL-GRPC/ssl/d1_both.cc:265-295 | the slot lookup: a mismatch with what is there is an error, number read_seq + 7 too |
| DtlsReceiver.Receiver.HandleFragment | ios/Pods/BoringSSL-GRPC/ssl/d1_both.cc:375-402 | one fragment: dropped, refused or merged as specified, in the arrays of the ring |
| DtlsReceiver.Receiver.OpenHandshake | ios/Pods/BoringSSL-GRPC/ssl/d1_both.cc:297-406 | one datagram through the record layer and the fragment loop |
| DtlsReceiver.Receiver.OpenChangeCipherSpec | ios/Pods/BoringSSL-GRPC/ssl/d1_both.cc:475-493 | waiting for a ChangeCipherSpec handles other records as the handshake would |
| DtlsReceiver.Receiver.GetMessage | ios/Pods/BoringSSL-GRPC/ssl/d1_both.cc:408-424 | the current message, when it is complete |
| DtlsReceiver.Receiver.NextMessage | ios/Pods/BoringSSL-GRPC/ssl/d1_both.cc:426-438 | the slot is emptied and the read number moves on |
| DtlsReceiver.Receiver.SetReadState | ios/Pods/BoringSSL-GRPC/ssl/dtls_method.cc:81-95 | refused while a message is partial or unread or a ChangeCipherSpec is unprocessed |
| DtlsSend.FinishedIsMessage | ios/Pods/BoringSSL-GRPC/ssl/d1_both.cc:511-541 | a finished message is one unfragmented message with its number and length |
| DtlsSend.MessageProgress | ios/Pods/BoringSSL-GRPC/ssl/d1_both.cc:644-734 | sealing from a message never goes back, and cuts one contiguous range from where it was |
| DtlsSend.PacketProgress | ios/Pods/BoringSSL-GRPC/ssl/d1_both.cc:739-780 | a packet that is sealed strictly increases (outgoing_written, outgoing_offset) and fits the MTU |
| DtlsSend.RecordsFit | ios/Pods/BoringSSL-GRPC/ssl/d1_both.cc:644-734 | all records of a packet together stay within the room they were given |
| DtlsSender.Sender.AddOutgoingMessage | ios/Pods/BoringSSL-GRPC/ssl/d1_both.cc:555-594 | queueing: transcript, number, epoch, and the reset of a flight that had its reply; at most seven messages |
| DtlsSender.Sender.Decide | ios/Pods/BoringSSL-GRPC/ssl/d1_both.cc:646-693 | what the next record is to carry: ChangeCipherSpec, a fragment that fits, nothing for want of room, or failure |
| DtlsSender.Sender.SealMessage | ios/Pods/BoringSSL-GRPC/ssl/d1_both.cc:644-734 | and sealing it: the position moves past what was cut |
| DtlsSender.Sender.SealPacket | ios/Pods/BoringSSL-GRPC/ssl/d1_both.cc:739-780 | as many records as fit |
| DtlsSender.Sender.SendPackets | ios/Pods/BoringSSL-GRPC/ssl/d1_both.cc:795-815 | the send loop terminates, with any pattern of failing and retried writes |
| DtlsSender.Sender.Send | ios/Pods/BoringSSL-GRPC/ssl/d1_both.cc:782-827 | the MTU is brought up to date first, and the packets are flushed last |
| DtlsSend.UpdateMtu | ios/Pods/BoringSSL-GRPC/ssl/d1_both.cc:615-635 | unless asking is switched off the MTU is at least the minimum, and one that is large enough stays |
| DtlsPacking.MtuSettles | ios/Pods/BoringSSL-GRPC/ssl/d1_both.cc:615-635 | the MTU is the one before, or what was reported if that will do, or 1472; asking again changes nothing |
| DtlsPacking.OverheadTight | ios/Pods/BoringSSL-GRPC/ssl/dtls_record.cc:274-292 | a record is longer than its plaintext by exactly the overhead that is reckoned with, but for the padding of CBC, where it is less |
| DtlsPacking.PacketFull | ios/Pods/BoringSSL-GRPC/ssl/d1_both.cc:736-780 | a packet that ends before the flight does has no room for one byte more of it: fragments and packets are as long as they can be |
| DtlsPacking.PacketComes | ios/Pods/BoringSSL-GRPC/ssl/d1_both.cc:739-780 | a packet comes about exactly if the MTU has room for any of the next message |
| DtlsPacking.FlightReturns | ios/Pods/BoringSSL-GRPC/ssl/d1_both.cc:782-827 | what a call returns: 1 if all is sent and the flush went well, -1 if it did not or the MTU has no room for the next message, else the result of the first write that failed |
| DtlsPacking.FlightSucceeds | ios/Pods/BoringSSL-GRPC/ssl/d1_both.cc:782-834 | if every write succeeds, sending succeeds exactly if the MTU has room for some of every message that is left |
| DtlsHistory.FlightQueued | ios/Pods/BoringSSL-GRPC/ssl/d1_both.cc:555-604 | a flight holds what was added to it since it began, in order, with the epochs it was added in; the transcript and the message number grow by its handshake messages |
| DtlsHistory.FlightLimit | ios/Pods/BoringSSL-GRPC/ssl/d1_both.cc:564-570 | an eighth message is refused, and changes nothing |
| DtlsHistory.FlightHistory | ios/Pods/BoringSSL-GRPC/ssl/d1_both.cc:555-845 | through any transmissions, retransmissions, replies and changes of keys the flight stays as it was queued; the next one begins, and it is dropped at the end of the handshake, exactly as the history says |
| DtlsSender.Sender.AddMessage | ios/Pods/BoringSSL-GRPC/ssl/d1_both.cc:511-594 | init, body, finish and queue in one: the message carries the current number and its length |
| DtlsSender.Sender.FlushFlight | ios/Pods/BoringSSL-GRPC/ssl/d1_both.cc:829-834 | a flight is complete from its first transmission on |
| DtlsSender.Sender.ChangeWriteState | ios/Pods/BoringSSL-GRPC/ssl/dtls_method.cc:97-107 | new write keys leave the queued messages and the position alone |
| DtlsSender.Sender.ReplyReceived | ios/Pods/BoringSSL-GRPC/ssl/d1_both.cc:433-437 | a complete flight is marked as having had a reply |
| DtlsSender.Sender.Retransmit | ios/Pods/BoringSSL-GRPC/ssl/d1_both.cc:836-845 | a retransmission starts from the beginning of the flight |
| DtlsSender.Sender.OnHandshakeComplete | ios/Pods/BoringSSL-GRPC/ssl/dtls_method.cc:71-79 | a flight that had its reply is dropped when the handshake is complete |
| DtlsFlight.RecordsMatch | ios/Pods/BoringSSL-GRPC/ssl/d1_both.cc:644-780 | the bytes on the wire are those of the records in the account of the flight |
| DtlsFlight.RecordsChain | ios/Pods/BoringSSL-GRPC/ssl/d1_both.cc:644-780 | the records of a packet cut the flight into pieces that follow each other |
| DtlsFlight.FlightChain | ios/Pods/BoringSSL-GRPC/ssl/d1_both.cc:782-827 | so do all packets accepted in one call of send_flight, whichever write fails; the call stops right behind them, unless sealing fails after records of the same packet: then the position is past bytes that were never written |
| DtlsFlight.ResumedChain | ios/Pods/BoringSSL-GRPC/ssl/d1_both.cc:782-845 | and so does all that is accepted in any number of calls, with any MTUs and any writes that fail and are tried again: one chain from where the first call started to where the last one stopped, exactly if no call skipped in that way |
| DtlsFlight.ResumedComplete | ios/Pods/BoringSSL-GRPC/ssl/d1_both.cc:782-845 | so of a transmission resumed after any failures each byte was sent exactly once if the position is past it, and not at all otherwise: all of them when the end is reached |
| DtlsSkips.NoneSkips | ios/Pods/BoringSSL-GRPC/ssl/d1_both.cc:644-845 | what can be checked before: while every message still to be sent is of the current or the previous epoch, the sequence numbers last for the calls, and the MTUs are less than 65563, no call skips, whatever writes fail |
| DtlsSkips.SafeMtu | ios/Pods/BoringSSL-GRPC/ssl/d1_both.cc:736-780 | that limit is exact: an MTU is safe for all senders otherwise in order exactly if it is less than 65563 |
| DtlsSkips.SkippingCall | ios/Pods/BoringSSL-GRPC/ssl/dtls_record.cc:329-341 | from there on a new sender that queued a ChangeCipherSpec and a message of 70000 bytes skips: the ciphertext of the second record is 2^16 bytes or more and refused, nothing was written, and the position is past the first message |
| DtlsFlight.ChainVisits | ios/Pods/BoringSSL-GRPC/ssl/d1_both.cc:644-734 | and visits every message, empty ones and ChangeCipherSpec included |
| DtlsSystem.EmitPacketsGenuine | ios/Pods/BoringSSL-GRPC/ssl/d1_both.cc:644-780 | every record a sender emits carries a range of a message it hashed, whatever the MTU |
| DtlsSystem.GenuineRecord | ios/Pods/BoringSSL-GRPC/ssl/d1_both.cc:297-406 | taking in such a record keeps every slot in agreement with the sender's messages |
| DtlsSystem.CompleteIsMessage | ios/Pods/BoringSSL-GRPC/ssl/d1_both.cc:163-180 | a slot that is complete holds the header and body the sender hashed |
| DtlsSystem.StepKeeps | ios/Pods/BoringSSL-GRPC/ssl/d1_both.cc:297-845 | every step of two endpoints and a network that loses, repeats and reorders keeps the invariant |
| DtlsSystem.EndToEnd | ios/Pods/BoringSSL-GRPC/ssl/d1_both.cc:408-438 | what the receiver has delivered in any run is, message by message, the beginning of what the sender added to its transcript: each once and in order (section 4.2.6 of RFC 6347) |
| DtlsWrap.NumbersRepeat | ios/Pods/BoringSSL-GRPC/ssl/d1_both.cc:369-391 | why it ends there: a run of 65537 messages, all lost but the last, which is handed out in place of the first because its 16-bit number is the same |
| DtlsWrap.EpochsRepeat | ios/Pods/BoringSSL-GRPC/ssl/dtls_record.cc:177-272 | and a run of exactly 65536 messages, with as many changes of read keys: an old record of the first message is in the receiver's epoch again and is handed out as one message more than was sent |
| DtlsDelivery.CoverageDelivers | ios/Pods/BoringSSL-GRPC/ssl/d1_both.cc:297-406 | once every byte of a message of the window is there or came through, in pieces of any transmissions cut to any MTUs, in any order and any number of times, the message is complete and is the sender's |
| DtlsDelivery.OpenFilters | ios/Pods/BoringSSL-GRPC/ssl/dtls_record.cc:177-272 | what the record layer makes of a sender's record, to the byte: it lets it through exactly if it is of the read epoch, not seen, not too old and not too long |
| DtlsDelivery.DeliverFeeds | ios/Pods/BoringSSL-GRPC/ssl/d1_both.cc:297-406 | reading datagrams to their end, record by record, is handling the records that pass that filter, in order |
| DtlsDelivery.FilterPasses | ios/Pods/BoringSSL-GRPC/ssl/dtls_record.cc:140-175 | a record passes if its number is new, nothing else arrives under it, and nothing of its epoch is 64 or more ahead |
| DtlsDelivery.ArrivalsDeliver | ios/Pods/BoringSSL-GRPC/ssl/d1_both.cc:297-406 | the same of datagrams: of any transmissions and epochs, in any order; when each byte of a message is there already or carried by some record of the receiver's epoch, in reach of the window, the message is there |
| DtlsDelivery.FlightDelivers | ios/Pods/BoringSSL-GRPC/ssl/d1_both.cc:297-406 | in particular when the records of one transmission that carry a message of the receiver's epoch are among them, resumed by as many calls as it takes; Finished in epoch 1 included |
| DtlsDelivery.Recovers | ios/Pods/BoringSSL-GRPC/ssl/d1_both.cc:836-845 | so from every state that the system can get into, one retransmission that arrives is enough, resumed after any failed writes, whatever datagrams of the past arrive with it |
| DtlsOutcome.OldIsDiscarded | ios/Pods/BoringSSL-GRPC/ssl/dtls_record.cc:225-240 | a record of another epoch, a replay or one too old is discarded, and changes nothing |
| DtlsOutcome.OtherOutcome | ios/Pods/BoringSSL-GRPC/ssl/d1_both.cc:297-357 | what is reported of an application data, alert, ChangeCipherSpec or unknown record, protected or not, and that only the replay window and the ChangeCipherSpec flag move |
| DtlsOutcome.StepObjects | ios/Pods/BoringSSL-GRPC/ssl/d1_both.cc:255-295 | what is objected to in a fragment, and with which alert; nothing else is |
| DtlsOutcome.FragmentOutcome | ios/Pods/BoringSSL-GRPC/ssl/d1_both.cc:359-406 | a handshake record is taken fragment by fragment up to the first objection |
| DtlsOutcome.LastOutcome | ios/Pods/BoringSSL-GRPC/ssl/d1_both.cc:359-406 | a record whose fragments are all taken is a success; what is left and is no fragment is a decode error |
| DtlsOutcome.AfterHolds | ios/Pods/BoringSSL-GRPC/ssl/d1_both.cc:375-402 | what one fragment changes, byte by byte: nothing outside the window or in a message that is complete |
| DtlsOutcome.HonestOutcome | ios/Pods/BoringSSL-GRPC/ssl/d1_both.cc:297-406 | of a sender's record the receiver reports success if it lets it through and discards it otherwise; it is fatal exactly if the message is too long, or comes too early by number, or a ChangeCipherSpec comes under protection |
| DtlsOutcome.NeverFatal | ios/Pods/BoringSSL-GRPC/ssl/d1_both.cc:297-406 | so in every run of the two endpoints reading is never fatal while what arrives is none of these |
| DtlsOutcome.GarbageDropped | ios/Pods/BoringSSL-GRPC/ssl/dtls_record.cc:177-223 | a datagram that is no whole record is dropped |
| DtlsOutcome.ForgedDropped | ios/Pods/BoringSSL-GRPC/ssl/dtls_record.cc:241-259 | a record that does not open is dropped, and changes nothing |
| DtlsOutcome.VersionDropped | ios/Pods/BoringSSL-GRPC/ssl/dtls_record.cc:203-219 | anything in a record of another version is dropped with what is behind it |
| DtlsOutcome.UnreadableDropped | ios/Pods/BoringSSL-GRPC/ssl/dtls_record.cc:190-223 | a record of another version, or one too long, is dropped with what is behind it |
| DtlsOutcome.AwaitOutcome | ios/Pods/BoringSSL-GRPC/ssl/d1_both.cc:475-493 | while a ChangeCipherSpec is awaited: a kept one is used up without reading, else what is read decides |
| DtlsOutcome.HandsOut | ios/Pods/BoringSSL-GRPC/ssl/d1_both.cc:408-424 | a message is handed out exactly when all of it is there |
| DtlsOutcome.MovesOn | ios/Pods/BoringSSL-GRPC/ssl/d1_both.cc:426-438 | moving on empties the slot of the message and makes the next one current, across the wrap |
| DtlsOutcome.RefusesKeys | ios/Pods/BoringSSL-GRPC/ssl/dtls_method.cc:81-95 | new read keys are refused exactly while anything but the message in hand is left over |
| DtlsEpochs.TraceFollows | ios/Pods/BoringSSL-GRPC/ssl/d1_both.cc:297-406 | the receiver with an account of epochs does what the receiver does |
| DtlsEpochs.ReachableInv | ios/Pods/BoringSSL-GRPC/ssl/dtls_method.cc:81-95 | the invariant behind epoch separation holds in every reachable state |
| DtlsEpochs.EpochSeparation | ios/Pods/BoringSSL-GRPC/ssl/dtls_method.cc:81-95 | in every reachable state all fragments merged into one message arrived in the same read epoch |
| DtlsNonce.NonceReuse | ios/Pods/BoringSSL-GRPC/ssl/dtls_record.cc:294-350 | over any interleaving of seals in both epochs and key changes, two uses of a context share a nonce exactly when a multiple of 2^48 uses lies between them |
| DtlsNonce.NonceUnique | ios/Pods/BoringSSL-GRPC/ssl/ssl_aead_ctx.cc:325-369 | so up to 2^48 uses of one context never repeat a nonce |
| DtlsNonce.LastUseFails | ios/Pods/BoringSSL-GRPC/ssl/dtls_record.cc:329-337 | and the 2^48th use is the one reported as a failure |
| DtlsTimer.BackoffExponential | ios/Pods/BoringSSL-GRPC/ssl/d1_lib.cc:155-160 | the duration doubles up to a minute for exactly the initial durations whose double does not wrap around in 32 bits |
| DtlsTimer.HalfWordWraps | ios/Pods/BoringSSL-GRPC/ssl/d1_lib.cc:155-160 | an initial duration of 2^31 ms becomes zero |
| DtlsTimer.RetransmitsBounded | ios/Pods/BoringSSL-GRPC/ssl/d1_lib.cc:168-187 | over any calls without progress: at most twelve retransmissions, one backoff for each, and no faster than the durations less 15 ms |
| DtlsTimer.DueRetransmits | ios/Pods/BoringSSL-GRPC/ssl/d1_lib.cc:138-267 | of calls that all come when the timer is due the first twelve retransmit and the others give up, and the MTU falls back from the third on, to the last answer that will do |
| DtlsTimer.NotDue | ios/Pods/BoringSSL-GRPC/ssl/d1_lib.cc:138-153 | a call that comes earlier, or while no timer runs, does nothing |
| DtlsTimer.RetransmitTimer.Start | ios/Pods/BoringSSL-GRPC/ssl/d1_lib.cc:120-136 | the deadline is now plus the duration, with microseconds carried |
| DtlsTimer.RetransmitTimer.Stop | ios/Pods/BoringSSL-GRPC/ssl/d1_lib.cc:162-166 | stopping forgets timeouts and duration |
| DtlsTimer.RetransmitTimer.IsExpired | ios/Pods/BoringSSL-GRPC/ssl/d1_lib.cc:138-240 | expired exactly when the timer runs and less than 15 ms are left |
| DtlsTimer.RetransmitTimer.CheckTimeouts | ios/Pods/BoringSSL-GRPC/ssl/d1_lib.cc:168-187 | the fallback MTU from the third timeout on, failure after the twelfth |
| DtlsTimer.RetransmitTimer.HandleTimeout | ios/Pods/BoringSSL-GRPC/ssl/d1_lib.cc:247-267 | one call of DTLSv1_handle_timeout up to the retransmission |
| PbWire.DecVarint64Inverse | ios/Pods/nanopb/pb_decode.c:250-270 | the 64-bit decoder inverts the varint encoder on every 64-bit number (Protocol Buffers Encoding, Base 128 Varints) |
| PbWire.DecVarint32Inverse | ios/Pods/nanopb/pb_decode.c:182-242 | the 32-bit decoder inverts it on every 32-bit number |
| PbWire.ZigZagInverse | ios/Pods/nanopb/pb_encode.c:596-605 | zig-zag decoding inverts zig-zag encoding |
| PbWire.DecFixedInverse | ios/Pods/nanopb/pb_decode.c:1254-1286 | little-endian fixed-width numbers come back |
| PbFormat.VarintIsShortest | ios/Pods/nanopb/pb_encode.c:574-594 | what is written for a number is its shortest base-128 form |
| PbFormat.ShortestIsVarint | ios/Pods/nanopb/pb_encode.c:574-594 | and that is the only one |
| PbFormat.DecodesGroups | ios/Pods/nanopb/pb_decode.c:250-270 | the 64-bit decoder on any base-128 form: up to ten bytes, modulo 2^64 |
| PbVarint32.Decodes32 | ios/Pods/nanopb/pb_decode.c:182-242 | the 32-bit decoder on any base-128 form of up to 36 bytes: what it accepts, bit for bit, and the value it takes |
| PbVarint32.Exact32 | ios/Pods/nanopb/pb_decode.c:182-242 | it gets the number itself exactly if that has 32 bits |
| PbVarint32.TakenForZero | ios/Pods/nanopb/pb_decode.c:213-236 | a number of 35 bits, in six bytes, is taken for 0 |
| PbVarint32.CounterWraps | ios/Pods/nanopb/pb_decode.c:203-230 | behind 37 idle bytes a 1 counts as 8, because the counter of bit positions has eight bits |
| PbVarint32.ZeroEnds | ios/Pods/nanopb/pb_decode.c:293-314 | a zero where a key is due ends the message, and what is behind it is left |
| PbFormat.FixedDigit | ios/Pods/nanopb/pb_encode.c:607-632 | a fixed-width number is written with byte k counting 256^k |
| PbFormat.ZigZagOrder | ios/Pods/nanopb/pb_encode.c:596-605 | the zig-zag numbers 0, 1, 2, 3 stand for 0, -1, 1, -2, and so on |
| PbFormat.SkipsPayload | ios/Pods/nanopb/pb_decode.c:316-329 | an unknown field takes its payload, by its wire type: a varint, eight bytes, a length and so many bytes, four bytes |
| PbFormat.OtherCodesFail | ios/Pods/nanopb/pb_decode.c:316-329 | wire types 3, 4, 6 and 7 of an unknown field are refused |
| PbFormat.CutPayloadFails | ios/Pods/nanopb/pb_decode.c:273-329 | so is a payload that is cut short |
| PbFormat.WritesPayload | ios/Pods/nanopb/pb_encode.c:641-672 | what is written for a value is a key of eight times the tag plus the wire type of its kind, 0, 1, 2 or 5, and a payload of that kind |
| PbMessage.FindTag | ios/Pods/nanopb/pb_common.c:78-95 | with distinct tags the entry found for a tag is the one that has it |
| PbRoundTrip.ValueTrip | ios/Pods/nanopb/pb_decode.c:1289-1508 | a value of any field type comes back, exactly if its strings have room for the terminator |
| PbRoundTrip.CellTrip | ios/Pods/nanopb/pb_decode.c:401-475 | a required, optional, repeated, packed or oneof entry comes back with the struct around it unchanged |
| PbRoundTrip.StructTrip | ios/Pods/nanopb/pb_decode.c:919-997 | so do all entries from any one on |
| PbRoundTrip.RoundTrip | ios/Pods/nanopb/pb_decode.c:901-1063 | pb_decode of the output of pb_encode consumes it all and returns the struct with every present field, at every depth, exactly if every encoded string is shorter than its buffer |
| PbRoundTrip.RestoresPresent | ios/Pods/nanopb/pb_decode.c:884-1063 | what the returned struct holds at each entry |
| PbRoundTrip.FullStringFails | ios/Pods/nanopb/pb_decode.c:1454-1455 | a string that fills its buffer encodes but does not decode |
| PbCompose.LoopComposes | ios/Pods/nanopb/pb_decode.c:919-997 | the loop over a concatenation continues from where the first part got to |
| PbCompose.Composes | ios/Pods/nanopb/pb_decode.c:901-1049 | decoding a concatenation gives the struct that decoding the parts one into the other gives |
| PbCompose.UnknownIgnored | ios/Pods/nanopb/pb_decode.c:933-965 | a field with a tag that the descriptor does not have, given by its bytes (a key, and a varint of up to 64 bits, eight bytes, four bytes, or a length and so many bytes), changes nothing wherever it stands between two parts |
| PbCompose.CutUnknownFails | ios/Pods/nanopb/pb_decode.c:933-965 | a message that ends inside an unknown field is refused |
| PbCompose.SeenOnlyGrows | ios/Pods/nanopb/pb_decode.c:988-993 | which required fields were seen does not influence the struct |
| PbCompose.ValueMore | ios/Pods/nanopb/pb_decode.c:367-395 | a value uses exactly its bytes, also a submessage that ends early |
| PbMeaning.ValueDecodes | ios/Pods/nanopb/pb_decode.c:1289-1508 | each field decoder gives the value that the payload stands for in a field of its type and size, or fails if there is none |
| PbMeaning.CellDecodes | ios/Pods/nanopb/pb_decode.c:401-480 | an entry becomes what the field means for it: the last value, one more item, a packed array, a merged submessage, or the one field of a oneof |
| PbMeaning.PackedDecodes | ios/Pods/nanopb/pb_decode.c:416-440 | a packed array is its numbers, as many as there is room for |
| PbMeaning.DecodesFields | ios/Pods/nanopb/pb_decode.c:901-1049 | decoding any fields, in any order and number, known or not, gives their meaning and uses all of them, exactly if each fits and every required entry is given |
| PbMeaning.DecodesMessage | ios/Pods/nanopb/pb_decode.c:1051-1063 | pb_decode gives that meaning over fresh defaults |
| PbMeaning.DefaultsFresh | ios/Pods/nanopb/pb_decode.c:812-899 | the defaults: those of the descriptor, zeros and empty strings, nothing present |
| PbMeaning.WritesFields | ios/Pods/nanopb/pb_encode.c:494-516 | everything that is written is a sequence of fields of the wire format, each with the tag and of the kind of an entry |
| PbMeaning.StrangersIgnore | ios/Pods/nanopb/pb_encode.c:494-516 | so a reader that knows none of the tags takes the message for an empty one |
| PbEncodable.StructEncodable | ios/Pods/nanopb/pb_encode.c:494-516 | encoding succeeds exactly if every entry holds values that its field can carry, by type and size, and no array has more items than room |
| PbMeaning.ScalarLeftOut | ios/Pods/nanopb/pb_encode.c:215-304 | a proto3 entry is left out exactly if it is zero or empty |
| PbMeaning.MessageLeftOut | ios/Pods/nanopb/pb_encode.c:215-304 | a submessage exactly if nothing would be written for any of its entries |
| PbMeaning.SingularComesBack | ios/Pods/nanopb/pb_encode.c:307-394 | each proto3 entry comes back, written or left out |
| PbIter.FieldIter.constructor | ios/Pods/nanopb/pb_common.c:8-18 | a fresh iterator stands at the first field |
| PbIter.FieldIter.Begin | ios/Pods/nanopb/pb_common.c:8-18 | so does one that begins again |
| PbIter.FieldIter.Next | ios/Pods/nanopb/pb_common.c:20-76 | after any step, offset, which_ position and required index equal a fold from the first field, unions and the wrap-around included |
| PbIter.FieldIter.Find | ios/Pods/nanopb/pb_common.c:78-95 | from any position: terminates, finds a tag exactly when it exists, and comes back if it does not |
| PbEncode.OStream.Write | ios/Pods/nanopb/pb_encode.c:101-119 | a counting stream always succeeds, a writing one exactly when there is room, and nothing else in the buffer changes |
| PbEncode.BufWrite | ios/Pods/nanopb/pb_encode.c:72-82 | the copy loop |
| PbEncode.FillVarint | ios/Pods/nanopb/pb_encode.c:574-594 | the varint loop fills at most ten bytes, with the encoding |
| PbEncode.OStream.EncodeVarint | ios/Pods/nanopb/pb_encode.c:574-594 | writes the varint |
| PbEncode.OStream.EncodeSvarint | ios/Pods/nanopb/pb_encode.c:596-605 | shift and complement are zig-zag |
| PbEncode.OStream.EncodeFixed32 | ios/Pods/nanopb/pb_encode.c:607-616 | four bytes, least significant first |
| PbEncode.OStream.EncodeFixed64 | ios/Pods/nanopb/pb_encode.c:618-632 | eight bytes, least significant first |
| PbEncode.OStream.EncodeTagForField | ios/Pods/nanopb/pb_encode.c:641-672 | the tag with the wire type of the field |
| PbEncode.OStream.EncodeString | ios/Pods/nanopb/pb_encode.c:674-680 | length and bytes |
| PbEncode.OStream.EncodeValue | ios/Pods/nanopb/pb_encode.c:734-869 | each field encoder puts out what is specified for its type, and fails where it does |
| PbEncode.StringLength | ios/Pods/nanopb/pb_encode.c:847-851 | the strnlen loop |
| PbEncode.OStream.EncodeSubmessage | ios/Pods/nanopb/pb_encode.c:682-730 | the two passes: the length prefix is exact and "submsg size changed" is never reported |
| PbEncode.OStream.EncodeItems | ios/Pods/nanopb/pb_encode.c:151-208 | the item loops of an array, on a counting or writing stream |
| PbEncode.OStream.EncodePacked | ios/Pods/nanopb/pb_encode.c:138-180 | a packed array: the size computed first is the size written |
| PbEncode.OStream.EncodeArray | ios/Pods/nanopb/pb_encode.c:126-211 | arrays, packed where the type allows, refused when too long |
| PbEncode.CheckDefault | ios/Pods/nanopb/pb_encode.c:215-303 | the proto3 zero test, through submessages |
| PbEncode.OStream.EncodeBasicField | ios/Pods/nanopb/pb_encode.c:307-392 | which entries are encoded at all, by kind of field |
| PbEncode.OStream.Encode | ios/Pods/nanopb/pb_encode.c:494-516 | pb_encode puts out exactly the specified bytes, counted or written, at every depth |
| PbEncode.GetEncodedSize | ios/Pods/nanopb/pb_encode.c:533-542 | the size is the number of bytes pb_encode writes |
| PbEncode.PassesAgree | ios/Pods/nanopb/pb_encode.c:682-730 | a counting and a writing pass with room succeed or fail alike and agree on the count |
| PbDecode.IStream.DecodeVarint64 | ios/Pods/nanopb/pb_decode.c:250-270 | the loop, shift by shift, is the specified decoder |
| PbDecode.IStream.DecodeVarint32 | ios/Pods/nanopb/pb_decode.c:182-242 | with its overflow rules and its 8-bit position counter |
| PbDecode.IStream.DecodeTag | ios/Pods/nanopb/pb_decode.c:293-314 | a tag, the end by a zero, or failure |
| PbDecode.IStream.Skip | ios/Pods/nanopb/pb_decode.c:316-326 | skipping uses exactly the bytes of the field |
| PbDecode.IStream.MakeSubstream | ios/Pods/nanopb/pb_decode.c:367-380 | the substream has the payload and the parent what follows it |
| PbDecode.IStream.CloseSubstream | ios/Pods/nanopb/pb_decode.c:382-395 | whatever was not used is skipped |
| PbDecode.IStream.DecodeFixed32 | ios/Pods/nanopb/pb_decode.c:1254-1266 | shifts and ors are the little-endian number |
| PbDecode.IStream.DecodeFixed64 | ios/Pods/nanopb/pb_decode.c:1268-1286 | for eight bytes too |
| PbDecode.IStream.DecodeNum | ios/Pods/nanopb/pb_decode.c:1289-1389 | numbers, clamped to their field and refused when that changes them |
| PbDecode.IStream.DecodeBlob | ios/Pods/nanopb/pb_decode.c:1391-1508 | bytes, strings and fixed-length bytes, with their size checks |
| PbDecode.IStream.DecodeSubmessage | ios/Pods/nanopb/pb_decode.c:1463-1485 | a submessage is decoded from its substream into what is there |
| PbDecode.IStream.DecodeItems | ios/Pods/nanopb/pb_decode.c:431-443 | the loop over a packed array, with its overflow check |
| PbDecode.IStream.DecodeStaticField | ios/Pods/nanopb/pb_decode.c:401-475 | one known field into the struct, by kind of field |
| PbDecode.IStream.DecodeField | ios/Pods/nanopb/pb_decode.c:707-732 | a oneof that held another field: the iterator finds the old tag and comes back to the new one |
| PbDecode.MarkRequired | ios/Pods/nanopb/pb_decode.c:988-993 | the bitmask gains the bit of this field and no other |
| PbDecode.FullMask | ios/Pods/nanopb/pb_decode.c:1026-1045 | comparing words finds out whether all bits that count are set |
| PbDecode.CheckRequired | ios/Pods/nanopb/pb_decode.c:1006-1046 | the check passes exactly when each of the first 64 required fields was seen |
| PbDecode.IStream.DecodeNoInit | ios/Pods/nanopb/pb_decode.c:901-1049 | the whole loop, with the wrapping iterator and the bitmask, is the specified decoder |
| PbDecode.Decode | ios/Pods/nanopb/pb_decode.c:1051-1063 | pb_decode from the defaults |
| TlsConnection.Connection.Update | ios/Pods/BoringSSL-GRPC/ssl/ssl_transcript.cc:236-252 | hashing goes to the buffer and the hash, whichever are active |
| TlsConnection.Connection.AddMessage | ios/Pods/BoringSSL-GRPC/ssl/handshake.cc:176-184 | a message is hashed once when it is sent |
| TlsConnection.Connection.UseMessage | ios/Pods/BoringSSL-GRPC/ssl/handshake.cc:215-222 | and once when it is taken |
| TlsConnection.Connection.ResolveWait | ios/Pods/BoringSSL-GRPC/ssl/handshake.cc:493-612 | what the driver does about each thing a handshake waits for: a flush that fails is tried again in the next call, and receiving comes to an end |
| TlsConnection.Connection.FlushFlight | ios/Pods/BoringSSL-GRPC/ssl/handshake.cc:500-506 | while the transport does not take the flight the handshake waits for that and nothing else changes |
| TlsConnection.Connection.OpenHandshake | ios/Pods/BoringSSL-GRPC/ssl/d1_both.cc:297-336 | an early ChangeCipherSpec is refused by TLS, and kept by DTLS while its records are not protected |
| TlsConnection.Connection.OpenChangeCipherSpec | ios/Pods/BoringSSL-GRPC/ssl/d1_both.cc:475-493 | one that was kept is used up first; DTLS takes messages meanwhile, TLS refuses them |
| TlsConnection.Connection.OpenWithNewKey | ios/Pods/BoringSSL-GRPC/ssl/dtls_method.cc:81-95 | no change of read keys while messages or a ChangeCipherSpec are left over |
| TlsHandshake.EmitKeeps | ios/Pods/BoringSSL-GRPC/ssl/handshake.cc:176-184 | sending keeps the transcript one and loses no message |
| TlsHandshake.TakeKeeps | ios/Pods/BoringSSL-GRPC/ssl/handshake.cc:215-222 | taking a message does |
| TlsHandshake.ResolveKeeps | ios/Pods/BoringSSL-GRPC/ssl/handshake.cc:495-612 | and so does everything the driver resolves: receiving records, flushing with any failures, and retries |
| TlsHandshake.AskedCalm | ios/Pods/BoringSSL-GRPC/ssl/ssl_privkey.cc:196-222 | a call answered with a retry is one that did not happen |
| TlsHandshake.LegitAt | ios/Pods/BoringSSL-GRPC/ssl/handshake.cc:380-429 | in a log in which every event was lawful when it happened, so was each at its place |
| TlsFlow.FollowsInOrder | ios/Pods/BoringSSL-GRPC/ssl/handshake_client.cc:1707-1789 | walking the places of Figures 1 and 2 of RFC 5246 is the same as: every step is allowed, the steps are in order, and none that is needed is missing |
| TlsFlow.LastEvent | ios/Pods/BoringSSL-GRPC/ssl/handshake.cc:380-429 | after the last step of a handshake the transcript does not grow |
| TlsClient.KeepStep | ios/Pods/BoringSSL-GRPC/ssl/handshake_client.cc:1707-1789 | every state of the client keeps the invariant |
| TlsClient.KeepRun | ios/Pods/BoringSSL-GRPC/ssl/handshake_client.cc:1707-1789 | so does every run, over any peer messages and any answers |
| TlsClient.KeepReadServerHello | ios/Pods/BoringSSL-GRPC/ssl/handshake_client.cc:535-759 | resumed or full: the hash starts from the whole buffer, and the buffer goes when no signature can need it |
| TlsClient.KeepVerifyServerCertificate | ios/Pods/BoringSSL-GRPC/ssl/handshake_client.cc:871-889 | past this state the chain was accepted |
| TlsClient.KeepReadServerKeyExchange | ios/Pods/BoringSSL-GRPC/ssl/handshake_client.cc:891-1071 | past this state any key exchange was signed by the chain's key |
| TlsClient.KeepSendClientCertificateVerify | ios/Pods/BoringSSL-GRPC/ssl/handshake_client.cc:1373-1455 | the handshake buffer is still whole when it is signed |
| TlsClient.KeepSendClientFinished | ios/Pods/BoringSSL-GRPC/ssl/handshake_client.cc:1457-1512 | the write key changes once and our Finished follows, over the whole transcript |
| TlsClient.KeepReadServerFinished | ios/Pods/BoringSSL-GRPC/ssl/handshake.cc:380-429 | the peer's Finished is matched over the transcript before it, after the read key changed |
| TlsClient.SignsEverything | ios/Pods/BoringSSL-GRPC/ssl/handshake_client.cc:1373-1455 | a CertificateVerify, in any run, signs every message before it |
| TlsClient.CompletionSafety | ios/Pods/BoringSSL-GRPC/ssl/handshake_client.cc:1649-1705 | a client that is done changed each key once, matched the peer's Finished after the read key changed, and in a full handshake with certificates accepted the chain, by the built-in check or a callback's answer or as the established one, and checked every key exchange against it; the transcript is every message once |
| TlsClientChecks.AllChecked | ios/Pods/BoringSSL-GRPC/ssl/handshake_client.cc:535-1672 | at every moment of every run: each message that was taken passed the checks of its kind, the deal is what the ServerHello settles, and each message that was sent is the configured one and was due |
| TlsClientChecks.ServerTrusted | ios/Pods/BoringSSL-GRPC/ssl/handshake.cc:285-378 | a client that is done after a full handshake with certificates has a chain that is the established one, or with none established is trusted by the built-in check, or by the callback's answer if there is a callback |
| TlsClientChecks.VerifyDecides | ios/Pods/BoringSSL-GRPC/ssl/handshake.cc:285-378 | the state that verifies fails exactly on the other chains, and goes on exactly on these |
| TlsFalseStart.EarlyIsSafe | ios/Pods/BoringSSL-GRPC/ssl/handshake_client.cc:1514-1564 | whoever may send application data early has offered early data, or is in a full TLS handshake with ECDHE, has sent Finished under its new key and holds a key exchange signed by a chain that passed |
| TlsFalseStart.EarlyHappens | ios/Pods/BoringSSL-GRPC/ssl/handshake_client.cc:1538-1564 | and with False Start allowed every such handshake comes to that point |
| TlsClientUpkeep.RunUpkeep | ios/Pods/BoringSSL-GRPC/ssl/handshake_client.cc:1073-1512 | in every run: the handshake buffer is there exactly while a signature may need it, a private key operation is under way exactly while it blocks, a Channel ID key is kept, and only a ServerHello for TLS 1.3, left unread, leads there |
| TlsClientUpkeep.LeavesFor13 | ios/Pods/BoringSSL-GRPC/ssl/handshake_client.cc:583-607 | such a ServerHello leads out, with nothing else changed |
| TlsClientComplete.Completes | ios/Pods/BoringSSL-GRPC/ssl/handshake_client.cc:385-1705 | whatever script of messages is in order for the client, in whatever records and through whatever failing flushes, it completes the handshake, and its transcript is the whole script |
| TlsClientFlow.StepFlow | ios/Pods/BoringSSL-GRPC/ssl/handshake_client.cc:1707-1789 | every state of the client fills the places of the flow that lie before the next state, no other, and leaves out none that is needed |
| TlsClientFlow.KeepsToFlow | ios/Pods/BoringSSL-GRPC/ssl/handshake_client.cc:1707-1789 | at every moment of every run, failed ones included, the client has taken the steps of section 7.3 of RFC 5246 up to its state |
| TlsClientFlow.WholeFlow | ios/Pods/BoringSSL-GRPC/ssl/handshake_client.cc:1674-1705 | a client that is done took the whole full or abbreviated flow: every message and key change that its cipher and extensions call for, in order, and nothing else |
| TlsTransparency.RetryTransparent | ios/Pods/BoringSSL-GRPC/ssl/handshake.cc:491-628 | of two clients, or two servers, that differ in retries and in failing flushes only, each moment of one is matched by a moment of the other with the same state, messages and transcript: also while waiting for the peer, and in runs that never end |
| TlsTransparency.SameProgress | ios/Pods/BoringSSL-GRPC/ssl/handshake.cc:491-628 | for two fresh connections with the same final answers, whatever flushes fail: what one has done at any moment, the other has done at some moment |
| TlsTransparency.SameOutcome | ios/Pods/BoringSSL-GRPC/ssl/handshake.cc:491-628 | if one comes to an end so does the other, and with the same outcome |
| TlsTransparency.SameLog | ios/Pods/BoringSSL-GRPC/ssl/handshake.cc:491-628 | two fresh connections that have come to an end have the same log, transcript and peer |
| TlsClientRetry.CalmStep | ios/Pods/BoringSSL-GRPC/ssl/handshake_client.cc:1169-1512 | every turn of the client is a retry that changes nothing else, or the turn that it would take without retries |
| TlsRetry.Transparent | ios/Pods/BoringSSL-GRPC/ssl/handshake.cc:491-628 | why: in a machine whose retries change nothing, every moment of a run is one of the run without retries |
| TlsRetry.SameOutcome | ios/Pods/BoringSSL-GRPC/ssl/handshake.cc:491-628 | and ends are alike |
| TlsClientMachine.ClientHandshake.VerifyPeerCertificate | ios/Pods/BoringSSL-GRPC/ssl/handshake.cc:285-360 | ssl_verify_peer_cert: renegotiation, callback and built-in verification |
| TlsClientMachine.ClientHandshake.Dispatch | ios/Pods/BoringSSL-GRPC/ssl/handshake_client.cc:1707-1789 | each state as a method that updates the object: it does what its specification says, and comes further unless it waits or fails |
| TlsClientMachine.ClientHandshake.Handshake | ios/Pods/BoringSSL-GRPC/ssl/handshake_client.cc:1707-1789 | the loop terminates: every state that goes on comes further; and it is a number of turns of the model |
| TlsClientMachine.ClientHandshake.RunHandshake | ios/Pods/BoringSSL-GRPC/ssl/handshake.cc:491-628 | one call of the driver terminates, is a number of turns, and reports completion only in the last state |
| TlsServer.KeepStep | ios/Pods/BoringSSL-GRPC/ssl/handshake_server.cc:1539-1621 | every state of the server keeps the invariant |
| TlsServer.KeepRun | ios/Pods/BoringSSL-GRPC/ssl/handshake_server.cc:1539-1621 | so does every run, over any client messages and any answers |
| TlsServer.KeepSelectParameters | ios/Pods/BoringSSL-GRPC/ssl/handshake_server.cc:572-684 | the ClientHello is the same message in all states that look at it, and is hashed once |
| TlsServer.KeepReadClientCertificate | ios/Pods/BoringSSL-GRPC/ssl/handshake_server.cc:949-1040 | one chain, and a required one is not empty |
| TlsServer.KeepVerifyClientCertificate | ios/Pods/BoringSSL-GRPC/ssl/handshake_server.cc:1042-1056 | past this state a chain that is not empty was accepted |
| TlsServer.KeepReadClientCertificateVerify | ios/Pods/BoringSSL-GRPC/ssl/handshake_server.cc:1269-1363 | past this state its key was proved over the whole transcript |
| TlsServer.KeepReadClientFinished | ios/Pods/BoringSSL-GRPC/ssl/handshake_server.cc:1439-1461 | the client's Finished is matched after the read key changed |
| TlsServer.KeepSendServerFinished | ios/Pods/BoringSSL-GRPC/ssl/handshake_server.cc:1463-1509 | the write key changes once and our Finished follows |
| TlsServer.CompletionSafety | ios/Pods/BoringSSL-GRPC/ssl/handshake_server.cc:1439-1537 | a server that is done changed each key once, matched the client's Finished, accepted any client chain that is not empty, by the built-in check or a callback's answer, and then the proof of its key over everything; its cipher is the one chosen for the ClientHello that was hashed |
| TlsServerChecks.AllChecked | ios/Pods/BoringSSL-GRPC/ssl/handshake_server.cc:432-1509 | at every moment of every run: each message that was taken passed the checks of its kind, what was settled is what ClientHello, session lookup and configuration say, a client certificate being asked for exactly in a full handshake under a certificate cipher by a server that verifies, Channel ID exemption aside, and each message that was sent is the configured one and was due |
| TlsServerChecks.ClientVerified | ios/Pods/BoringSSL-GRPC/ssl/handshake_server.cc:641-650 | a server that verifies its peers and requires a certificate does not complete a full handshake under a certificate cipher without a chain that is not empty, was accepted, and whose key was proved |
| TlsServerChecks.VerifyDecides | ios/Pods/BoringSSL-GRPC/ssl/handshake_server.cc:1042-1056 | the state that verifies fails exactly on chains that are refused or not trusted |
| TlsServerUpkeep.RunUpkeep | ios/Pods/BoringSSL-GRPC/ssl/handshake_server.cc:641-1363 | in every run: the handshake buffer is there exactly while the client's CertificateVerify may need it, a private key operation is under way only while it blocks, and only a ClientHello for TLS 1.3, left unread, leads there |
| TlsServerUpkeep.LeavesFor13 | ios/Pods/BoringSSL-GRPC/ssl/handshake_server.cc:512-570 | such a ClientHello leads out, with nothing else changed |
| TlsServerComplete.Completes | ios/Pods/BoringSSL-GRPC/ssl/handshake_server.cc:426-1537 | whatever script is in order for the server, in whatever records and through whatever failing flushes, it completes the handshake, and its transcript is the whole script |
| TlsInterop.BothComplete | ios/Pods/BoringSSL-GRPC/ssl/handshake.cc:491-630 | a client and a server for which one script is in order both complete it, and both transcripts are the script |
| TlsReorder.MessagesFirst | ios/Pods/BoringSSL-GRPC/ssl/d1_both.cc:475-493 | DTLS: messages in front of an awaited ChangeCipherSpec are kept, in order |
| TlsReorder.KeyFirst | ios/Pods/BoringSSL-GRPC/ssl/d1_both.cc:332-349 | DTLS: a ChangeCipherSpec in front of an awaited message is kept and used once |
| TlsReorder.Refuses | ios/Pods/BoringSSL-GRPC/ssl/s3_pkt.cc:351-375 | TLS: both are refused, and so is a change of keys while anything is left over |
| TlsServerFlow.StepFlow | ios/Pods/BoringSSL-GRPC/ssl/handshake_server.cc:1539-1621 | every state of the server fills the places of the flow that lie before the next state |
| TlsServerFlow.StepPrepared | ios/Pods/BoringSSL-GRPC/ssl/handshake_server.cc:686-912 | a key exchange that is prepared is one the cipher calls for or allows, and client certificates are asked for under certificate ciphers only |
| TlsServerFlow.KeepsToFlow | ios/Pods/BoringSSL-GRPC/ssl/handshake_server.cc:1539-1621 | at every moment of every run the server has taken the steps of the flow up to its state |
| TlsServerFlow.WholeFlow | ios/Pods/BoringSSL-GRPC/ssl/handshake_server.cc:1511-1537 | a server that is done took the whole flow; it is the same flow that the client is held to |
| TlsAgreement.ClientLast | ios/Pods/BoringSSL-GRPC/ssl/handshake_client.cc:1457-1705 | the transcript of a client that is done ends with the Finished over all of it, by the side whose turn is last |
| TlsAgreement.ServerLast | ios/Pods/BoringSSL-GRPC/ssl/handshake_server.cc:1439-1537 | so does that of a server |
| TlsAgreement.Agreement | ios/Pods/BoringSSL-GRPC/ssl/handshake.cc:380-479 | a client and a server that end on the same Finished, whose MAC binds sender and transcript, have the same transcript, message by message, and agree on whether it was a resumption |
| TlsServerRetry.CalmStep | ios/Pods/BoringSSL-GRPC/ssl/handshake_server.cc:520-1134 | every turn of the server is a retry that changes nothing else, or the turn that it would take without retries |
| TlsServerMachine.ServerHandshake.Dispatch | ios/Pods/BoringSSL-GRPC/ssl/handshake_server.cc:1539-1621 | each state as a method that updates the object: it does what its specification says, and comes further unless it waits or fails |
| TlsServerMachine.ServerHandshake.Handshake | ios/Pods/BoringSSL-GRPC/ssl/handshake_server.cc:1539-1621 | the loop terminates and is a number of turns of the model |
| TlsServerMachine.ServerHandshake.RunHandshake | ios/Pods/BoringSSL-GRPC/ssl/handshake.cc:491-628 | one call of the driver terminates, is a number of turns, and reports completion only in the last state |
| CipherChoice.ChooseByServer | ios/Pods/BoringSSL-GRPC/ssl/handshake_server.cc:357-424 | the usable shared suite that comes first by (server group, client position), among the groups that are closed, and none exactly when there is none |
| CipherChoice.ChooseByClient | ios/Pods/BoringSSL-GRPC/ssl/handshake_server.cc:357-424 | without server preference the client's first usable suite, and none exactly when there is none |
| CipherChoice.LastFlagCloses | ios/Pods/BoringSSL-GRPC/ssl/internal.h:1860-1893 | with a last flag of 0 every group is closed, so nothing is chosen exactly when nothing usable is shared |
| CipherChoice.Choose | ios/Pods/BoringSSL-GRPC/ssl/handshake_server.cc:357-424 | both: the suite by the server's or the client's order, as the option says |
| CipherChoice.BestIsOne | ios/Pods/BoringSSL-GRPC/ssl/handshake_server.cc:357-424 | there is only one best suite |
| TlsCipher.BestNegotiated | ios/Pods/BoringSSL-GRPC/ssl/handshake_server.cc:540-556 | at every moment of every run, once a handshake is negotiated its cipher is that of the best usable suite of the ClientHello that was hashed |
| TlsCipher.NothingShared | ios/Pods/BoringSSL-GRPC/ssl/handshake_server.cc:540-556 | a handshake fails at the choice exactly when nothing usable is shared |
| Refcount.TurnRefines | ios/Pods/BoringSSL-GRPC/crypto/refcount_c11.c:37-65 | a turn of a compare-and-swap loop is nothing or one whole atomic operation, with its result |
| Refcount.WriteRefines | ios/Pods/BoringSSL-GRPC/crypto/refcount_lock.c:29-51 | the write under the lock is one whole atomic operation |
| Refcount.ApplySound | ios/Pods/BoringSSL-GRPC/crypto/refcount_c11.c:37-65 | an atomic operation keeps the count equal to the references owned, or saturated for good |
| Refcount.SwapSound | ios/Pods/BoringSSL-GRPC/crypto/refcount_c11.c:37-65 | any threads, any interleaving, any spurious failures: no decrement aborts, at most one returns true, one does when the count reaches zero, and the count is start plus increments minus decrements until it saturates |
| Refcount.LockSound | ios/Pods/BoringSSL-GRPC/crypto/refcount_lock.c:29-51 | the same for the locked form |
| Der.LengthInverse | ios/Pods/BoringSSL-GRPC/crypto/bytestring/cbs.c:265-319 | lengths are read back and only in their minimal form (section 10.1 of ITU-T X.690) |
| Der.ElementInverse | ios/Pods/BoringSSL-GRPC/crypto/bytestring/cbs.c:243-322 | an element is read back, with what follows it left over |
| Der.UintInverse | ios/Pods/BoringSSL-GRPC/crypto/bytestring/cbb.c:473-506 | a 64-bit INTEGER is written so that it is read back |
| DerExact.UintExact | ios/Pods/BoringSSL-GRPC/crypto/bytestring/cbs.c:391-418 | an INTEGER that fits 64 bits is read from its one shortest form only |
| DerExact.LengthExact | ios/Pods/BoringSSL-GRPC/crypto/bytestring/cbs.c:265-319 | a length is read from its one shortest form only |
| DerExact.ElementExact | ios/Pods/BoringSSL-GRPC/crypto/bytestring/cbs.c:243-322 | so an element is read only from what is written for it |
| DerExact.TagExact | ios/Pods/BoringSSL-GRPC/crypto/bytestring/cbs.c:183-240 | a tag number of several bytes is taken in its shortest form, from 31 to 2^29 - 1 |
| SessionCodec.ToBytesFull | ios/Pods/BoringSSL-GRPC/ssl/ssl_asn1.cc:200-399 | every field in the order of its tag, present or not, is the specified serialization |
| SessionCodec.ChainBytes | ios/Pods/BoringSSL-GRPC/ssl/ssl_asn1.cc:332-349 | the certificates behind the leaf |
| SessionCodec.Reader.Certificates | ios/Pods/BoringSSL-GRPC/ssl/ssl_asn1.cc:698-713 | the loop that takes the chain apart |
| SessionCodec.Parser.ReadSession | ios/Pods/BoringSSL-GRPC/ssl/ssl_asn1.cc:527-757 | every item in its order, with its checks, is the specified parser |
| SessionCodec.FromBytes | ios/Pods/BoringSSL-GRPC/ssl/ssl_asn1.cc:830-844 | nothing may follow the session |
| SessionRoundTrip.OptTail | ios/Pods/BoringSSL-GRPC/ssl/ssl_asn1.cc:593-750 | the optional element read at a tag is exactly what was written there, for every combination of the others |
| SessionRoundTrip.ChainBack | ios/Pods/BoringSSL-GRPC/ssl/ssl_asn1.cc:669-714 | the chain comes back exactly if its certificates are single DER elements |
| SessionRoundTrip.RoundTrip | ios/Pods/BoringSSL-GRPC/ssl/ssl_asn1.cc:200-757 | the parser returns the serialized session, normalised, exactly for sessions with a known version and cipher, a verify result that is not negative and certificates that can be told apart; for tickets too |
| SessionRoundTrip.NegativeVerifyResult | ios/Pods/BoringSSL-GRPC/ssl/ssl_asn1.cc:488-499 | a negative verify result is not read back |
| SessionRoundTrip.RefusedIsLost | ios/Pods/BoringSSL-GRPC/ssl/ssl_asn1.cc:245-249 | such a session, written out: it is serialized and not read back |
| SessionFormat.ParsesStructure | ios/Pods/BoringSSL-GRPC/ssl/ssl_asn1.cc:108-140 | the parser succeeds exactly on the ASN.1 structure of a session, which is given as a list of elements and what each says of its field, and returns that session; nothing may follow, be repeated or be out of order |
| SessionFormat.ParsedTyped | ios/Pods/BoringSSL-GRPC/ssl/ssl_asn1.cc:527-757 | what it returns has its C types and is acceptable, but for certificates beside a SHA-256 |
| SessionFormat.Reparses | ios/Pods/BoringSSL-GRPC/ssl/ssl_asn1.cc:200-757 | it can be written and read again without change |
| SessionFormat.WritesStructure | ios/Pods/BoringSSL-GRPC/ssl/ssl_asn1.cc:200-399 | what is written for an acceptable session is that structure |
| SessionLayout.WritesLayout | ios/Pods/BoringSSL-GRPC/ssl/ssl_asn1.cc:200-399 | for every session: five elements without a tag, and then one, in order, for each field that is not its default, and no other |
| SessionLayout.ModerateSerializes | ios/Pods/BoringSSL-GRPC/ssl/ssl_asn1.cc:200-399 | a session whose strings have at most 2^24 bytes each can always be written |

## Left out

- DtlsSystem.EndToEnd: stated for runs in which fewer than 65536 messages are sent, which is where it ends: it is false of a run of 65536 (`DtlsWrap.EpochsRepeat`, which changes the read keys 65536 times, so that an old record is in the receiver's epoch again) and, within one epoch, of a run of 65537 (`DtlsWrap.NumbersRepeat`, whose sender is 65536 messages ahead of its receiver). The ring invariant itself is proved across the wrap.
- DtlsDelivery.Recovers: which datagrams arrive is an assumption; it does not say when retransmission stops.
- DtlsReceiver.Receiver.NextMessage: sending and receiving are two objects, so that the flag of a flight that had its reply, which dtls1_next_message sets at its end, is set by `DtlsSender.Sender.ReplyReceived`.
- Aead.Create: MAC keys, failures of the underlying EVP functions and the TLS 1.3 nonce layout.
- DtlsNonce.NonceReuse: does not model `SetVersionIfNullCipher`, which changes the version of a context that carries no nonce.
- DtlsTimer.RetransmitsBounded: the count of timeouts is unbounded here; in the code it is an unsigned that would wrap after 2^32 calls that were all told the connection failed.
- PbEncode.OStream.Encode: sizes are natural numbers; the wrap-around of size_t in `bytes_written + count` is not modelled, and lengths are assumed to fit size_t.
- PbDecode.IStream.DecodeNoInit: extension fields and fixed-count arrays of the loop are left out. The struct is a value that is passed on, not memory that is written; what a failing decoder leaves behind in it is not modelled.
- PbIter.FieldIter.Next: offsets are numbers; that the fields of a generated struct do not overlap is the generator's business.
- TlsClient.CompletionSafety: what a message says and whether its checks pass are functions of the configuration; the parsing of ServerHello extensions, certificates and key exchanges is not modelled, and a failed handshake is not looked at again.
- TlsServer.CompletionSafety: the same for ClientHello extensions, session lookup and the RSA premaster padding check.
- PbRoundTrip.RoundTrip: lengths behind a 32-bit prefix fit it.
- PbVarint32.Decodes32: forms of more than 36 bytes, behind which the position counter wraps; one of them is in `PbVarint32.CounterWraps`.
- PbMeaning.DecodesFields: keys, lengths and numbers in their shortest form; what the decoders make of other forms is in `PbFormat.DecodesGroups` and `PbVarint32.Decodes32`.
- TlsClientComplete.Completes: one order of records, ChangeCipherSpec between the messages before and behind it, and callbacks that accept when they are called again; a DTLS ChangeCipherSpec out of turn is in `TlsReorder`.
- TlsServerComplete.Completes: the same.
- TlsFalseStart.EarlyIsSafe: that the version is TLS 1.2, the cipher an AEAD and a protocol agreed on is one flag of the configuration.
- Refcount.SwapSound: memory order beyond the atomicity of loads and exchanges.
- SessionRoundTrip.RoundTrip: sessions always have a cipher; fields that are not serialized, allocation failure and the `NOT RESUMABLE` placeholder of `SSL_SESSION_to_bytes` are not modelled.
- The DTLS receive and send paths as one object: input records are byte sequences rather than a buffer decrypted in place, and the outgoing queue is a sequence.
- TLS 1.3: the handshakes leave the model where the code jumps to its own state machine.
- SSL 3.0, V2ClientHello, handoff, renegotiation beyond the certificate check, alerts, and info and message callbacks.
- nanopb callbacks, extensions, pointer and fixed-count fields, and `PB_WITHOUT_64BIT`: alternative entry points beside the modelled paths.
- TLS record protection and write buffers, BIO internals, and error queues.
- The inside of AEADs, hashes, signatures, key exchange, X.509 and random numbers.
