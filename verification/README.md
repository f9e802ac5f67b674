# FinBit desktop client: a verified model

This project models the parts of the FinBit messenger where state, branching and arithmetic
meet, and proves what they promise for every input, every reachable state or every run.

- **Worker** (`Sessions`, `ChatWorker`, `ChatInvariants`, `ChatReceiving`, `ChatSending`, `ChatKeying`,
  `ChatTheorems`, `ChatLabels`, `ChatAccounting`, `ChatParking`, `ChatClient`): the map of ratchet sessions and the three ways a session is
  keyed, the two-pass search that attributes a sealed envelope, the flags that gate what goes on
  the wire, the sticky post-quantum pin, the key-fetch FIFO, the parking lot, the send queue and
  the queue of channel operations.
  `ChatWorker` is the state machine, `ChatClient.Client` the object whose methods refine its
  steps, and the theorems are about all runs. What receiving, sending and keying do to a session is
  stated from the arriving message and the ratchet primitives, not from the handlers' own records.
- **Double Ratchet** (`Ratchet`, `RatchetDelivery`, `RatchetInvariants`, `RatchetOnce`,
  `RatchetTheorems`, `RatchetRuns`): two parties over a network that reorders, repeats, drops and
  makes up messages, with deliveries that are rolled back on failure and deliveries that are not.
  Keys are symbolic terms: two keys are equal exactly when they were derived alike, and a ciphertext
  opens under the key, header and associated data it was sealed with. A made-up message is any
  message at all; the theorems that need it to be sealed under no message key say so.
- **MLS channels** (`Mls`, `MlsAgreement`, `MlsCommitters`, `MlsLog`): agreement of all members
  with one committer and with many, and the on-disk operation log.
- **Voice rooms** (`Mesh`, `Forwarder`, `MediaCall`): who dials whom and who forwards, the relay
  branches, and the order in which a call hands candidates to its connection.
- **Recovery phrase** (`Bip39`, over `Digits`): the 11-bit walks are base-256 to base-2048
  conversion; the section "Generating the mnemonic" of BIP-0039.
- **Identity vault** (`Vault`): blob layout, bounds, and files of several blobs.
- **History** (`History`): the merge of inbox and outbox.

A run is a sequence of states and a sequence of events between them. Each handler is one atomic
step; what the environment decides (arriving messages, iteration order of a map, clocks, random
bytes, outcomes of calls that may fail) is a parameter of the event. Objects have a `View()`, the
value of the state machine they implement, and every method says which step it is.

## Where the code does less than it says

The model follows the code. Each property below fails; the first member named states its exact
condition, and the second is an input or a run that reaches the failure.

- A send pass swaps out the whole queue and stops at the first send without a session, so the rest
  of the queue is in no queue any more; a session without a send chain makes the pass throw
  (`ChatAccounting.NothingLostIff`, `ChatAccounting.SecondSendIsLost`).
- A pass over the channel operations does the same when an invite has to wait for a session
  (`ChatAccounting.NoOpLostIff`, `ChatAccounting.OpBehindInviteIsLost`).
- A send whose parking timed out is logged as falling back to the server, is put back in the queue
  and is parked again by the next pass (`ChatParking.FetchesIff`, `ChatParking.ParkedForRounds`).
- A key-fetch reply writes the peer key into the session before the key agreement that may throw,
  so a live ratchet can end up under another peer's key (`ChatLabels.LabelsMatchIff`,
  `ChatLabels.LabelsComeApart`).
- The entry for a sender's first envelope is named after eight bytes of its key, so a sender whose key
  starts like another's moves that one's ratchet (`ChatReceiving.GoesToItsSenderIff`,
  `ChatReceiving.SharedTagRun`).
- A bundle that is refused as a downgrade leaves a dial that waited for it pending, and a pending dial
  is never asked for again (`ChatKeying.BundleIs`, `ChatKeying.RefusedDialSticks`).
- An envelope that names its sender is decrypted without a rollback, so one that does not open can
  use up another message's key or divert the ratchet (`RatchetDelivery.HarmlessIff`,
  `RatchetRuns.DuplicateRun`, `RatchetRuns.OldDuplicateRun`).
- A full cache of skipped keys drops one that is still needed (`RatchetTheorems.LosslessIff`,
  `RatchetRuns.FullCacheLoses`).
- `apply_commit` given a proposal stages it and then throws, so a mutator that throws may have
  changed the group; a failed append leaves the group ahead of its log (`MlsLog.RefinesIff`,
  `MlsLog.MisfiledProposalIsForgotten`, `MlsLog.FailedAppendIsForgotten`). A second seed for a
  channel keeps the old rows (`MlsLog.ReseedIff`, `MlsLog.ReseededNeverLogs`).
- Any member commits when a key package arrives, and two commits in one epoch part the members
  for good (`MlsCommitters.AgreementIff`, `MlsCommitters.ForkRun`, `MlsCommitters.ForkStays`).
- An add that fails between staging and storing leaves a proposal nobody is told of; the next commit
  names it, and no other member can apply that commit (`MlsAgreement.CatchesUpIff`,
  `MlsAgreement.StrandedRun`).
- A leaf whose offer does not parse is known to the forwarder but not to its routing plan, and
  joining again does nothing (`Forwarder.PlanIsLeavesIff`, `Forwarder.BadOfferSticks`). A stream
  that arrives again keeps its old branches (`Forwarder.CurrentIff`, `Forwarder.StreamArrivesAgain`).
- A caller's connection takes candidates before the answer has been applied
  (`MediaCall.DescribedFirstIff`, `MediaCall.CallerAppliesTooEarly`). A closed call is opened again by
  an offer, or by an answer while its connection is there (`MediaCall.ClosedStaysIff`).
- The limit of a history query counts rows that cannot be decrypted, so they can hide readable ones
  (`History.NewestOfAllIff`, `History.UnreadableHidesReadable`).
- Sealing a vault accepts limits that opening refuses (`Vault.RoundTripIff`,
  `Vault.OnePassSealsForGood`); the defaults are the MODERATE ones, although the header names
  INTERACTIVE.

## Model

| member | source | states |
|---|---|---|
| `Bip39.WordsAreDigits` | client-desktop/src/bip39.cpp:44-55 | the 24 words of any 33-byte buffer are base-2048 digits and write the same number as its 33 base-256 digits |
| `Bip39.ReadWord` | client-desktop/src/bip39.cpp:47-53 | the inner shift-and-or loop yields the number spelled by the eleven bits of word i |
| `Bip39.SeedToIndices` | client-desktop/src/bip39.cpp:34-55 | the walk over seed and checksum byte yields the base-2048 digits of their 264-bit big-endian number |
| `Bip39.PackWord` | client-desktop/src/bip39.cpp:75-81 | or-ing the eleven bits of one word into the buffer fills in exactly its stretch of the bit string and leaves the rest |
| `Bip39.PackIndices` | client-desktop/src/bip39.cpp:69-82 | the in-place packing of 24 words is the 33-byte big-endian form of the same number |
| `Bip39.UnpackPacked` | client-desktop/src/bip39.cpp:34-82 | packing the words of a buffer gives the buffer back |
| `Bip39.PackUnpacked` | client-desktop/src/bip39.cpp:34-82 | reading the words of a packed buffer gives the words back |
| `Bip39.WordIndex` | client-desktop/src/bip39.cpp:20-30 | the reverse index holds exactly the words of the list, each at its position |
| `Bip39.RoundTrip` | client-desktop/src/bip39.cpp:34-90 | decoding the encoding of any 32-byte seed gives the seed, for every wordlist of 2048 distinct words and every digest |
| `Bip39.AcceptedIffEncoding` | client-desktop/src/bip39.cpp:60-90 | a token list is accepted if and only if it is the encoding of some seed, and encoding the result restores the tokens |
| `Bip39.LastWordSplit` | client-desktop/src/bip39.cpp:69-88 | the last word is three bits of entropy and the whole checksum byte |
| `Bip39.ChecksumInLastWord` | client-desktop/src/bip39.cpp:34-55 | the low byte of the last word is the first byte of the digest of the seed |
| `Bip39.EightLastWords` | client-web/ui/bip39.js:68-96 | for any 23 words of the list exactly 8 of its 2048 words complete a phrase that the decoder accepts |
| `Bip39.TokensJoin` | client-desktop/src/bip39.cpp:57-66 | splitting on white space undoes joining with spaces |
| `Bip39.SeedToPhrase` | client-desktop/src/bip39.cpp:34-58 | the phrase is the encoded tokens joined by spaces |
| `Bip39.PhraseToSeed` | client-desktop/src/bip39.cpp:60-90 | the decoder accepts and returns what decoding the tokens of the normalised phrase says, for any text and any normaliser |
| `Bip39.PhraseRoundTrip` | client-web/ui/bip39.js:36-96 | a phrase decodes to the seed it was made from, for every normaliser that leaves phrases made of list words as they are |
| `Vault.PutU64Be` | client-desktop/src/identity_vault.cpp:24-26 | writes the eight big-endian bytes in place and nothing else |
| `Vault.GetU64Be` | client-desktop/src/identity_vault.cpp:27-31 | reads the number of eight big-endian bytes, for every input |
| `Vault.WriteHeader` | client-desktop/src/identity_vault.cpp:68-79 | version, salt, limits and nonce are at their offsets |
| `Vault.SealSeed` | client-desktop/src/identity_vault.cpp:59-103 | the blob filled in place is header, nonce and sealed seed, 105 bytes; the two failures are told apart |
| `Vault.SealedFields` | client-desktop/src/identity_vault.cpp:68-79 | what opening reads at each offset is what sealing put there, the limits included |
| `Vault.OpenSealed` | client-desktop/src/identity_vault.cpp:105-149 | opening a sealed blob with any passphrase is opening its ciphertext under the key that passphrase derives, or nothing when the limits are out of bounds |
| `Vault.RoundTripIff` | client-desktop/src/identity_vault.cpp:46-149 | a sealed blob opens to its seed if and only if, after zero means default, ops is at least 2 and mem is between 64 MiB and 1 GiB |
| `Vault.LegacyOpensIff` | client-desktop/src/identity_vault.cpp:105-149 | a blob of the older 104-byte format, sealed without associated data, opens to its seed if and only if its limits are in bounds |
| `Vault.OpensOnlyKnownFormats` | client-desktop/src/identity_vault.cpp:105-132 | what opens is 104 bytes, or 105 bytes with version 2, and has limits in bounds |
| `Vault.OnePassSealsForGood` | client-desktop/src/identity_vault.cpp:46-149 | a blob sealed with ops 1 opens for no passphrase |
| `Vault.OpensIffSamePassphrase` | client-desktop/src/identity_vault.cpp:105-149 | under an ideal AEAD a sealed blob opens for exactly the passphrases that normalise alike |
| `Vault.FirstOpen` | client-desktop/src/identity_vault.cpp:367-384 | the result is that of the lowest slot that opens, and none exactly when no slot opens |
| `Vault.OpenSeedMulti` | client-desktop/src/identity_vault.cpp:357-385 | the scan that never exits early returns the lowest slot that opens, on every blob |
| `Vault.DualIsMulti` | client-desktop/src/identity_vault.cpp:305-332 | the two-slot reader agrees with the N-slot reader on every 104-, 105- and 210-byte blob, and where they differ it is on three or more slots |
| `Vault.SealSeedsMulti` | client-desktop/src/identity_vault.cpp:336-355 | succeeds exactly when every slot seals, with the slots one after the other; a length mismatch is its own error |
| `Vault.SlotsOfConcatenated` | client-desktop/src/identity_vault.cpp:344-378 | cutting a sealed N-slot file into 105-byte slots gives back the slots |
| `Vault.MultiRoundTrip` | client-desktop/src/identity_vault.cpp:336-385 | any passphrase opens an N-slot vault to the seed of the lowest slot with the same normalised passphrase, and to nothing when there is none |
| `Sessions.FirstLive` | client-desktop/src/chat_client.cpp:2728-2735 | finds a live session of the key exactly when there is one |
| `Sessions.TwoPassKeeps` | client-desktop/src/chat_client.cpp:2514-2583 | the search changes no peer key, ciphertext or acknowledgement, and latches sealing for the match alone |
| `Sessions.TwoPassIsTryAll` | client-desktop/src/chat_client.cpp:2514-2583 | when at most one session decrypts, the two passes find a match if and only if some live session accepts, it is that session, and they leave the very map that offering the envelope to every session leaves |
| `Sessions.TwoPassFindsTheAcceptor` | client-desktop/src/chat_client.cpp:2514-2583 | the same match, and no session that fails to decrypt changed, when several sessions decrypt but at most one accepts |
| `Sessions.MatchedFirst` | client-desktop/src/chat_client.cpp:2547-2583 | when a session whose receiving chain matches the header accepts, no session without a match is tried or changed |
| `ChatInvariants.InboundKeeps` | client-desktop/src/chat_client.cpp:2455-2840 | an inbound envelope keeps the invariant |
| `ChatInvariants.DrainKeeps` | client-desktop/src/chat_client.cpp:3922-4105 | draining the parking lot, with first-contact keying, keeps the invariant |
| `ChatInvariants.SendPassKeeps` | client-desktop/src/chat_client.cpp:4960-5443 | a send pass keeps the invariant |
| `ChatInvariants.KeyReplyKeeps` | client-desktop/src/chat_client.cpp:5621-5805 | a key-fetch reply, whether it keys, throws or is refused, keeps the invariant |
| `ChatInvariants.ChannelPassKeeps` | client-desktop/src/chat_client.cpp:4349-4838 | a pass over the channel operations, which may ask for keys, send, throw or put an invite back, keeps the invariant |
| `ChatInvariants.MediaKeeps` | client-desktop/src/chat_client.cpp:4900-4953 | a media signal keeps the invariant |
| `ChatInvariants.RunKeeps` | client-desktop/src/chat_client.cpp:2455-5805 | in every reachable state, however overlay and username log change between passes: one live ratchet per peer, flags that match the history of the current ratchet, every envelope flagged as that history required, the pin obeyed, the FIFO equal to the unanswered requests |
| `ChatReceiving.AadBinds` | client-desktop/src/chat_client.cpp:2779-2797 | the same associated data is accepted for no other envelope identity of that length and no other time |
| `ChatReceiving.DirectInbound` | client-desktop/src/chat_client.cpp:2725-2840 | an envelope that names its sender meets one entry and changes no other; it is acknowledged, with both flags latched and the KEM ciphertext dropped, if and only if it passes the check and decrypts under the ratchet it meets; the ratchet moves if and only if it passes the check |
| `ChatReceiving.PeerTagIff` | client-desktop/src/chat_client.cpp:2737-2741 | two senders share the entry for first envelopes if and only if the first eight bytes of their keys are the same |
| `ChatReceiving.GoesToItsSenderIff` | client-desktop/src/chat_client.cpp:2728-2776 | an envelope goes to a session of the sender it names if and only if that sender has a live session or the entry for its first envelope is not live |
| `ChatReceiving.SharedTagRun` | client-desktop/src/chat_client.cpp:2728-2776 | a run of two envelopes from senders whose keys start alike, of which the second moves the first one's ratchet |
| `ChatReceiving.TwoPassProves` | client-desktop/src/chat_client.cpp:2514-2583 | the search changes a ratchet only by trials that opened the envelope, and the match opened it, found its peer's signature in it, and has the ratchet that trial returned |
| `ChatReceiving.SealedInbound` | client-desktop/src/chat_client.cpp:2455-2840 | a sealed envelope with a match latches sealing for it, acknowledges it if and only if the check passes, and changes no other session after the search; without a match nothing is logged |
| `ChatReceiving.EveryProofWasOpened` | client-desktop/src/chat_client.cpp:2455-2840 | in every run each acknowledgement or seal proof was logged by a step whose envelope the named session opened |
| `ChatTheorems.OneLiveRatchetPerPeer` | client-desktop/src/chat_client.cpp:2730-2779 | in every reachable state no two sessions with a ratchet share a peer key, across all three keying paths |
| `ChatTheorems.SealedMatchIsAcknowledged` | client-desktop/src/chat_client.cpp:2547-2840 | the session a sealed envelope decrypted under is the one the later lookup by key selects, it is acknowledged and sealed, and no other session changes |
| `ChatTheorems.SealedEnvelopeWasProven` | client-desktop/src/chat_client.cpp:5071-5403 | every envelope without a sender key comes from a session that, at a named earlier step, opened an arriving envelope, and that was not keyed again since |
| `ChatTheorems.CiphertextUntilAck` | client-desktop/src/chat_client.cpp:4807-5403 | an envelope carries the KEM ciphertext of its session's current ratchet exactly until the first acknowledgement, and only on a hybrid session keyed by us |
| `ChatTheorems.AckedImpliesSealed` | client-desktop/src/chat_client.cpp:2829-2840 | an acknowledged session has no ciphertext left, seals its envelopes and has a ratchet |
| `ChatTheorems.PinnedPeerStaysHybrid` | client-desktop/src/chat_client.cpp:6660-6692 | no step of any run keys a peer as alice without a KEM key and ciphertext once an earlier session pinned it or this one admitted it with one, on the DHT or the server path |
| `ChatTheorems.RepliesMatchRequests` | client-desktop/src/chat_client.cpp:5337-5647 | the FIFO is the unanswered key fetches of all three senders in order, so reply number k is handled for request number k |
| `ChatTheorems.KeyedFromItsOwnBundle` | client-desktop/src/chat_client.cpp:5621-5769 | with a server that answers its requests in order, every session a reply keys is keyed from the bundle of the name it is filed under |
| `ChatLabels.LabelsMatchIff` | client-desktop/src/chat_client.cpp:5717-5769 | a live session stays under the key its ratchet was made for, unless and only unless the step is a reply whose key agreement throws for a name with a live session of another peer |
| `ChatLabels.LabelsComeApart` | client-desktop/src/chat_client.cpp:5717-5769 | for any name and two peers a run of five events that ends, with the throw, with a ratchet under the other peer's key |
| `ChatParking.FetchesIff` | client-desktop/src/chat_client.cpp:5229-5346 | a send without a session asks the server for keys if and only if its name does not resolve at the time, or resolves to no live session while the overlay is down |
| `ChatParking.ResolvedNamesStayOffServer` | client-desktop/src/chat_client.cpp:5311-5345 | no send pass of any run that finds the overlay up asks the server for the keys of a name that the username log resolves at that pass |
| `ChatParking.ParksAgain` | client-desktop/src/chat_client.cpp:4081-5334 | a drain at the timeout and the next pass leave the worker as it was, with the send parked again at the later time |
| `ChatParking.ParkedForRounds` | client-desktop/src/chat_client.cpp:4081-5334 | for every number of rounds there is a run after which the send is still parked and the server was never asked |
| `ChatSending.SendPassSent` | client-desktop/src/chat_client.cpp:4960-5443 | a send pass, on any route and however it ends, moves each session's ratchet by one encryption for each envelope built from it, changes nothing else of any session, and addresses each envelope to its session's peer with that session's flags |
| `ChatSending.ChannelPassSent` | client-desktop/src/chat_client.cpp:4349-4838 | so does a pass over the channel operations |
| `ChatSending.MediaSent` | client-desktop/src/chat_client.cpp:4888-4953 | and a media signal |
| `ChatSending.SendingMovesRatchets` | client-desktop/src/chat_client.cpp:4349-5443 | and hence every sending step of every run |
| `ChatSending.SendOneBuilds` | client-desktop/src/chat_client.cpp:5015-5403 | a send costs one envelope for each relay that refused it and one that carries it |
| `ChatSending.PassCarries` | client-desktop/src/chat_client.cpp:4960-5443 | a pass carries, in the order of the queue, exactly the sends it got through, each readdressed as its fingerprint says |
| `ChatSending.RebindIs` | client-desktop/src/chat_client.cpp:4976-4991 | a send is readdressed if and only if it is to a fingerprint nobody is filed under that some live session has, and then to such a session |
| `ChatSending.NoSessionIs` | client-desktop/src/chat_client.cpp:5229-5346 | a send without a session is readdressed to a live session of the peer its name resolves to, else parked with that peer, else waits for the server, and in each case nothing else happens |
| `ChatSending.ReaddressedGoesOut` | client-desktop/src/chat_client.cpp:5229-5403 | a send readdressed by one pass goes out to that peer in the next |
| `ChatSending.ChannelPassDoes` | client-desktop/src/chat_client.cpp:4349-4838 | the operations a channel pass gets through have queued one message for each group invite and sent one envelope for each invite by sender key, in order; an invite that waits is put back first |
| `ChatSending.MediaSentIff` | client-desktop/src/chat_client.cpp:4888-4953 | a media signal goes out if and only if the first entry with the key is live and has a send chain |
| `ChatKeying.DrainItemIs` | client-desktop/src/chat_client.cpp:3930-4104 | a parked send stays if and only if nothing is found and less than 2000 ms have passed; a find keys a fresh session of the peer if and only if it is no downgrade, the peer has no live one and the agreement succeeds; it pins exactly a peer with a KEM key |
| `ChatKeying.ElapsedIs` | client-desktop/src/chat_client.cpp:3924-3936 | the 64-bit difference, which wraps when the clock was set back |
| `ChatKeying.DrainKeys` | client-desktop/src/chat_client.cpp:3930-4104 | in a drain of any lot such a find leaves its session in place, when no other parked send shares its name or peer |
| `ChatKeying.BundleIs` | client-desktop/src/chat_client.cpp:5700-5805 | a bundle keys the fetched name with its ratchet, ciphertext and clean flags under the same condition, relabels it when the agreement throws, else changes no session; a waiting dial is settled unless the bundle was refused or the agreement threw |
| `ChatKeying.BundleIsForTheHead` | client-desktop/src/chat_client.cpp:5621-5805 | a reply does that to the name at the head of the FIFO |
| `ChatKeying.WithoutIs` | client-desktop/src/chat_client.cpp:5657-5663 | exactly the sends for the peer are removed, and the others keep their order |
| `ChatKeying.WithoutInvitesIs` | client-desktop/src/chat_client.cpp:5664-5673 | so are exactly the invites for the peer |
| `ChatKeying.NotFoundIs` | client-desktop/src/chat_client.cpp:5648-5690 | an unknown name loses exactly its sends and invites and its waiting dial; sessions, pins and lot are unchanged |
| `ChatKeying.ReplyIgnored` | client-desktop/src/chat_client.cpp:5634-5647 | a reply without a fetch in flight changes nothing, and one for the empty name only leaves the FIFO |
| `ChatKeying.PinsAre` | client-desktop/src/chat_client.cpp:6660-6692 | in every run the pinned peers are those of earlier sessions and those that showed a KEM key in a reply or a find since |
| `ChatKeying.StrippedBundleIsRefused` | client-desktop/src/chat_client.cpp:5704-5716 | once a peer showed a KEM key, a bundle of it without one changes no session in any run |
| `ChatKeying.FirstContactRun` | client-desktop/src/chat_client.cpp:3922-5403 | a run that parks a send, finds the prekeys and sends it to that peer with the ciphertext, without asking the server |
| `ChatKeying.DialAsksIff` | client-desktop/src/chat_client.cpp:2196-2236 | a dial asks for the peer's name if and only if it has no live session and none is pending, and is pending then |
| `ChatKeying.UsernameReplyIs` | client-desktop/src/chat_client.cpp:5589-5626 | an answer without a name ends the dial; one with a name asks for its keys if and only if the dial is still pending |
| `ChatKeying.DialRun` | client-desktop/src/chat_client.cpp:5596-5800 | a run from a dial over its name and its keys to a live session with nothing pending |
| `ChatKeying.RefusedDialSticks` | client-desktop/src/chat_client.cpp:5704-5716 | a run in which a refused bundle leaves a dial pending and a second request does nothing |
| `ChatAccounting.DrainConserves` | client-desktop/src/chat_client.cpp:3930-4104 | the parking drain keeps the multiset of parked and queued sends, and leaves nothing parked that is 2000 ms old |
| `ChatAccounting.DrainSplits` | client-desktop/src/chat_client.cpp:3930-4104 | what stays parked keeps its order, and what is released goes to the front of the queue, latest first |
| `ChatAccounting.PassConserves` | client-desktop/src/chat_client.cpp:4960-5346 | every send of a pass is wired, put back or in the lost tail; at most one is put back, in the queue or in the lot |
| `ChatAccounting.PassStopsAtFirst` | client-desktop/src/chat_client.cpp:5227-5346 | the pass reaches exactly the sends before the first without a session, unless a ratchet throws before that |
| `ChatAccounting.NothingLostIff` | client-desktop/src/chat_client.cpp:4960-5346 | a pass loses nothing if and only if every send but the last goes out, and the last does too unless it has no session |
| `ChatAccounting.SecondSendIsLost` | client-desktop/src/chat_client.cpp:4961-5346 | a run of three events whose pass leaves the second of two unkeyed sends nowhere |
| `ChatAccounting.SendOneWires` | client-desktop/src/chat_client.cpp:5015-5227 | direct, by a relay or through the server, a send that goes out is wired exactly once, and deposits that relays refuse carry it nowhere |
| `ChatAccounting.ChannelPassStopsAtFirst` | client-desktop/src/chat_client.cpp:4354-4838 | a pass over the channel operations does exactly those before the first invite without a session, unless a ratchet throws before that |
| `ChatAccounting.NoOpLostIff` | client-desktop/src/chat_client.cpp:4349-4791 | a channel pass loses nothing if and only if every operation but the last goes through, and the last does too unless it is an invite without a session |
| `ChatAccounting.OpBehindInviteIsLost` | client-desktop/src/chat_client.cpp:4349-4791 | a run of three events after which the operation behind a waiting invite is in no queue |
| `ChatAccounting.SendOneSucceedsIff` | client-desktop/src/chat_client.cpp:5015-5403 | a send with a session goes out by some way if and only if its ratchet has a send chain |
| `ChatClient.Client.FindLive` | client-desktop/src/chat_client.cpp:2728-2735 | the loop returns the first live session of the key |
| `ChatClient.Client.HasSession` | client-desktop/src/chat_client.cpp:2202-2208 | the loop answers whether any live session has the key |
| `ChatClient.Client.ScanPass` | client-desktop/src/chat_client.cpp:2558-2575 | one loop of the sealed search, updating the sessions in place, is one pass of the specification |
| `ChatClient.Client.Acknowledge` | client-desktop/src/chat_client.cpp:2829-2840 | the first decrypted inbound drops the ciphertext, and every one latches both flags |
| `ChatClient.Client.DecryptUnder` | client-desktop/src/chat_client.cpp:2783-2840 | the associated-data check, decryption and latching are those of the specification |
| `ChatClient.Client.Receive` | client-desktop/src/chat_client.cpp:2725-2840 | finding or keying the session and then decrypting under it are the delivery of the specification |
| `ChatClient.Client.DispatchEnvelope` | client-desktop/src/chat_client.cpp:2455-2840 | the handler is the inbound step of the state machine |
| `ChatClient.Client.AdmitPq` | client-desktop/src/chat_client.cpp:6660-6692 | refuses exactly a downgrade, and pins exactly what it admits with a KEM key |
| `ChatClient.Client.KeyAsAlice` | client-desktop/src/chat_client.cpp:5733-5767 | keying a peer that has no live session gives it one and leaves every peer with at most one |
| `ChatClient.Client.DrainOne` | client-desktop/src/chat_client.cpp:3933-4104 | one parked send stays, or is released with or without a session keyed for it |
| `ChatClient.Client.DrainParking` | client-desktop/src/chat_client.cpp:3930-4104 | the loop over the swapped-out lot is the drain step |
| `ChatClient.Client.DrainSends` | client-desktop/src/chat_client.cpp:4960-5443 | the loop over the swapped-out queue is the send pass, with how far it got and how it ended |
| `ChatClient.Client.DepositWithRelay` | client-desktop/src/chat_client.cpp:5137-5203 | the loop over the relays builds a new envelope for each and stops at the first that takes it |
| `ChatClient.Client.SendAlong` | client-desktop/src/chat_client.cpp:5015-5403 | straight to the peer, else to a relay, else through the server, which alone may throw |
| `ChatClient.Client.RebindSend` | client-desktop/src/chat_client.cpp:4976-4991 | a send to a fingerprint goes to the first live session that has it |
| `ChatClient.Client.SendUnder` | client-desktop/src/chat_client.cpp:5364-5403 | one envelope flagged as its session is, or nothing when the ratchet throws |
| `ChatClient.Client.Defer` | client-desktop/src/chat_client.cpp:5229-5346 | a send without a session is rebound, parked or waits for keys |
| `ChatClient.Client.OnKeyReply` | client-desktop/src/chat_client.cpp:5621-5805 | the handler is the key-reply step, throws included |
| `ChatClient.Client.OnBundle` | client-desktop/src/chat_client.cpp:5700-5805 | refuses a downgrade, keeps a live session, else labels the session before the key agreement that may throw |
| `ChatClient.Client.DropSends` | client-desktop/src/chat_client.cpp:5655-5673 | the loop removes what the specification removes, in order (`ChatKeying.WithoutIs`) |
| `ChatClient.Client.RequestMeshDial` | client-desktop/src/chat_client.cpp:2196-2236 | asks for the username, and leaves a dial pending, once for each peer without a live session |
| `ChatClient.Client.RunChannelOp` | client-desktop/src/chat_client.cpp:4730-4838 | one operation: nothing, a queued direct message, an invite sent under its session, or one put back with its keys asked for |
| `ChatClient.Client.DrainChannelOps` | client-desktop/src/chat_client.cpp:4349-4838 | the loop over the swapped-out channel queue is the channel pass, with how far it got and how it ended |
| `ChatClient.Client.SendMediaSignal` | client-desktop/src/chat_client.cpp:4888-4953 | the handler is the media step, which takes the first session under the key whether it has a ratchet or not |
| `Ratchet.DoubleRatchet.SkipMessageKeys` | core/src/crypto/ratchet.cpp:233-249 | the loop walks the chain, filing the passed keys and evicting the first slot of a full cache; a skip over the limit changes nothing |
| `Ratchet.DoubleRatchet.DecryptMessage` | core/src/crypto/ratchet.cpp:294-360 | the decryption of the specification, with what a failure and a low-order agreement that throws leave behind |
| `Ratchet.DoubleRatchet.TryDecryptMessage` | core/src/crypto/ratchet.cpp:362-395 | a failure leaves the state as it was, except that an exception passes by the rollback |
| `RatchetDelivery.SkipFiles` | core/src/crypto/ratchet.cpp:233-249 | a skip moves only the head of the chain and the cache, and files under every new slot the key of its message |
| `RatchetDelivery.SkipKeepsIff` | core/src/crypto/ratchet.cpp:241-246 | a skip keeps all old and all new slots exactly when they fit in the cache |
| `RatchetDelivery.OpensIff` | core/src/crypto/ratchet.cpp:294-395 | any message the peer ever sent opens, to the body that was sent, if and only if its associated data is unchanged and its key is filed or within the skip limits of the present or next chain; otherwise the receiver is unchanged |
| `RatchetDelivery.OpensOnce` | core/src/crypto/ratchet.cpp:306-343 | a message that was opened is not openable again |
| `RatchetDelivery.HarmlessIff` | core/src/crypto/ratchet.cpp:294-395 | on a message the peer sent, decrypt does what try_decrypt does if and only if the message opens, its key is filed, or a skip is refused before anything has changed |
| `RatchetDelivery.OldDuplicateDiverts` | core/src/crypto/ratchet.cpp:321-331 | an unfiled message of an old chain, decrypted outright, moves the receiver to the old ratchet key, after which no message of any chain opens unless its key is filed |
| `RatchetDelivery.LowOrderHalfway` | core/src/crypto/ratchet.cpp:250-270 | a low-order header key that starts a ratchet step leaves new counters with the old root and send chain, in decrypt and try_decrypt alike |
| `RatchetInvariants.StepKeeps` | core/src/crypto/ratchet.cpp:177-395 | every send, every tried delivery, every harmless plain one and every inert made-up message keeps both parties' keys equal to those their epochs derive, their caches to unread messages passed over, and the wire to what was sent |
| `RatchetInvariants.InertLeavesNoTrace` | core/src/crypto/ratchet.cpp:294-395 | a made-up message that is sealed under no message key, given to try_decrypt, leaves the receiver exactly as it was unless a low-order agreement throws |
| `RatchetInvariants.SendsItsMessage` | core/src/crypto/ratchet.cpp:177-226 | what a party puts on the wire is the message its chain and number stand for |
| `RatchetOnce.DecryptOrderly` | core/src/crypto/ratchet.cpp:233-360 | whatever message a ratchet is given, a body comes from a key it never used before and will never derive or find filed again |
| `RatchetOnce.OpensToWhatWasSent` | client-desktop/src/chat_client.cpp:2805-2818 | in every run, with any mixture of decrypt and try_decrypt and any made-up messages in between, a ciphertext that was sent and that decrypts gives the body, and had the associated data, that were sent |
| `RatchetOnce.NoKeyTwice` | core/src/crypto/ratchet.cpp:233-395 | in every such run no key opens two messages for a party, sent or made up |
| `RatchetOnce.AtMostOnce` | core/src/crypto/ratchet.cpp:294-395 | in every such run a ciphertext that was sent decrypts at most once, under whatever header it comes again and however the receiver was led astray |
| `RatchetTheorems.RunKeeps` | core/src/crypto/ratchet.cpp:139-395 | that holds in every state of every run whose plain deliveries are harmless and whose made-up messages are inert, from the two initialisations on |
| `RatchetTheorems.LosslessIff` | core/src/crypto/ratchet.cpp:233-275 | reading a message loses no other exactly when the cache has room for the keys it passes over |
| `RatchetRuns.OneSkip` | core/src/crypto/ratchet.cpp:241-246 | passing over a message with a full cache drops exactly the slot with the smallest key and number |
| `RatchetRuns.FullCacheLoses` | core/src/crypto/ratchet.cpp:241-246 | a run of 1003 sends and two deliveries that loses message 0 of the chain |
| `RatchetTheorems.NothingIsLost` | core/src/crypto/ratchet.cpp:233-360 | in such a run whose deliveries find room, no message that was passed over ever loses its key |
| `RatchetTheorems.EveryUnreadMessageOpens` | core/src/crypto/ratchet.cpp:294-360 | then every message sent to a party, however late or reordered, opens exactly when it is unread and within the skip limit |
| `RatchetTheorems.DuplicateCostsTheNext` | core/src/crypto/ratchet.cpp:331-395 | a duplicate of a read message changes nothing under try_decrypt, but under decrypt the next message, which was openable, does not open any more |
| `RatchetRuns.DuplicateRun` | core/src/crypto/ratchet.cpp:331-395 | a run of two sends and three deliveries in which a duplicate, decrypted outright, keeps the next message from opening |
| `RatchetRuns.OldDuplicateRun` | core/src/crypto/ratchet.cpp:321-331 | a run of nine events in which a duplicate of an old chain does so |
| `MlsAgreement.AddMemberDoes` | client-desktop/src/chat_client.cpp:3190-3331 | what is staged, committed and sent when the handler stops at each of its four points |
| `MlsAgreement.AddMemberKeeps` | client-desktop/src/chat_client.cpp:3190-3331 | the committer's handler keeps agreement wherever an exception ends it |
| `MlsAgreement.CommitFollows` | client-desktop/src/chat_client.cpp:3437-3459 | a commit that applies takes a member to the next point of the committer's history |
| `MlsAgreement.OwnCommitRefused` | core/src/crypto/mls_facade.cpp:622-631 | the committer refuses its own commits and is unchanged |
| `MlsAgreement.RunKeeps` | client-desktop/src/chat_client.cpp:3190-3489 | agreement holds in every reachable state, over lost, late, repeated and reordered deliveries |
| `MlsAgreement.EveryMemberIsOnHistory` | client-desktop/src/chat_client.cpp:3190-3489 | every member's epoch, roster and key schedule are a point the committer was at, and the member is on its own roster |
| `MlsAgreement.MembersAgree` | core/src/crypto/mls_facade.cpp:467-477 | two members of the same epoch have the same roster and secrets, and an earlier roster is a prefix of a later one |
| `MlsAgreement.JoinsAtItsWelcome` | client-desktop/src/chat_client.cpp:3360-3405 | a join completes exactly at the epoch its Welcome was made for, and its key package is on the committer's roster from that epoch on and not before |
| `MlsAgreement.CatchesUpIff` | client-desktop/src/chat_client.cpp:3437-3489 | in every reachable state a member can still come to the committer's epoch without a new Welcome if and only if, for each epoch from its own on, the commit that ended it and the proposals that commit names were sent; and then some deliveries bring it to the committer's roster and secrets |
| `MlsAgreement.StrandedRun` | client-desktop/src/chat_client.cpp:3206-3277 | a run of five events whose last add gets through, after which the other member can never catch up |
| `MlsAgreement.StuckForever` | client-desktop/src/chat_client.cpp:3206-3277 | when the commit that ended some epoch ahead, or a proposal that commit names, was never sent, no run takes a member past that epoch without a new Welcome |
| `MlsAgreement.TwoCommittersFork` | client-desktop/src/chat_client.cpp:3190-3331 | two members in the same state, as `MlsCommitters.TwoMembers` reaches it, that each add someone else are in the same epoch with different rosters, refuse each other's commit, and no later commits make the rosters equal |
| `MlsCommitters.AddAtIsAddMember` | client-desktop/src/chat_client.cpp:3184-3331 | the handler does the same at any member |
| `MlsCommitters.AgreementIff` | client-desktop/src/chat_client.cpp:3184-3489 | when any member commits, any two groups ever held in the same epoch have the same roster and secrets if and only if at most one commit was made per epoch |
| `MlsCommitters.TwoMembers` | client-desktop/src/chat_client.cpp:3184-3405 | a run of three moves after which two members hold the same group with nothing staged |
| `MlsCommitters.ForkRun` | client-desktop/src/chat_client.cpp:3184-3331 | a run of five moves from the creation of a channel after which two members are in epoch 2 with different rosters and two commits end epoch 1, each refused by the other side |
| `MlsCommitters.ForkStays` | client-desktop/src/chat_client.cpp:3184-3489 | two members whose rosters have parted stay so in every run until one takes a new Welcome |
| `MlsLog.Inserted` | core/src/store/sqlite_store.cpp:1964-1983 | the table stays ordered by its key and holds the old rows and the new one |
| `MlsLog.EffectOf` | core/src/crypto/mls_facade.cpp:553-631 | each mutator changes the group exactly under its guard, and throws after a change only for a proposal in a commit payload |
| `MlsLog.ProposeAddDoes` | core/src/crypto/mls_facade.cpp:590-600 | proposing appends an add of this epoch for whoever is neither member nor staged, and else changes nothing |
| `MlsLog.HandleProposalDoes` | core/src/crypto/mls_facade.cpp:602-605 | handling stages exactly a new proposal of this epoch for a new member |
| `MlsLog.CommitPendingDoes` | core/src/crypto/mls_facade.cpp:607-620 | committing leads to the next epoch with the staged key packages on the roster in order, the secret mixed in and nothing staged |
| `MlsLog.ApplyCommitDoes` | core/src/crypto/mls_facade.cpp:622-631 | applying does the same with the proposals the commit names and its secret if all are staged and the epoch is right; a proposal is staged instead; all else changes nothing |
| `MlsLog.StoredIff` | client-desktop/src/chat_client.cpp:1861-1883 | stored under the next number are exactly the operations that return, when the store takes them |
| `MlsLog.ThrowingRowRestoresNothing` | client-desktop/src/chat_client.cpp:1908-1922 | a stored operation that throws in the replay leaves the channel without a group |
| `MlsLog.CommitterAndMemberAgree` | core/src/crypto/mls_facade.cpp:607-631 | two channels that agree and have the same proposals staged agree again when one commits and the other applies the commit |
| `MlsLog.CreatorStarts` | client-desktop/src/chat_client.cpp:4434-4445 | a creator is alone in epoch 0 with its secret |
| `MlsLog.JoinerAndCommitterAgree` | client-desktop/src/chat_client.cpp:3360-3405 | whoever a Welcome was made for enters exactly where the committer then is, and nobody else enters |
| `MlsLog.RefinesIff` | client-desktop/src/chat_client.cpp:1861-1883 | replaying seed and rows still gives the live group after an operation if and only if the operation changes nothing, or was appended and is not a misfiled proposal |
| `MlsLog.MisfiledProposalIsForgotten` | core/src/crypto/mls_facade.cpp:622-631 | a new channel given a proposal as a commit has it staged and not logged, and a restart forgets it |
| `MlsLog.FailedAppendIsForgotten` | client-desktop/src/chat_client.cpp:1872-1883 | so has one whose append fails |
| `MlsLog.RestartIsIdentity` | client-desktop/src/chat_client.cpp:1911-1922 | a restart gives back the same group, next number, seed and rows |
| `MlsLog.LogRefinesGroup` | client-desktop/src/chat_client.cpp:1852-1922 | over every run of succeeding and throwing mutators and restarts without such an operation, the stored numbers are 0 to next-1 and replaying them gives the live group |
| `MlsLog.ReseedIff` | client-desktop/src/chat_client.cpp:1852-1860 | after seeding, seed and rows give the new group if and only if there were no rows |
| `MlsLog.ReseededNeverLogs` | client-desktop/src/chat_client.cpp:1852-1883 | after a second seeding over rows, no operation of any run is stored until the next restart |
| `MlsLog.MlsChannel.Bootstrap` | client-desktop/src/chat_client.cpp:4434-4445 | creating or joining is the seeding step |
| `MlsLog.MlsChannel.PersistLastOp` | client-desktop/src/chat_client.cpp:1872-1883 | appends the last operation under the next number, or throws and changes nothing |
| `MlsLog.MlsChannel.Apply` | core/src/crypto/mls_facade.cpp:372-417 | mutate, record and append is the operation step |
| `MlsLog.MlsChannel.Restore` | client-desktop/src/chat_client.cpp:1908-1922 | the replay loop is the restart step, and rebuilds the in-memory log |
| `Forwarder.StepKeeps` | client-desktop/src/room_forwarder.cpp:170-229 | every branch joins two leaves of the plan, its source flowing, and ends in the subscriber's present connection |
| `Forwarder.CompleteIff` | client-desktop/src/room_forwarder.cpp:170-200 | an event keeps the branches complete if and only if every link it tries succeeds |
| `Forwarder.CurrentIff` | client-desktop/src/room_forwarder.cpp:233-248 | the branches stay on the sources' present tees if and only if no relayed stream arrives again |
| `Forwarder.StreamArrivesAgain` | client-desktop/src/room_forwarder.cpp:233-248 | a run of four events after which a branch hangs on a tee its source no longer feeds |
| `Forwarder.BranchesAreTheGraph` | client-desktop/src/room_forwarder.cpp:348-465 | over every sequence of joins, arrivals and leaves with links succeeding, the branches are exactly the pairs of different joined leaves whose first is flowing |
| `Forwarder.LeavesAreTheirEvents` | client-desktop/src/room_forwarder.cpp:233-465 | who is known, with which connection and stream, and who is in the plan is what each leaf's own joins, arrivals and leaves say |
| `Forwarder.BranchesAreTheirEvents` | client-desktop/src/room_forwarder.cpp:170-465 | with links succeeding, two leaves have a branch if and only if, by their own events, both are in the plan and the first is flowing |
| `Forwarder.NoBranchTouchesOutsiders` | client-desktop/src/room_forwarder.cpp:442-462 | whatever fails to link, no branch touches a leaf that has left or is not in the plan |
| `Forwarder.PlanIsLeavesIff` | client-desktop/src/room_forwarder.cpp:348-373 | known leaves and plan part exactly when a new leaf's offer does not parse |
| `Forwarder.StuckUntilItLeaves` | client-desktop/src/room_forwarder.cpp:348-351 | such a leaf is never relayed in any run until it leaves |
| `Forwarder.BadOfferSticks` | client-desktop/src/room_forwarder.cpp:348-373 | a run in which a leaf that then offers properly stays out of the plan |
| `Forwarder.RoomForwarder.WireEdge` | client-desktop/src/room_forwarder.cpp:170-213 | wires the edge if it is ready, new and links, and changes nothing else |
| `Forwarder.RoomForwarder.AddLeaf` | client-desktop/src/room_forwarder.cpp:348-411 | the loop over the plan is the join step |
| `Forwarder.RoomForwarder.OnPadAdded` | client-desktop/src/room_forwarder.cpp:233-251 | the loop over the subscribers is the arrival step |
| `Forwarder.RoomForwarder.RemoveLeaf` | client-desktop/src/room_forwarder.cpp:442-465 | the loop over the plan is the leave step |
| `Mesh.LessTotal` | client-desktop/src/chat_client.cpp:2428-2430 | two keys are equal or one is smaller |
| `Mesh.LessIs` | client-desktop/src/chat_client.cpp:2428-2430 | one key is smaller if and only if it has the smaller byte where they first differ, or ends there |
| `Mesh.ElectForwarder` | core/src/media/forwarder.cpp:8-22 | no forwarder below the threshold or without a capable candidate, otherwise one with the best uplink and, among those, the smallest key |
| `Mesh.ElectedIs` | core/src/media/forwarder.cpp:8-22 | with at least six candidates, the elected one has the best positive uplink, and the smallest key among those that share it |
| `Mesh.AllElectTheSame` | client-desktop/src/chat_client.cpp:2281-2298 | participants that see the roster in different orders elect the same forwarder, or all none |
| `Mesh.RoomMesh.ReadRoster` | client-desktop/src/chat_client.cpp:2265-2298 | the peers are the other participants with a well-formed key, the candidates all participants with one |
| `Mesh.RoomMesh.Reconcile` | client-desktop/src/chat_client.cpp:2392-2441 | the mesh set becomes the roster's peers; dropped are those who left, dialed the new ones with a smaller key |
| `Mesh.RoomMesh.ApplyRoster` | client-desktop/src/chat_client.cpp:2241-2441 | mesh, leaf or forwarder: the new mesh set, the dials and the drops of each case |
| `Mesh.ReapplyDoesNothing` | client-desktop/src/chat_client.cpp:2392-2441 | after a roster the mesh set is its peers, and the same roster again dials and drops nobody |
| `Mesh.PairDialedIff` | client-desktop/src/chat_client.cpp:2423-2432 | two participants never both dial, and the pair gets its call if and only if the one with the greater key does not have the other in its mesh set already |
| `Mesh.OneDialerPerPair` | client-desktop/src/chat_client.cpp:2420-2441 | from empty mesh sets each unordered pair has exactly one dialer |
| `Mesh.CallCount` | client-desktop/src/chat_client.cpp:2420-2441 | N clients that enter a room make N(N-1)/2 calls |
| `Mesh.CallsWhenTheyMeet` | client-desktop/src/chat_client.cpp:2392-2441 | over any rosters, a pair makes one call, from one side, at each roster that brings it together, and none at any other |
| `Mesh.OneCallSinceTheyMet` | client-desktop/src/chat_client.cpp:2392-2441 | a pair on the last of any sequence of rosters has made exactly one call since it was last apart |
| `Mesh.OneCallPerMeeting` | client-desktop/src/chat_client.cpp:2392-2441 | over the whole sequence a pair makes as many calls as it was brought together |
| `Mesh.DropsWhenTheyPart` | client-desktop/src/chat_client.cpp:2392-2415 | a client hangs up on another at exactly the rosters that no longer have it after one that did |
| `Mesh.PeersAreTheRoom` | client-desktop/src/chat_client.cpp:2265-2278 | the peers of a client are the keys on the roster other than its own |
| `Mesh.LeafDialsOnce` | client-desktop/src/chat_client.cpp:2361-2389 | while the same forwarder is elected a leaf dials it once, unless already in a call with it, dials nobody else and hangs up on nobody |
| `Mesh.ForwarderOnlyListens` | client-desktop/src/chat_client.cpp:2361-2368 | the forwarder dials nobody and changes nothing |
| `MediaCall.DescribedFirstIff` | client-desktop/src/media_call.cpp:1013-1027 | for caller and callee, no candidate precedes the remote description if and only if no well-formed candidate arrives while the connection is undescribed |
| `MediaCall.CallerAppliesTooEarly` | client-desktop/src/media_call.cpp:850-1027 | a caller whose candidate overtakes the answer applies it before the description |
| `MediaCall.InvIff` | client-desktop/src/media_call.cpp:890-1062 | after any event, applied and waiting candidates make up those received in order, with the connection described, if and only if the event is not one of four named cases |
| `MediaCall.CandidatesAreAppliedInOrder` | client-desktop/src/media_call.cpp:890-1027 | over every interleaving with one successful accept, the callee's connection is given exactly the well-formed candidates among the events, in order, once each, after its description; before the accept they all wait |
| `MediaCall.CalleeCall` | client-desktop/src/media_call.cpp:890-1062 | for any candidates before and after the accept: the description, then all of them in order; then connected is live, and failed or a hang-up closes and drops the connection |
| `MediaCall.CallerCall` | client-desktop/src/media_call.cpp:850-1027 | for any candidates before and after the answer: the former, the description, the latter |
| `MediaCall.ClosedStaysIff` | client-desktop/src/media_call.cpp:973-1062 | a closed call stays closed if and only if the event is neither an offer nor an answer to a connection still there |
| `MediaCall.MediaCall.DrainIce` | client-desktop/src/media_call.cpp:938-942 | the loop applies the buffered well-formed candidates in order and empties the buffer |
| `MediaCall.MediaCall.Accept` | client-desktop/src/media_call.cpp:890-971 | accepting is the accept step, with its three failures |
| `MediaCall.MediaCall.OnAnswer` | client-desktop/src/media_call.cpp:980-1011 | an answer is the answer step |
| `MediaCall.MediaCall.OnIce` | client-desktop/src/media_call.cpp:1013-1027 | a candidate is buffered, applied or dropped |
| `History.LoadRecentHistory` | client-desktop/src/chat_client.cpp:6508-6554 | the result is newest first, has as many rows as the limit allows, and omits no row of the two windows that is newer than a returned one |
| `History.ReadableCounts` | core/src/store/sqlite_store.cpp:1453-1458 | every row that can be decrypted is kept as often as it is there, and no other |
| `History.TopKOfMoreIff` | client-desktop/src/chat_client.cpp:6508-6554 | the newest of some rows are the newest of more rows if and only if enough of the former are as new as each of the rest |
| `History.NewestOfAllIff` | core/src/store/sqlite_store.cpp:1436-1498 | the result is the newest of the whole readable history if and only if, for every readable row beyond a window, the windows hold `limit` readable rows as new as it |
| `History.ReadableWindowsSuffice` | client-desktop/src/chat_client.cpp:6508-6554 | with readable windows no omitted row of the full history is newer than a returned one |
| `History.UnreadableHidesReadable` | core/src/store/sqlite_store.cpp:1453-1458 | one unreadable row can leave the history empty although there is a readable row |

## Left out

- Primitives below the model (X25519, ML-KEM, Argon2id, XChaCha20-Poly1305, SHA-256, Ed25519) are parameters or symbolic terms; secrecy, timing and wiping are not stated.
- Ratchet: 32-bit counters are unbounded, and one symbolic point stands for all points of low order.
- Sessions: the ratchet is opaque there. That a session's ratchet which opened an envelope does not open it again is a premise; `RatchetOnce.AtMostOnce` shows it of the ratchet itself.
- Worker: a key agreement that throws on the server path (`chat_client.cpp` line 5744) or while keying an inbound envelope (2760), and an encryption that throws on the way through the server, end the worker thread. Runs here may go on after such a step, so they include every real run, and the safety theorems hold of more.
- Worker fields that decide nothing else (`peer_x`, `peer_pq_pub`, `initialized_as_alice`), and which addresses and relays the overlay knows, which are parameters of a pass.
- Worker: threads interleave only between handlers; `pending_fetch_targets` is not cleared on reconnect, so runs are within one connection to a server that answers in order.
- Worker: an exception of the ratchet initialisation after the key agreement succeeded is taken not to occur.
- ChatClient.Client.ScanPass: does not model that `try_decrypt` (`chat_client.cpp` line 2515) throws on a header key of low order (`ratchet.cpp` lines 47-53) and ends the worker in the middle of the search; `Ratchet.DoubleRatchet.TryDecryptMessage` models what that leaves of the ratchet.
- ChatClient.Client.DispatchEnvelope: does not model that exception of the sealed search; the same exception of `decrypt` (`chat_client.cpp` line 2809) is taken as a decryption that failed, with the worker going on.
- Channel operations are modelled as far as they are about the queues and direct messages: what creating, joining, leaving and posting do to a channel and to the server is left out, and no exception of theirs occurs.
- Iteration order: a sorted map is iterated in an arbitrary order, which the theorems quantify over.
- Mls: the group library is modelled by what its callers see: epoch, roster, staged proposals and the secrets mixed in; tree hashes, signatures and application messages are not. A message may in addition be refused.
- MlsLog: the silent failure of saving the seed, encryption at rest and the seed's byte format; the joiner's channel metadata, which is not saved.
- Bip39.PhraseToSeed: decomposition, lower-casing and trimming are a parameter, and the split is on ASCII white space, as in the desktop client; the web client also splits on other Unicode white space that survives decomposition.
- Bip39.PhraseRoundTrip: that the normaliser leaves phrases of list words alone is a premise, since the literal wordlist is a parameter.
- Vault: the hexadecimal recovery code and the files on disk.
- Mesh: hang-ups that edit the mesh set, a leave and return between two rosters that both have the client, what becomes of calls when a room changes between mesh and forwarder, and the room keys.
- Forwarder, MediaCall: pipelines, SDP and answers are reduced to whether building, parsing and linking succeed.
- History: rendering of rows, peer names and attachments.
- Qt widgets, notifications, DHT, gossip, relays, Shamir shares, SenderKeys, SFrame and the server.
