# Muninn, modelled in Dafny

Muninn is a directory server for peer-to-peer nodes. This project models the parts of it that keep
state and states what they promise:

- **The in-memory store** (`Store`, `MemoryStores`): peers, the hand-kept `logins` index, the list of
  chunk records and the signal mailboxes. Module `Store` gives each operation as a function from state
  to state; class `MemoryStore` updates its maps and its chunk array in place and is proved equal to
  these functions. Its ghost `history` says that the object is always the result of a run, so
  everything proved about runs holds of every store object.
- **Runs** (`ChunkHistory`, `ChunkLaws`, `Listings`, `Polling`, `Index`, `UniqueKeys`, `Peers`, `Records`,
  `Mailboxes`, `Authorship`): what holds after any sequence of operations. `Witnesses` holds the runs that break a
  promise. **Verdicts** (`Acceptance`, `Verdicts`, `Rejections`): when an operation is accepted, whatever the map
  search finds, what it then does, and which error it reports otherwise.
- **Ranking** (`Scores`, `Ranking`): the effective score in int64 arithmetic, and what is determined
  about the best-peer selections although map order and ties are not.
- **Texts** (`Text`, `Keys`, `Payloads`): chunk keys, peer keys and the four signed payloads, with the
  exact conditions under which they can be read back.
- **Batch requests** (`Batches`), **the signal relay** (`Relay`, `Waiting`, `RelayOrder`, `Letters`, `RelayStore`,
  `RelayHandler`) and **the migration runner** (`Migrations`, `MigrationFiles`).

Conventions. A time is an integer number of nanoseconds; each operation sees one `now`, and runs have a
clock that never goes back (`Timely`). Go enumerates a map in an arbitrary order: an operation that
searches one carries the id the search found (`pick`), and the run theorems hold for every choice.
Signature verification is an arbitrary predicate (`Verifier`). Strings are sequences of characters,
trimmed and lower-cased as ASCII. int64 wrap-around is written out where it can matter: in scores,
peer expiry and chunk expiry.

Where the code departs from what it or its documentation promises, with the exact condition under which it
keeps the promise:

- A peer is visible for its ttl iff the ttl is at most 9,223,372,036 seconds (`Peers.VisibleForItsTtlIff`).
  The next larger ttl hides it at once; 18,446,744,074 hides it within a second (`Peers.OverflowingTtls`).
- A chunk is kept for its lifetime iff it is persistent or creation time plus ttl fits int64; otherwise every
  cleanup drops it (`ChunkLaws.KeptForItsLifetimeIff`).
- README.md of the repository says that a (login, signature) pair belongs to one peer only. The code accepts any
  number of peers with one key (`Witnesses.TwoPeersWithOneKey`); keys stay unique throughout a run iff no
  registration brings a key that another stored peer holds (`UniqueKeys.UniqueThroughoutIff`).
- README.md of the repository also says that empty keys do not overwrite stored ones, which reads as if others
  did; a repeated registration overwrites neither key, whatever it brings (`Peers.IdentityPinned`).
- A file id with a '#' can be registered and confirmed, but never marked as read or listed under its own name
  (`ChunkLaws.ReadWithHashFails`, `ChunkLaws.ListedUnderItsFileIff`). Its chunks go under the part before the '#'
  instead: a read of "a" marks a chunk of "a#b", and the listing of "a" shows it (`Witnesses.StrayIsReadAndListed`).
  Reads and listings are exact iff there is no such stray (`ChunkLaws.ReadMarksOnlyRegisteredIff`,
  `ChunkLaws.ListingIsExactIff`).
- A client that merges successive polls holds the whole current list throughout iff no round polls an entry and
  leaves out another one with the same immutable fields (`Polling.KnowsThroughoutIff`); registering one chunk
  twice brings that about (`Witnesses.TwinIsLost`). Whatever it holds is current or gone in any case
  (`Polling.MergingRebuildsTheList`).
- Every refresh of a stored peer adds an entry to the index that no later operation takes out; the index is exact
  iff the run had no such refresh (`Index.ExactIffNoRefresh`).
- When an older socket of a peer closes, the newer one is unregistered (`Relay.ReconnectionLosesThePeer`); relays
  find every open socket throughout iff no peer reconnects early (`Relay.ReachableIffNoReconnects`).
- A letter can wait in the mailbox of a connected peer. None ever does iff no letter is stored for a peer whose
  registered socket has already drained (`Waiting.NoneWaitsIffNoneStoredLate`); such a letter's request was
  overtaken by the connection (`Waiting.OvertakenLetterWaits`), its write failed, or it was posted
  (`Waiting.WhyLettersWait`).
- When signature keys hold a ':', the order in which a map is searched can decide whether a chunk is accepted
  (`Witnesses.ColonsMakePicksMatterInARun`); a key leads to one signer iff it holds a single ':'
  (`Acceptance.SameSignerIffOneColon`).
- A batch registration ignores the ttl of its entries (`Batches.BatchTtlIsDefault`).
- A reported payload determines its fields only up to the number of newlines in the source id
  (`Payloads.ReportedDetermines`, `Payloads.ReportedAmbiguous`).
- The key split of the database store panics on a key without ':', for it takes the second of one part
  (peer_store.go:188-190); it finds the right pair iff the login holds no ':' (`Keys.SplitUndoesPeerKeyIff`).

## Model

| member | source | states |
|---|---|---|
| Keys.ValidHashFormat | internal/store/hash.go:12-22 | the scanning loop accepts exactly the texts of 16 lower-case hex digits |
| Keys.HashTexts | internal/store/hash.go:12-22 | these are the texts of sixteen of the characters 0123456789abcdef |
| Text.TrimIs | internal/store/memory.go:49-65 | trimming takes tabs, line feeds, vertical tabs, form feeds, carriage returns and blanks off both ends, and nothing else |
| Text.LowerIs | internal/store/hash.go:8-10 | lower-casing maps A to Z to a to z and leaves every other character |
| Keys.ChunkKeyInjective | internal/store/hash.go:24-26 | two chunks share a key only if file id and index agree, '#' in file ids included |
| Keys.ParsedFileId | internal/store/memory.go:520-527 | parsing a chunk key yields the file id up to its first '#' |
| Keys.ParseUndoesChunkKey | internal/store/memory.go:520-527 | parsing gives back file id and index, for every int64 index, iff the file id holds no '#' |
| Keys.RegisteredFileOf | internal/store/hash.go:24-26 | the file id a key was made for is what stands before its last '#' |
| Keys.PeerKeyDetermines | internal/model/peer.go:28-30 | a key determines login and signature key when signature keys hold no ':' |
| Keys.PeerKeyUniqueIffNoColon | internal/model/peer.go:28-30 | a key belongs to a single (login, signature key) pair iff neither part holds a ':' |
| Keys.KeyPinsSignatureIff | internal/model/peer.go:28-30 | all pairs with a key have the same signature key iff the key holds one ':' |
| Keys.SplitUndoesPeerKeyIff | internal/store/peer_store.go:188-190 | the database store's split of a key finds the pair it was made of iff the login holds no ':' |
| Payloads.ExpectedDetermines | internal/sign/sign.go:17-19 | equal expected payloads have equal file id, index and hash, newlines in file ids included |
| Payloads.ConfirmedDetermines | internal/sign/sign.go:27-29 | the same for confirmed payloads |
| Payloads.ReadDetermines | internal/sign/sign.go:32-34 | the same for read payloads |
| Payloads.ReportedDetermines | internal/sign/sign.go:22-24 | equal reported payloads have equal fields iff their source ids hold equally many newlines, so always when these have none |
| Payloads.ReportedAmbiguous | internal/sign/sign.go:22-24 | two different reports with one payload |
| Payloads.KindsNeverCoincide | internal/sign/sign.go:17-34 | payloads of different kinds differ, for any field values |
| Payloads.SignedTexts | internal/sign/sign.go:17-34 | the four signed texts, written out |
| Scores.ComputeEffectiveScore | internal/store/store.go:30-41 | the multiplication loop computes the int64 value that the other results speak about |
| Scores.SignedPowerSign | internal/store/store.go:28-41 | the intended score has the sign of the quality score for every flag |
| Scores.SignedPowerMonotone | internal/store/store.go:28-41 | with one flag, a higher quality score gives a strictly higher intended score |
| Scores.HeavierFlagAmplifies | internal/store/store.go:43-54 | thin, thick and very_thick are ordered upwards for non-negative and downwards for non-positive scores, strictly from 2 and from -2 on |
| Scores.EffectiveScores | internal/store/store.go:28-54 | for scores that do not overflow the result is the signed square for "thick", the cube for "very_thick" and the score itself for every other flag |
| Scores.FitsIffPowerInRange | internal/store/store.go:30-41 | the exact range of quality scores whose power is an int64, per flag |
| Scores.ExactIffFits | internal/store/store.go:30-41 | the computed score equals the intended power iff the quality score is in that range |
| ChunkHistory.NextSound | internal/store/memory.go:48-603 | every operation keeps the store invariant: peers filed under their id with score 1000 + valid - invalid, entries with valid hashes, positive ttls and ordered stamps, only first entries confirmed |
| ChunkHistory.RunSound | internal/store/memory.go:48-603 | the invariant holds after every run |
| ChunkHistory.EntriesEvolve | internal/store/memory.go:264-603 | over any run an entry keeps its identity, its marks are never taken back, it is restamped whenever it changes, keeps its place, and disappears only when expired |
| ChunkHistory.PollMissesNothing | internal/store/memory.go:448-482 | after any run, each record of a recipient is one known at time t, unchanged, or is returned by a poll from t |
| ChunkHistory.PollingKeepsUp | internal/store/memory.go:448-482 | every current record is among those a client collects that always polls from its previous poll time |
| Polling.SurvivesIff | internal/store/memory.go:587-603 | over any run an entry survives iff every cleanup of the run keeps it |
| Polling.KnowsThroughoutIff | internal/store/memory.go:448-482 | over any rounds of polling and merging, the client holds the whole current list after every round iff in no round an entry that the poll leaves out has a twin that it returns |
| Polling.HeldIsCurrentOrGone | internal/store/memory.go:448-482 | over any rounds, every held record is current or no current record is of its chunk |
| Polling.MergingRebuildsTheList | internal/store/memory.go:448-482 | the same for all held records; and if no two current entries of the recipient have the same immutable fields, every current record is held |
| Polling.StillKnowsIff | internal/store/memory.go:448-482 | a client that knew the whole list knows it after the next merge iff no entry that the poll leaves out has a twin that it returns |
| Listings.RecipientListing | internal/store/memory.go:448-482 | the listing by recipient fails iff the recipient is blank; otherwise it shows, field by field and in order, exactly the recipient's entries stamped at dateFrom or later |
| Listings.FileListing | internal/store/memory.go:484-518 | the listing by file id fails iff that is blank; otherwise it shows exactly the entries whose file id is, up to its first '#', the one asked for |
| Listings.AnswerIsInclusive | internal/store/memory.go:458-460 | an entry stamped in the very second of dateFrom is in the answer |
| Listings.AnswersMissNothing | internal/store/memory.go:448-482 | each record of a later answer was in the earlier answer, or is in the answer from the earlier time |
| Listings.AnswersKeepUp | internal/store/memory.go:448-482 | however often it polls, a client has collected every record of the current answer |
| Listings.MergedAnswersRebuildTheList | internal/store/memory.go:448-482 | the rebuilding of the list, for a client that calls the operation |
| Listings.AnswersKnownIff | internal/store/memory.go:448-482 | such a client holds the whole answer after every round iff no entry loses to a twin |
| Witnesses.TwinIsLost | internal/store/memory.go:263-281 | a run that registers a chunk twice and confirms it, after which the merging client lacks a current record |
| ChunkLaws.OnlyTheFirstIsEverConfirmed | internal/store/memory.go:369-391 | after any run at most one entry per chunk and recipient is confirmed, and it is the one a confirmation finds |
| ChunkLaws.EmptyHashMeansUnknown | internal/store/memory.go:309-318 | the empty expected hash means exactly that no entry has the key; otherwise it is the hash of the first one |
| ChunkLaws.CleanupIsAFilter | internal/store/memory.go:587-603 | a cleanup leaves each kept entry as often as before, no other, in order, and returns the difference in length |
| ChunkLaws.CleaningTwice | internal/store/memory.go:592-601 | cleaning at t1 and then at t2 >= t1 is cleaning at t2 |
| ChunkLaws.KeptForItsLifetimeIff | internal/store/memory.go:595-598 | an entry is kept for its whole lifetime iff it is persistent or creation time plus ttl fits int64; otherwise no cleanup at any time keeps it |
| ChunkLaws.ReadWithHashFails | internal/store/memory.go:428-443 | marking a file id with a '#' as read fails and changes nothing |
| ChunkLaws.ReadMarksExactlyTheFile | internal/store/memory.go:428-446 | a successful read marks an entry iff it is the recipient's and the file id it was registered for is, up to its first '#', the one read |
| ChunkLaws.ReadMarksOnlyRegisteredIff | internal/store/memory.go:428-446 | the recipient's marked entries are those registered for the file iff none of the recipient's entries is a stray of it: registered for that file id, a '#', and more |
| ChunkLaws.ReadTouchesOnlyItsFileIff | internal/store/memory.go:428-446 | the state after a read differs only in entries registered for the file iff every such stray was already marked in that second |
| ChunkLaws.AnswersTo | internal/store/memory.go:430-434 | an entry answers to a file id iff that is its own up to the first '#' |
| ChunkLaws.ListedUnderItsFileIff | internal/store/memory.go:484-518 | an entry is listed under its file with its fields intact iff the file id has no '#' |
| ChunkLaws.ListingIsExactIff | internal/store/memory.go:484-518 | the listing of a file is that of the entries registered for it iff no entry is a stray of it |
| ChunkLaws.ListingWithHashIsEmpty | internal/store/memory.go:484-518 | the listing of a file id with a '#' is empty |
| ChunkLaws.StrayWitness | internal/store/memory.go:430-434 | a chunk of "a#b" is a read target of "a" and listed under "a" |
| Witnesses.StrayIsReadAndListed | internal/store/memory.go:407-518 | a run that registers a chunk of "a#b" only and reads "a", after which the chunk is marked and is listed under "a" and not under "a#b" |
| Index.IndexLaw | internal/store/memory.go:72-110 | over any run an id occurs under a key once if stored with it, plus once per refresh that named it with that key |
| Index.ExactIffNoRefresh | internal/store/memory.go:96-110 | the index mirrors the peers after a run iff the run refreshed no stored peer |
| Index.GetByKeyReturns | internal/store/memory.go:123-150 | the exact multiplicity of every peer in the answer of a key lookup, after any run |
| Index.LiveAmongSplits | internal/store/memory.go:136-145 | the answer keeps the order of the index list, leaving out peers that are not live |
| Index.FirstIsRemoved | internal/store/memory.go:618-625 | removing an id takes its first occurrence out and leaves everything else in place |
| Index.LatestComesLast | internal/store/memory.go:48-110 | a registration or refresh puts the id last in the list of its key, after taking its old occurrence out if the key is the same |
| Index.GetByKeyAgreesWithScan | internal/store/memory.go:123-150 | without refreshes the lookup succeeds iff the scan finds a peer, and returns each live holder once and nobody else |
| Index.ReRegistrationMovesThePeer | internal/tests/memory_test.go:134-166 | registering a stored peer under another login makes it found under that login with its first signature key, and no longer under the old login; a lookup with another signature key that the request brought answers only with other peers stored under that key |
| UniqueKeys.UpsertKeepsUniqueIff | internal/store/memory.go:48-94 | a registration keeps all keys unique iff no other stored peer holds the key it brings, which for a stored peer has the stored signature key |
| UniqueKeys.UniqueThroughoutIff | internal/store/memory.go:48-603 | keys are unique at every moment of a run iff no registration of the run brings a key that another stored peer holds |
| Witnesses.TwoPeersWithOneKey | internal/store/memory.go:48-94 | two registrations, both accepted, with one login and one signature key |
| Peers.NextPeerStep | internal/store/memory.go:48-603 | what one event can do to one peer record: who may appear, disappear, be credited or be touched |
| Peers.ScoreLedger | internal/store/memory.go:72-396 | score = 1000 + valid - invalid and valid + invalid = accepted reports and confirmations since creation, over any run |
| Peers.ScoreStaysExact | internal/store/store.go:30-41 | with at most 2,096,151 credited events no product in the effective score overflows |
| Peers.IdentityPinned | internal/store/memory.go:72-81 | until a deletion, keys and fake mark never change and the counters never shrink |
| Records.RecordsFollowTheRequests | internal/store/memory.go:48-194 | after any run a peer is stored iff it was registered and not deleted since; its record has the keys and fake mark of the first registration since then, the login of the last, the last flag given, and the time and ttl of the last touch |
| Records.FirstRecord | internal/store/memory.go:48-94 | a new record, field by field: ttl 300 unless a positive one is asked for, score 1000, empty counters |
| Records.RenewedRecord | internal/store/memory.go:72-81 | a registration of a stored peer, field by field |
| Records.RevivedRecord | internal/store/memory.go:96-194 | a refresh renews the time only; a heartbeat also a positive ttl, and returns the stored record |
| Peers.VisibleForItsTtl | internal/store/memory.go:179-228 | after a heartbeat or registration a peer whose ttl does not overflow is found for its whole ttl, whatever else happens, short of a deletion or a later ttl that is smaller or overflows |
| Peers.VisibleForItsTtlIff | internal/store/memory.go:179-228 | it is so found in every continuation iff its ttl is at most MAX_TTL |
| Peers.UnexpiredForItsTtlIff | internal/store/memory.go:222-228 | a single record is unexpired from its last touch to the end of its ttl iff the ttl is at most MAX_TTL |
| Peers.OverflowingTtls | internal/store/memory.go:222-228 | one overflowing ttl that hides a peer at once, and one that hides it within a second |
| Peers.ExpiresExactly | internal/store/memory.go:222-228 | a peer whose ttl does not overflow is expired iff more than its ttl has passed since it was seen, 300 seconds if the ttl is not positive |
| Peers.FoundExactlyForItsTtl | internal/store/memory.go:112-228 | after a heartbeat or registration that leaves d seconds, until the next touch: a peer is found at no time after d seconds, and at every time before unless it is deleted |
| Peers.HiddenUntilTouched | internal/store/memory.go:112-228 | a peer that is not live is found by no Get, GetByKey, scan, List or ranking at any later time until an event touches it |
| Mailboxes.MailboxIsAQueue | internal/store/memory.go:529-556 | polled signals followed by the pending ones are the initial ones followed by the accepted ones, in order, over any run |
| Mailboxes.FailureChangesNothing | internal/store/memory.go:48-556 | an operation that reports an error leaves the whole store unchanged |
| Acceptance.SetChunkIgnoresPick | internal/store/memory.go:254-261 | registering a chunk has the same result and state whichever holder of the key is found, without ':' in signature keys |
| Acceptance.ReadIgnoresPick | internal/store/memory.go:418-426 | the same for marking as read |
| Acceptance.ConfirmIgnoresPicks | internal/store/memory.go:360-404 | the same verdict and chunk list for every choice of recipient and sender |
| Acceptance.SameSignerIffOneColon | internal/store/memory.go:627-634 | over all peer maps, reachable or not, a key leads to one signer iff the key holds a single ':' |
| Acceptance.ColonsMakePicksMatter | internal/store/memory.go:627-634 | a store in which the search order decides whether a signature is accepted |
| Witnesses.ColonsMakePicksMatterInARun | internal/store/memory.go:241-261 | a run of two registrations after which the search order decides whether a chunk is accepted |
| Acceptance.NoColonOverRuns | internal/store/memory.go:60-81 | the hypothesis holds over runs whose registrations bring no ':' |
| Acceptance.ConfirmMovesTotalByDelta | internal/store/memory.go:380-396 | the total score of all holders of the sender's key changes by exactly Delta, that of any other key not at all |
| Authorship.EntriesAreAttested | internal/store/memory.go:241-446 | after any run, every entry was registered by an event signed by a then live holder of its sender key over its file id, index and hash; every confirmed one was confirmed, and every read one marked, by an event signed by a then live holder of its recipient key |
| Verdicts.SetChunkAcceptedIff | internal/store/memory.go:241-261 | a chunk is accepted iff the request is well formed and signed by a live holder of the sender's key |
| Verdicts.RegisteredChunkIsListed | internal/store/memory.go:263-281 | an accepted chunk adds one record at the end of its recipient's list, with its fields, unconfirmed and unread, and nothing to any other list; file id and index are intact iff the file id has no '#' |
| Verdicts.ReportAcceptedIff | internal/store/memory.go:284-323 | a report is accepted iff it is well formed, both peers are stored, the reporter signed it and the chunk is registered |
| Verdicts.ReportVerdict | internal/store/memory.go:309-342 | a report is judged by the first registration of the chunk, moves its source by one point and changes nothing else; the answer holds the given hash, the point and the updated record |
| Verdicts.ConfirmAcceptedIff | internal/store/memory.go:345-383 | a confirmation is accepted iff it is well formed, signed by a live holder of the recipient's key, and the sender of the recipient's first entry of the chunk is live |
| Verdicts.ConfirmVerdict | internal/store/memory.go:369-404 | a confirmation is judged by that first entry; if valid, it alone becomes confirmed and restamped, with its other fields unchanged; a live holder of the sender's key moves by one point; the answer holds the given hash, the point and the updated record |
| Verdicts.ReadAcceptedIff | internal/store/memory.go:407-446 | a read is accepted iff it names a file, is signed by a live holder of the recipient's key, and some entry of the recipient answers to the file |
| Rejections.SetChunkErrors | internal/store/memory.go:241-261 | which error a chunk registration reports, iff which condition holds |
| Rejections.ReportErrors | internal/store/memory.go:284-323 | the same for reports |
| Rejections.ConfirmErrors | internal/store/memory.go:345-383 | the same for confirmations |
| Rejections.ReadErrors | internal/store/memory.go:407-443 | the same for reads |
| Rejections.PeerErrors | internal/store/memory.go:48-194 | registrations and refreshes fail for blank ids only, deletions and heartbeats for ids that are not stored |
| Rejections.LookupErrors | internal/store/memory.go:123-150 | a lookup by key fails as invalid iff a part of the key is blank, and otherwise iff no listed peer is live |
| Rejections.SignalErrors | internal/store/memory.go:529-556 | a signal is accepted iff its target is stored and sender and kind are given; a poll fails iff the id is blank |
| Ranking.BestPeers | internal/store/memory.go:196-220 | the selection has min(n, eligible) distinct eligible peers, best first, and nobody omitted outscores anybody listed |
| Ranking.DecoratedBestPeers | internal/store/peer_store.go:363-396 | the decorated sort of the database store meets the same specification |
| Ranking.RankedBy | internal/store/store.go:28-54 | peers are ranked by their score, its signed square if thick, its cube if very thick |
| Ranking.WhoIsEligible | internal/store/memory.go:196-210 | unexpired peers that are not fake; for the thick selection only "thick" and "very_thick" ones |
| Ranking.TopScoresAreDetermined | internal/store/memory.go:212-219 | any two such selections show the same scores, and a shorter one's scores are a prefix of a longer one's |
| Ranking.ClearWinnersAreListed | internal/store/memory.go:212-219 | a peer with fewer than n rivals is in every selection of n |
| MemoryStores.RemoveID | internal/store/memory.go:618-625 | removes the first occurrence |
| MemoryStores.MemoryStore.Upsert | internal/store/memory.go:48-94 | the new maps and the result are those of the step function |
| MemoryStores.MemoryStore.Refresh | internal/store/memory.go:96-110 | the same for a refresh |
| MemoryStores.MemoryStore.Get | internal/store/memory.go:112-121 | finds a stored, unexpired peer |
| MemoryStores.MemoryStore.GetByKey | internal/store/memory.go:123-150 | the loop collects the live peers behind the index list |
| MemoryStores.MemoryStore.Delete | internal/store/memory.go:152-163 | removes the peer and one index entry |
| MemoryStores.MemoryStore.List | internal/store/memory.go:165-177 | all unexpired peers that are not fake, each once, in any order |
| MemoryStores.MemoryStore.Heartbeat | internal/store/memory.go:179-194 | renews the time and, if positive, the ttl |
| MemoryStores.MemoryStore.GetBestPeers | internal/store/memory.go:196-220 | a best selection of the stored peers |
| MemoryStores.MemoryStore.GetBestThickPeers | internal/store/memory.go:558-585 | a best selection of the stored thick and very thick peers |
| MemoryStores.MemoryStore.FindByKey | internal/store/memory.go:627-634 | the scan finds some live holder of the key whenever there is one |
| MemoryStores.MemoryStore.SetChunkHash | internal/store/memory.go:241-282 | state and result of the step function for a legal pick |
| MemoryStores.MemoryStore.ReportChunk | internal/store/memory.go:284-343 | the same for a report |
| MemoryStores.MemoryStore.ConfirmChunk | internal/store/memory.go:345-405 | the same for a confirmation, with the entry changed in place |
| MemoryStores.MemoryStore.ReadChunk | internal/store/memory.go:407-446 | the same for marking as read, with the entries changed in place |
| MemoryStores.MemoryStore.GetChunksByRecipient | internal/store/memory.go:448-482 | the loop collects the recipient's records stamped from dateFrom on |
| MemoryStores.MemoryStore.GetChunksByFileID | internal/store/memory.go:484-518 | the loop collects the records whose key parses to the file id |
| MemoryStores.CompactInPlace | internal/store/memory.go:592-601 | writing into the array that is being read leaves exactly the kept entries, in order, at its front |
| MemoryStores.MemoryStore.DeleteExpiredChunks | internal/store/memory.go:587-603 | the compacted list and the number of dropped entries are those of the cleanup step |
| MemoryStores.MemoryStore.SetSignal | internal/store/memory.go:529-541 | appends to the mailbox of a stored peer |
| MemoryStores.MemoryStore.PollSignals | internal/store/memory.go:543-556 | returns and empties the mailbox |
| Batches.RegisterChunkBatch | internal/handler/phonebook.go:187-201 | applies exactly the entries before the first failing one, in order, and reports success iff there is none |
| Batches.ConfirmChunkBatch | internal/handler/phonebook.go:247-260 | the same for confirmations |
| Batches.BatchAppends | internal/handler/phonebook.go:187-201 | the applied entries of a registration batch are appended in order, each with the fields the batch gives it and the default ttl |
| Batches.BatchTtlIsDefault | internal/handler/phonebook.go:188-195 | chunks registered in a batch get the default ttl whatever their entries say |
| Relay.EveryScheduleConserves | internal/webrtc/handler.go:76-205 | conservation and addressing hold under every interleaving of the actions |
| Relay.RelayedExactlyOnce | internal/webrtc/handler.go:137-205 | a relay answered with a result has its letter in exactly one place, written or stored but not both; other letters are nowhere |
| Relay.WrittenToTheAddressee | internal/webrtc/handler.go:84-205 | what is written to a socket was addressed to the peer that opened it |
| Relay.OpeningKeepsReachableIff | internal/webrtc/handler.go:84-86 | a new connection leaves every open socket reachable iff its peer has no other open one |
| Relay.ReachableIffNoReconnects | internal/webrtc/handler.go:84-110 | relays find every open socket throughout a schedule iff no peer opens a socket while an older one of it is open |
| Relay.OldSocketUnregistersNew | internal/webrtc/handler.go:105-110 | an old socket that closes makes the newer one of its peer unreachable |
| Relay.ReconnectionLosesThePeer | internal/webrtc/handler.go:84-110 | a schedule of two connections and one disconnection that ends with a serving socket no relay finds |
| Waiting.NoneWaitsIffNoneStoredLate | internal/webrtc/handler.go:84-205 | at no moment of a schedule a letter waits for a peer whose registered socket has drained, iff the schedule stores no letter for such a peer |
| Waiting.WhyLettersWait | internal/webrtc/handler.go:84-205 | under every schedule, a letter waiting for a peer with a registered socket was posted, or its write failed, or it was looked up before that socket opened; and if the socket has drained the mailbox, the letter was stored afterwards |
| Waiting.OvertakenLetterWaits | internal/webrtc/handler.go:84-194 | a schedule in which a connection overtakes a request, whose letter then waits for a serving socket |
| RelayOrder.LettersQueue | internal/webrtc/handler.go:87-157 | for every peer and schedule, what its sockets drained and its polls took, in order, followed by its mailbox, is the list of letters stored for it, in order of storing |
| RelayOrder.DrainedIsWritten | internal/webrtc/handler.go:90-102 | what a socket drained is written to it in that order, each letter once |
| RelayOrder.ServedSocketsHaveWritten | internal/webrtc/handler.go:87-102 | under every schedule, a socket that serves its peer or has closed has written all that it drained, and one that is draining has letters left and can write |
| RelayOrder.FlushesLeadToServing | internal/webrtc/handler.go:90-102 | as many writes as letters are left, failing or not, bring it to serve, with all of them written in order |
| RelayOrder.StoredSignalReachesTheSocket | internal/webrtc/handler.go:84-102 | a schedule in which a stored signal is written to the socket of the peer that connects next |
| Letters.LettersWereSent | internal/webrtc/handler.go:76-205 | under every schedule, every letter anywhere was sent by a request with that target and signal |
| RelayStore.MailboxesAreTheStores | internal/webrtc/handler.go:87-157 | under every schedule the relay's mailboxes hold the signals that the store holds after the SetSignal, PollSignals, Upsert and Delete calls of the schedule, in the same order |
| RelayStore.StoreMirrors | internal/store/memory.go:529-541 | a relayed letter ends in the mailbox iff the store accepts its signal |
| RelayStore.TakenIsPolled | internal/webrtc/handler.go:87-89 | what a connecting socket drains, and what a poll takes, is what the store's poll returns |
| RelayHandler.Handler.Register | internal/webrtc/handler.go:84-86 | registering a socket is the Open action |
| RelayHandler.Handler.DrainMailbox | internal/webrtc/handler.go:87-89 | polling on connect is the Drain action, with the signals to be written |
| RelayHandler.Handler.WriteDrained | internal/webrtc/handler.go:90-102 | one unchecked write is the Flush action |
| RelayHandler.Handler.Unregister | internal/webrtc/handler.go:105-110 | the deferred deletion is the Close action |
| RelayHandler.Handler.LookupConn | internal/webrtc/handler.go:187-194 | looking the target up is the Lookup action |
| RelayHandler.Handler.SetSignal | internal/webrtc/handler.go:153-157 | storing is the Store action and succeeds iff the letter ends in the mailbox |
| RelayHandler.Handler.HandleSignalRelay | internal/webrtc/handler.go:137-160 | the handler by itself reports a result iff it wrote directly or stored, and writes directly iff the target is connected and the write succeeds |
| RelayHandler.Handler.PollSignals | internal/store/memory.go:543-556 | an HTTP poll is the Poll action |
| Migrations.ParsesItsOwnNames | internal/store/migration.go:36-45 | a file name made of id, '_', description and suffix is parsed into them when the id holds no '_' |
| Migrations.SkippedNames | internal/store/migration.go:36-45 | a file is skipped iff its name has no '_' or starts with one |
| Migrations.PlanOfDriver | internal/store/migration.go:148-160 | the plan of a driver names, in order, exactly the migrations with a script for that driver |
| Migrations.Database.RunMigrations | internal/store/migration.go:143-176 | the loop is the run of the planned ids, for either driver; the object stays the result of its startups |
| Migrations.RunSafe | internal/store/migration.go:143-176 | one startup, with any faults and a partial reading of the records, keeps the records a prefix of the plan |
| Migrations.CrashSafety | internal/store/migration.go:129-176 | over any sequence of startups: prefix, everything recorded was run, at most the next one unrecorded, and each ran once if recorded plus once per interruption |
| Migrations.NothingLeftToRun | internal/store/migration.go:129-176 | after a successful startup everything is recorded, and a later one runs nothing iff it reads all records |
| Migrations.FirstStartupCompletesIffDistinct | internal/store/migration.go:143-176 | on an empty database a startup without faults succeeds iff the ids are distinct |
| MigrationFiles.BeforeTotal | internal/store/migration.go:53-55 | the order of file names is total and strict |
| MigrationFiles.BeforeIffAscends | internal/store/migration.go:53-55 | the order is ascending: a proper prefix comes first, and so does the smaller character at the first difference |
| MigrationFiles.LoadedAscending | internal/store/migration.go:47-85 | of two files the one whose name is smaller at the first difference is loaded first |
| MigrationFiles.LoadsTheFilesWithAnId | internal/store/migration.go:58-64 | exactly the listed files with something before their first '_' are loaded |
| MigrationFiles.PlannedAscending | internal/store/migration.go:47-176 | and it comes first in the plan of either driver, if both have a script for it |
| MigrationFiles.ScriptsOf | internal/store/migration.go:66-81 | each driver's script is the trimmed content of the file in its directory; a missing PostgreSQL file stands for an empty one |
| MigrationFiles.SortedOrderIsUnique | internal/store/migration.go:53-55 | a listing of names has one sorted order |
| MigrationFiles.LoadMigrations | internal/store/migration.go:47-85 | the loop loads, for any listing order, the migrations of the one sorted order, skipping names without an id |
| MigrationFiles.SameFilesSameMigrations | internal/store/migration.go:47-55 | listings of the same names stand for the same migrations |
| MigrationFiles.LoadAndRun | internal/store/migration.go:47-176 | a startup from a directory listing is the run of the planned ids; over any startups of a database the records stay a prefix of the plan, complete after a success |

## Left out

- SQL and the database drivers: their meaning depends on the engines; only the key split and the decorated sort of the database store are modelled.
- HTTP, JSON, routing, status codes and logging: plumbing around the modelled operations.
- Ed25519 and Base64: verification is an arbitrary predicate.
- Several readings of the clock inside one operation, and readings before the lock is taken: each operation has one time.
- Unicode white space and letter case: trimming and lower-casing are ASCII.
- Index lists as slices with shared backing arrays: the lists of the `logins` map are values; the chunk slice is an array.
- Data races of `Refresh` and of the two mutexes around `wsConns`, and `CloseAll`: map accesses are atomic.
- The object of the store behind the relay: the relay model keeps the mailboxes and the ids of stored peers itself; `RelayStore` proves them equal to those of the store's step functions.
- `handleConnectToPeer` as a separate handler: it is a relay from the connected peer with the type "offer".
- Other requests between the calls of a batch: a batch runs by itself.
- int64 overflow of the report counters and the quality score: it needs more than 2^62 accepted reports.
- `SetPeerScore`, `copyStrings`, `Health` and migration checksums: test hooks, unused or trivial.
- Unsupported drivers and failures to create the version table: such a startup runs nothing.
- Migrations.CrashSafety: assumes distinct migration ids, as the source's files have; with a repeated id no first startup succeeds (Migrations.FirstStartupCompletesIffDistinct).
