# altdb verification

altdb is an ADB-over-TLS server made of a root supervisor and an unprivileged network worker. This project models
the parts of it whose promises are about every run, and proves those promises with Dafny 4.11. Check it with
`dafny verify dfyconfig.toml`.

Every part is written twice where the program changes state: as functions from state to state, about which the
promises are proved, and as classes and methods with the program's fields and loops, each proved to compute its
function.

* **Packets and streams** (`Bytes`, `Protocol`, `Streams`, `Mux`, `MuxInvariant`, `MuxTheorems`, `Closing`, `Dialogue`,
  `Transport`). One authenticated connection: the packet codec, the incremental parser, the stream table, the service
  pass and the reverse acceptor. The service behind a stream is an adversary with a script: each write takes any
  prefix, blocks or fails; each read yields any bytes, blocks, ends or fails. Clocks are arbitrary numbers.
* **State files** (`Documents`, `FileSystem`, `Commit`, `Store`, `Restarts`). A directory whose visible entries are
  kept apart from what a crash would leave: every unsynced directory change may be lost or kept on its own, an
  unsynced file is torn. Every operation of the commit may fail. `Restarts` follows the store over any number of
  changes, crashes at any point of them, and starts.
* **Supervisor** (`Supervisor`, `SupervisorInvariant`, `SupervisorTheorems`, `Histories`, `Announcements`, `Daemon`).
  Control orders, worker requests, pairing windows, root switching, expiry, rotation, reaping and restarting, over the
  store above.
* **Supervisor and worker** (`Worker`, `Network`, `System`, `SystemInvariant`, `SystemTheorems`, `Reading`, `Delivery`,
  `Stranded`, `Peers`, `SystemExample`). Two processes joined by ordered queues. `Broker::call` is seven separate steps;
  connection threads, pairing threads, the worker's main loop and the supervisor interleave in any order; either
  process may stop at any point.
* **mDNS** (`Mdns`). Name decompression, the record writer, the announcement and the query filter. Names are their
  UTF-8 bytes (section 4.1.4 of RFC 1035, section 10.2 of RFC 6762, section 4 of RFC 3629).
* **Pairing, settings monitor, file transfer** (`Pairing`, `Monitor`, `Sync`).

Where the code and its description differ, the code is modelled:

* The documentation says that revoking a computer disconnects it immediately. The supervisor cuts its transports and
  processes at once, but the connection itself ends only when the worker reads a host list without it. If that list
  cannot be sent the connection goes on, for this host and no other, until the worker is replaced or a later list
  goes out (`SystemTheorems.UncoveredExactlyWhen`, `SystemTheorems.MissedIsHistory`,
  `SystemTheorems.RevocationUncoversExactlyWhen`, `SystemExample.ServedAfterUnsentRevocation`).
* docs/ARCHITECTURE.md gives a service at most one second to finish after a stream is closed. A repeated CLSE starts
  that second again: a stream outlives it exactly when another CLSE came within a second before the pass
  (`Closing.ClosingIsTimedFromLastClose`; `Closing.CloseMayBeRenewed` is a run in which a stream is still there two
  seconds after it was closed).
* Remote stream IDs are distinct among streams the peer opened, not over all streams
  (`MuxTheorems.RemotesMayCollide`, `MuxTheorems.AcknowledgementKeepsRemotesDistinctExactlyWhen`).
* A question for the device's own name is compared in lower case with a name that is not, so a name with an
  upper-case letter is never recognised (`Mdns.OwnNameIsRecognisedExactlyWhen`; `Mdns.CapitalNameIsNotRecognised` is
  one). Identities are generated as `altdb-`
  and lower-case hexadecimal digits (src/crypto.rs:144), so such a name arises only from an edited identity.json,
  which `open` does not check.
* A commit that reaches the rename and then can neither sync the directory nor put the old file back leaves memory
  and disk apart (`Store.AgreementLostExactlyWhen` gives the condition on the disk, the names and the outcomes of the
  operations; `Store.AgreementIsLost` is an input that meets it).
* A pairing that was refused because the directory could not be synced may be trusted after a crash and a restart
  (`Store.RefusedHostIsTrustedAgainExactlyWhen`; `Store.RefusedHostReturns` is an input). Over whole lives of the
  service, being offered in a commit that reaches the rename is the only way to become trusted, and it is one
  (`Restarts.TrustIsEarnedAcrossRestarts`, `Restarts.OfferedHostMayBeTrusted`).
* A saved configuration that leaves the addresses alone ends the worker and starts another. If that start fails, the
  order is answered with an error, but the service stays in the state it was in, running included, without a worker
  and without a way to open a pairing window, until something else stops or restarts it
  (`Announcements.WorkerlessExactlyWhen`; `SystemExample.RunningWithoutWorker` is such a run).
* The supervisor may keep a transport, one of eight, although its connection has ended: exactly when the connection
  gave up waiting for an admission that was granted, or could not send that it is gone
  (`Stranded.StrandedExactlyWhen`, `SystemExample.TransportMayBeStranded`). While the worker lives, only the
  revocation of its host frees it (`Stranded.StrandedUntilRevoked`).

## Model

| member | source | states |
|---|---|---|
| Protocol.Sum | src/protocol.rs:66-72 | the checksum loop is the wrapping 32-bit sum of the payload |
| Protocol.WritePacket | src/protocol.rs:62-88 | the writer emits the six header words and the payload, or refuses exactly the payloads over 1 MiB |
| Protocol.WriteThenRead | src/protocol.rs:40-88 | a written packet within the reader's limit is read back as itself, leaving what follows it |
| Protocol.ReadAcceptsExactlyWrites | src/protocol.rs:40-60 | with checksums on, a byte string is read as a packet exactly when it starts with that packet as written |
| Protocol.UncheckedReadAcceptsExactly | src/protocol.rs:40-60 | with checksums off, a byte string is read as a packet exactly when it starts with that packet under some sum |
| Protocol.PacketOnTheWire | src/protocol.rs:62-88 | a packet octet by octet: little-endian words, the sum of its octets modulo 2^32, the flipped command; written exactly up to a mebibyte |
| Protocol.CommandsAreLetters | src/protocol.rs:7-16 | helper: the six commands are their four letters on the wire |
| Protocol.PrefixIsTruncated | src/protocol.rs:40-60 | every proper prefix of a written packet is refused as truncated |
| Protocol.ChunkingIrrelevant | src/unix/transport.rs:268-282 | packets, residue and error of the incremental parser depend only on the concatenated input |
| Protocol.ResidueIsShort | src/unix/transport.rs:268-282 | what the parser leaves is shorter than one maximal packet |
| Protocol.WritesAreFramed | src/unix/transport.rs:268-282 | the concatenated output of the writer is cut into exactly those packets, in order, with nothing left |
| Streams.EnqueueAppends | src/unix/transport.rs:72-76 | an accepted payload goes to the end of what is undelivered |
| Streams.FlushConserves | src/unix/transport.rs:78-96 | whatever the socket takes, bytes delivered followed by bytes undelivered are what was undelivered before |
| Streams.FlushStopsForAReason | src/unix/transport.rs:78-96 | a socket that keeps taking bytes gets all of them |
| MuxInvariant.HandleKeeps | src/unix/transport.rs:284-374 | no packet, however malformed, breaks the accounts of the stream table |
| MuxInvariant.ParseKeeps | src/unix/transport.rs:268-282 | no input breaks the accounts, and the parser stops only when nothing more can be cut |
| MuxInvariant.ServeKeeps | src/unix/transport.rs:416-471 | no service pass breaks the accounts, whatever the services do |
| MuxInvariant.AcceptKeeps | src/unix/transport.rs:543-587 | accepting reverse connections keeps the accounts |
| MuxTheorems.StepKeeps | src/unix/transport.rs:150-179 | every action of the connection loop keeps the invariant |
| MuxTheorems.DeliveryIsFifo | src/unix/transport.rs:71-97 | in every run, delivered bytes then queued bytes are the accepted payloads of a stream in order |
| MuxTheorems.RemovalIsOrderly | src/unix/transport.rs:416-471 | a stream is removed once, with one final CLSE; if removed within a second of its last CLSE it has delivered everything; end of file is announced only with nothing unacknowledged |
| MuxTheorems.ClosingLeavesWhenDrainedOrLate | src/unix/transport.rs:440-445 | a closing stream leaves exactly when it is drained or more than a second late |
| MuxTheorems.OneWriteInFlight | src/unix/transport.rs:446-463 | WRTEs minus acknowledgements is one exactly while waiting, their payloads are the bytes read, none above its limit |
| MuxTheorems.DrainAcknowledgementsAreEarned | src/unix/transport.rs:427-437 | acknowledgements of drained queues, with the packets still queued, never exceed the non-empty WRTEs accepted; the others are exactly one for a peer's OPEN and one for each empty WRTE |
| MuxTheorems.RemovedIdsStaySilent | src/unix/transport.rs:461-469 | after the final CLSE of an ID no OPEN, OKAY, WRTE or final CLSE names it |
| MuxTheorems.TableShape | src/unix/transport.rs:186-374 | at most 64 streams below the next ID; no remote ID exactly while opening; an opening stream is empty; peer-opened streams have distinct remote IDs |
| MuxTheorems.NewIdsAreFresh | src/unix/transport.rs:258-266 | every new stream has an ID that was never used before |
| MuxTheorems.OpenAcknowledgementIsExpected | src/unix/transport.rs:316-330 | the check that an opening stream has no remote ID yet never fires |
| MuxTheorems.AcknowledgementKeepsRemotesDistinctExactlyWhen | src/unix/transport.rs:319-321 | the acknowledgement of a reverse OPEN keeps all remote IDs distinct exactly when its ID is not in use |
| MuxTheorems.RemotesMayCollide | src/unix/transport.rs:284-321 | a run of three actions after which two streams share a remote ID |
| MuxTheorems.QueuesAreBounded | src/unix/transport.rs:331-356 | queued packets stay within 8 MiB over all streams and 64 a stream |
| MuxTheorems.InputLimitNeverFires | src/unix/transport.rs:151-163 | the input queue limit cannot be reached |
| MuxTheorems.HandleIgnoresInput | src/unix/transport.rs:284-374 | helper: handling a packet does not look at unparsed input |
| MuxTheorems.ParseAppend | src/unix/transport.rs:268-282 | parsing in two parts is parsing the whole, with every effect of handling |
| MuxTheorems.ReadsMayBeCutAnywhere | src/unix/transport.rs:150-168 | however the peer's bytes are cut into reads, the connection ends in the same state or the same error |
| MuxTheorems.WrittenPacketsAreHandled | src/unix/transport.rs:268-282 | what the writer put out is handled as exactly those packets, in order, up to the first that is refused, and nothing is left over |
| Closing.ServeRemovesExactly | src/unix/transport.rs:416-471 | a service pass removes exactly the streams whose own turn asks for it |
| Closing.ClosingIsTimedFromLastClose | src/unix/transport.rs:362-445 | in every run, a closed stream with data queued stays exactly while its last CLSE is at most a second old, and outlives a second after its first exactly when a later one came within a second before the pass |
| Closing.CloseMayBeRenewed | src/unix/transport.rs:362-445 | a run in which a stream is still in the table two seconds after its first CLSE |
| Dialogue.PacketsReachThePeersStream | src/unix/transport.rs:284-374 | in every run, every packet of a stream carries the ID its peer told for it in an OPEN or an acknowledging OKAY; our OPEN carries none, and only the CLSE of a stream never acknowledged carries none |
| Dialogue.PacketAcceptedExactlyWhen | src/unix/transport.rs:284-374 | which packets end the connection: about a stream in the table only its peer may speak, it acknowledges what is unacknowledged and writes within the budget; packets about other streams are harmless |
| Dialogue.PacketIsAnswered | src/unix/transport.rs:284-374 | an accepted packet is answered with nothing or one packet to its sender's ID: the opening or refusing answer to an OPEN, the CLSE of a WRTE to a missing stream, the OKAY of an empty one; all other streams stay as they are |
| Dialogue.SocketsAreAnnounced | src/unix/transport.rs:543-587 | the accepted sockets that fit the table become streams under the next IDs, each announced with its listener's target |
| Dialogue.TurnEndsExactlyWhen | src/unix/transport.rs:416-471 | a turn asks for removal for each reason exactly when that reason is true |
| Dialogue.TurnSaysExactly | src/unix/transport.rs:416-471 | any other turn delivers what the service takes, acknowledges a queue exactly when it was just emptied, and sends on exactly what the service gives, in one packet to the peer's ID |
| Dialogue.PassIsEveryTurn | src/unix/transport.rs:416-471 | a pass gives every stream its own turn and nothing else; those that ask for it are removed with one CLSE to the peer's ID |
| Dialogue.PassFailsAndWorksExactlyWhen | src/unix/transport.rs:416-471 | a pass fails exactly when there is something to write and TLS does not take it, and reports work exactly when a turn moved something or ended |
| Transport.Stream.Enqueue | src/unix/transport.rs:72-76 | the method appends to the queue or refuses the 65th packet |
| Transport.Stream.FlushPending | src/unix/transport.rs:78-96 | the loop leaves queue, offset and socket as the specification says |
| Transport.Connection.Allocate | src/unix/transport.rs:258-266 | the next ID, or an error when IDs are exhausted |
| Transport.Connection.QueuedBytes | src/unix/transport.rs:332-339 | the loop over all queues is the sum of whole queued packets |
| Transport.Connection.HandleOpen | src/unix/transport.rs:286-315 | table, output and error after an OPEN |
| Transport.Connection.HandleOkay | src/unix/transport.rs:316-330 | table and error after an OKAY |
| Transport.Connection.HandleWrte | src/unix/transport.rs:331-361 | table, output and error after a WRTE |
| Transport.Connection.HandleClse | src/unix/transport.rs:362-370 | table and error after a CLSE |
| Transport.Connection.Handle | src/unix/transport.rs:284-374 | the dispatch, with the same state and the same error |
| Transport.Connection.Parse | src/unix/transport.rs:268-282 | the loop cuts and handles packet after packet |
| Transport.Connection.Receive | src/unix/transport.rs:154-164 | one read of the connection loop |
| Transport.Connection.Services | src/unix/transport.rs:416-471 | scan, events and removals of one service pass |
| Transport.Connection.ReverseAccept | src/unix/transport.rs:543-587 | one pass over the accepted reverse sockets |
| Documents.StoredKeyKeepsFingerprint | src/unix/store.rs:166-171 | the key as stored has the fingerprint of the key as offered |
| Documents.PairingIsSound | src/unix/store.rs:166-182 | pairing succeeds exactly for a valid key with room for its host, adds exactly that host and produces a list `open` accepts |
| Documents.NewHostIsAsOffered | src/unix/store.rs:173-192 | a new host is stored last, with the first word of its key alone, a printable name of at most 128 characters, its time and no connection; refused exactly for a long, zero-bearing or invalid key or a full list |
| Documents.NameIsCutComment | src/crypto.rs:97-103 | a name is the first 128 characters of the comment, control characters not counted |
| Documents.RevokingIsExact | src/unix/store.rs:188-194 | revoking removes exactly the entries of the fingerprint, in order |
| Documents.ConnectingTouchesOneTime | src/unix/store.rs:200-206 | recording a connection succeeds exactly for a known host and changes one time |
| FileSystem.CrashIsPossible | src/unix/store.rs:44-60 | a crash leaves one of the entries collected from what is durable and what is pending |
| FileSystem.PossibleIsReached | src/unix/store.rs:44-60 | each of those entries is left by some crash |
| Commit.AtomicKeeps | src/unix/store.rs:33-85 | every disk on the way of a commit is safe and the outcome describes the last, whatever fails |
| Commit.AtomicKeepsSound | src/unix/store.rs:33-85 | nothing that can be found under a state file is ever torn or unsynced |
| Commit.CrashLeavesOldOrNew | src/unix/store.rs:33-85 | after a crash at any point the target is the complete new document or exactly what could be there before |
| Commit.OutcomeDescribesTarget | src/unix/store.rs:43-85 | success is visible and survives any crash; failure shows the old state; only a failed rollback shows the new one, and keeps the old under the backup name |
| Commit.SavesWhenNothingFails | src/unix/store.rs:33-85 | a commit saves and leaves no hidden file when no operation fails |
| Commit.OneFailureLeavesNothing | src/unix/store.rs:67-74 | a commit one of whose operations up to the second directory sync fails leaves no hidden file and no new name |
| Commit.OutcomeIsDecidedByScript | src/unix/store.rs:33-85 | which operations work decides the outcome: saved exactly when the first eight do, not rolled back exactly when the first seven do and the next two do not |
| Commit.NewMayBeFoundExactlyWhen | src/unix/store.rs:43-85 | a crash after the call may find the new document exactly when the rename happened and was not both undone and synced |
| Store.Volume.Atomic | src/unix/store.rs:33-85 | the commit, operation by operation, does what its specification says |
| Store.AlterKeepsTrust | src/unix/store.rs:159-210 | no change makes memory or disk something `open` would refuse |
| Store.AgreementLostExactlyWhen | src/unix/store.rs:159-210 | memory and disk agree after a change unless, decided before it by disk, names and operations, it writes something new, reaches the rename and neither the sync nor the rollback works; memory changes only on success |
| Store.AgreementIsLost | src/unix/store.rs:73-85 | from a fresh store with agreement, a change after which memory and disk differ |
| Store.RunKeepsAgreement | src/unix/store.rs:159-210 | memory and disk agree after any run of changes none of which meets that condition |
| Store.SparseFailuresKeepAgreement | src/unix/store.rs:159-210 | in particular while no two operations fail one after the other |
| Store.DoneWhenNothingFails | src/unix/store.rs:159-210 | without failures a change succeeds exactly when its checks pass |
| Store.ResultIsDecidedBeforehand | src/unix/store.rs:165-214 | helper: whether a change is made, refused, not saved or left inconsistent, decided by its checks, the disk and the operations |
| Store.PairedHostIsDurable | src/unix/store.rs:166-186 | a pairing that succeeded survives any crash and drops nobody |
| Store.RefusedPairingReturnsExactlyWhen | src/unix/store.rs:33-186 | a crash may leave a host file with a host whose pairing was refused exactly when the rename happened, the directory was not synced, and the undoing failed or was not synced |
| Store.RevokedHostIsGone | src/unix/store.rs:188-198 | a revocation that succeeded survives any crash and touches nobody else |
| Store.ReopenAcceptsAfterAnyCrash | src/unix/store.rs:123-149 | after a crash at any point of any run every state file found is whole and passes the checks of `open` |
| Store.OpenEstablishes | src/unix/store.rs:101-157 | what `open` returns agrees with the disk; it fails only when a first document cannot be committed |
| Store.OpenReadsOrCreates | src/unix/store.rs:124-152 | what `open` returns is what the files held, or the first configuration, no hosts and the new identity; the documents are then in their files |
| Store.FirstStartWorks | src/unix/store.rs:101-162 | helper: the first start works if no operation fails |
| Store.RestartKeepsSound | src/unix/store.rs:101-157 | a crash turns a sound disk into a sound one |
| Store.CrashThenOpen | src/unix/store.rs:101-157 | crash anywhere in any run, and the store opens again |
| Store.OpenTrustsWhatIsFound | src/unix/store.rs:101-157 | after a crash `open` trusts exactly the hosts of the host file that was left |
| Store.RefusedHostIsTrustedAgainExactlyWhen | src/unix/store.rs:33-186 | there is a crash after which `open` succeeds and trusts a refused host exactly in the case above |
| Store.RefusedHostReturns | src/unix/store.rs:33-186 | the first pairing of a fresh store under such a script is refused, and some crash and start trust its host |
| Restarts.NeverFoundWithoutRename | src/unix/store.rs:33-85 | a commit that does not reach the rename passes through no disk where a crash finds its document |
| Restarts.RenameMayBeFound | src/unix/store.rs:60-60 | one that reaches it passes through a disk where a crash may find its document |
| Restarts.OnlyOffersAreListed | src/unix/store.rs:159-210 | no disk a change passes through lists someone new, in place or after a crash, unless it is a pairing of their key that reaches the rename |
| Restarts.TrustIsEarnedAcrossRestarts | src/unix/store.rs:33-210 | over changes, failures, crashes at any point and starts in any order, whoever is trusted at the end was listed at the start or offered in a pairing whose commit reached the rename |
| Restarts.CleanWhenSettled | src/unix/store.rs:101-157 | helper: at a start where memory and disk agree and nothing is unsynced, who is listed is who is trusted |
| Restarts.OfferedHostMayBeTrusted | src/unix/store.rs:33-186 | conversely, whatever becomes of such a pairing, a crash at some point of it and a start trust the host |
| Store.Store.Configure | src/unix/store.rs:159-164 | the method changes memory only after the commit |
| Store.Store.Pair | src/unix/store.rs:166-186 | the method changes the host list in memory only after the commit |
| Store.Store.Revoke | src/unix/store.rs:188-198 | the method filters the hosts in a loop and changes memory only after the commit |
| Store.Store.Connected | src/unix/store.rs:200-210 | the method searches the host and changes memory only after the commit |
| SupervisorInvariant.AlterEffects | src/unix/store.rs:159-210 | what each change of the store leaves in memory |
| SupervisorInvariant.OrderKeeps | src/unix/daemon.rs:245-331 | no control order breaks authorisation, privilege, limits, sockets or pairing counts |
| SupervisorInvariant.ServeKeeps | src/unix/daemon.rs:432-532 | no request of the worker breaks them |
| SupervisorInvariant.ReapingKeeps | src/unix/daemon.rs:667-672 | reaping only drops or stops services and breaks none of them |
| SupervisorInvariant.StepKeeps | src/unix/daemon.rs:592-758 | no step of the main loop breaks them |
| SupervisorTheorems.EveryRunIsAuthorised | src/unix/daemon.rs:147-180 | in every run transports are stored hosts, running services belong to transports, no worker means none of either, and the limits of 8, 32 and 80 hold |
| SupervisorTheorems.EveryRunIsPrivileged | src/unix/daemon.rs:182-198 | in every run root implies the setting allows it, and no service in the table was started under settings changed since |
| SupervisorTheorems.EveryRunCountsPairings | src/unix/daemon.rs:249-277 | an epoch commits at most one host and counts at most ten failures; an open window is the current epoch with failures to spare |
| SupervisorTheorems.RunningHasSockets | src/unix/daemon.rs:249-257 | a supervisor that says it runs, or has a worker, has listening sockets, so opening a window cannot panic |
| SupervisorTheorems.OldEpochsChangeNothing | src/unix/daemon.rs:500-510 | helper: a result for any other epoch than the open window's changes nothing |
| SupervisorTheorems.PairingConfirmedExactlyWhen | src/unix/daemon.rs:500-521 | helper: a pairing is confirmed exactly when its window is open and in time, the store committed and both messages went out |
| SupervisorTheorems.ConfirmedHostIsCommitted | src/unix/daemon.rs:500-521 | a confirmed host is in memory and, after any crash, in the host file |
| SupervisorTheorems.RevocationIsImmediate | src/unix/daemon.rs:304-314 | a saved revocation removes the host's transports, stops their services and touches no other |
| SupervisorTheorems.RevocationIsAnnounced | src/unix/daemon.rs:315-323 | helper: the worker is sent the remaining hosts, or the caller gets an error |
| SupervisorTheorems.ReconfigurationEndsSessions | src/unix/daemon.rs:282-303 | a changed configuration leaves no session, service, window or root behind |
| SupervisorTheorems.TrustChangesOnlyByRuling | src/unix/daemon.rs:245-531 | a host is gained only by a pairing in the open window and lost only by its own revocation; the configuration changes only by an order |
| SupervisorTheorems.TrustIsEarned | src/unix/daemon.rs:592-758 | over a run, whoever is trusted at the end was so at the start or was committed by a pairing |
| SupervisorTheorems.RequestsTouchOnlyTheirTransport | src/unix/daemon.rs:432-532 | a request never touches another transport or its services |
| SupervisorTheorems.ServicesStartAsAllowed | src/unix/daemon.rs:342-430 | helper: a service starts only for a registered transport with room, under a new number and the privileges in force; a refused one leaves nothing that may run |
| SupervisorTheorems.AdmissionExactlyWhen | src/unix/daemon.rs:434-446 | without disk failures a connection is admitted exactly when its host is trusted, its number new and there is room |
| SupervisorTheorems.RootIsGainedOnlyOnRequest | src/unix/daemon.rs:470-498 | root is gained only at the request of a registered transport while allowed, and a restart is then due |
| SupervisorTheorems.RotationRenewsEverything | src/unix/daemon.rs:627-633 | helper: a rotation ends every session and service; root stays as asked unless the worker cannot start |
| SupervisorTheorems.ReapingIsExact | src/unix/daemon.rs:667-672 | after reaping the table holds exactly what has not exited, with the overdue stopped |
| Histories.RootIsAsAsked | src/unix/daemon.rs:470-499 | a request for root, or to give it up, is granted exactly when its transport is registered and the settings allow it; root is then as asked, and a change is due to restart everything half a second later |
| Histories.StepMoves | src/unix/daemon.rs:182-758 | what each step leaves of root, the due restart, the pairing window and the delay after errors, exactly |
| Histories.RootIsWhatWasLastAsked | src/unix/daemon.rs:470-499 | after any run root is on exactly when it was granted and since then neither given up, nor ended by a saved configuration or a stop |
| Histories.RestartIsDueSince | src/unix/daemon.rs:487-499 | a restart is due exactly when root was switched and nothing restarted since, half a second after the switch |
| Histories.WindowIsOpenSince | src/unix/daemon.rs:249-281 | a pairing window is open exactly when an order opened it and nothing shut it since; it ends five minutes after its order |
| Histories.PairingNeedsAWindow | src/unix/daemon.rs:500-529 | a pairing result is granted only within five minutes of the order that began its epoch |
| Histories.ErrorsDelayTheNextStart | src/unix/daemon.rs:182-198 | the n-th error delays the next start by 2^n seconds, 64 at most; the count is never set back |
| Histories.ServiceStartsExactlyWhen | src/unix/daemon.rs:342-430 | the exact condition on which a service starts |
| Histories.ClosedServiceEndsInASecond | src/unix/daemon.rs:452-458 | a service asked to close is stopped by the first reaping a second later, and the request touches no other |
| Histories.ReverseIsTakenBack | src/unix/daemon.rs:462-469 | a listener taken back is stopped, and nothing else changes |
| Histories.StoppedServicesHoldNothing | src/unix/daemon.rs:52-67 | in every run a stopped service has let go of its reverse listener |
| Histories.ConfigurationIsOrdered | src/unix/daemon.rs:282-303 | the configuration is always the first one or one that was ordered |
| Histories.PrivilegeMustBeOrdered | src/config.rs:30-40 | from a fresh installation's settings, nothing runs with root or may ask for it unless an order allowed it |
| Announcements.StepSettles | src/unix/daemon.rs:140-758 | what each step asks of the store, and the messages it sends the worker, in order, or that a new worker starts; state, epoch and sockets |
| Announcements.OrderIsConfirmedExactlyWhen | src/unix/daemon.rs:245-331 | which control orders are answered with an error |
| Announcements.WorkerlessExactlyWhen | src/unix/daemon.rs:282-303 | after any run, a service with listening sockets has no worker exactly when none could be started under the last saved configuration and nothing stopped or restarted since; it stays in the state of before, running included |
| Daemon.Daemon.EndWorker | src/unix/daemon.rs:147-180 | the worker's window, services and transports go with it |
| Daemon.Daemon.Halt | src/unix/daemon.rs:182-198 | state, back-off and everything that stops |
| Daemon.Daemon.Launching | src/unix/daemon.rs:200-226 | a new worker with the current hosts, or nothing |
| Daemon.Daemon.BeginPairing | src/unix/daemon.rs:249-277 | the window that opens, or what is left when a step fails |
| Daemon.Daemon.Reconfigure | src/unix/daemon.rs:282-303 | the configuration order |
| Daemon.Daemon.DropHost | src/unix/daemon.rs:306-314 | cutting a host's transports one by one is cutting them together |
| Daemon.Daemon.Expel | src/unix/daemon.rs:304-324 | the revocation order |
| Daemon.Daemon.Obey | src/unix/daemon.rs:245-331 | the dispatch of control orders |
| Daemon.Daemon.Drop | src/unix/daemon.rs:333-340 | one transport and its services |
| Daemon.Daemon.Count | src/unix/daemon.rs:352-359 | the loop counts the services of a transport |
| Daemon.Daemon.SpawnService | src/unix/daemon.rs:342-430 | checks, privileges and table entry of a started service |
| Daemon.Daemon.Authenticate | src/unix/daemon.rs:434-446 | admission of a transport |
| Daemon.Daemon.SetRoot | src/unix/daemon.rs:470-499 | root switching and its answer |
| Daemon.Daemon.Conclude | src/unix/daemon.rs:500-529 | the pairing result |
| Daemon.Daemon.Grant | src/unix/daemon.rs:432-532 | the dispatch of requests |
| Daemon.Daemon.Receive | src/unix/daemon.rs:643-662 | a message of the worker |
| Daemon.Daemon.CheckRotation | src/unix/daemon.rs:627-633 | the restart after a root switch |
| Daemon.Daemon.Reap | src/unix/daemon.rs:667-672 | the loop over the services |
| Daemon.Daemon.Begin | src/unix/daemon.rs:719-733 | stopping and starting on new addresses |
| Daemon.Daemon.Take | src/unix/daemon.rs:592-758 | every step of the loop does what the step of the specification does |
| Network.Network.Cut | src/unix/worker.rs:168-179 | a host list stops exactly the connections whose peer is not on it |
| Network.Network.Deliver | src/unix/worker.rs:163-167 | a reply goes to the call that waits for it |
| Network.Network.Hear | src/unix/worker.rs:158-208 | the messages of the supervisor |
| Network.Network.Retain | src/unix/worker.rs:209-209 | finished connections are dropped |
| Network.Network.AcceptConnection | src/unix/worker.rs:218-250 | a connection with the hosts known at that moment |
| Network.Network.AcceptClient | src/unix/worker.rs:264-293 | a pairing client of the open window |
| Network.Network.ListCall | src/unix/worker.rs:47-63 | the peer table is entered before the request is sent |
| Network.Network.PostCall | src/unix/worker.rs:66-73 | the request is sent, or the call fails |
| Network.Network.ReturnCall | src/unix/worker.rs:78-84 | a failed authentication leaves the peer table |
| Network.Network.Turn | src/unix/worker.rs:145-297 | a whole turn of the worker's loop is a run of the steps of its specification, after at most one message |
| SystemInvariant.CallStepKeeps | src/unix/worker.rs:44-86 | no step of a call breaks reply matching, the peer table or the cover of revoked hosts |
| SystemInvariant.ConnStepKeeps | src/unix/transport.rs:104-184 | no step of a connection thread does |
| SystemInvariant.PairStepKeeps | src/pairing.rs:33-65 | no step of a pairing thread does |
| SystemInvariant.ReceiveKeeps | src/unix/worker.rs:158-208 | reading a message does not |
| SystemInvariant.StepCovers | src/unix/daemon.rs:304-323 | a supervisor step that takes a host out of the list puts the new list on its way, unless it could not be sent |
| SystemInvariant.NextKeeps | src/unix/worker.rs:145-297 | every action of the two processes keeps the invariant of the whole |
| SystemTheorems.RevocationReachesEveryConnection | src/unix/worker.rs:56-63 | in every interleaving, an uncancelled connection serves a trusted host, or a list without that host is on its way, or the list after that host's own last revocation could not be sent |
| SystemTheorems.UncoveredExactlyWhen | src/unix/daemon.rs:304-323 | in every run, a served host is neither trusted nor about to be stopped exactly when its own revocation was missed and it was not paired again |
| SystemTheorems.MissedIsHistory | src/unix/daemon.rs:304-323 | a host is missed exactly when some action of the run revoked it, its list was not sent, and since then the worker stayed the same with no list without it on its way |
| SystemTheorems.SentRevocationsReachEveryConnection | src/unix/daemon.rs:304-323 | if every revocation of a host could send, a connection that serves it is trusted or about to be stopped, in every run |
| SystemTheorems.RevocationUncoversExactlyWhen | src/unix/daemon.rs:304-323 | in any state, a host is uncovered after an order to revoke it exactly when no list without it was on its way and it was saved but could not be sent, or was not saved and the host was not trusted before |
| SystemTheorems.ReadListsLeaveOnlyTrusted | src/unix/worker.rs:168-179 | with no list on its way, whoever still serves is trusted, except a host whose own revocation was missed |
| SystemTheorems.HostListCutsExactly | src/unix/worker.rs:168-179 | reading a list stops a serving connection exactly when its host is not on it |
| SystemExample.RevokedHostMayBeServed | src/unix/daemon.rs:315-322 | from any trusted store there is a run that ends with a revoked host still served and nothing on its way |
| SystemExample.ServedAfterUnsentRevocation | src/unix/daemon.rs:315-322 | there is such a run on a disk that never fails |
| SystemTheorems.AnswersMatchRequests | src/unix/worker.rs:64-86 | a call that returns an answer returns the ruling on its own request; pending entries are outstanding calls |
| SystemTheorems.RepliesComeOnce | src/unix/worker.rs:163-167 | a reply is the only one for its call, which has received none; a request is answered once |
| Stranded.StrandedExactlyWhen | src/unix/transport.rs:129-182 | in every run, the supervisor keeps a transport whose connection has ended, with nothing on its way to say so, exactly when its authentication call returned an error or the call that says it is gone could not be sent |
| Stranded.StrandedUntilRevoked | src/unix/daemon.rs:304-340 | such a transport keeps its place under every action of either process that keeps the worker, except an order to revoke its own host |
| SystemExample.TransportMayBeStranded | src/unix/worker.rs:74-84 | from any trusted store on a disk that never fails there is a run that ends with one |
| SystemExample.RunningWithoutWorker | src/unix/daemon.rs:294-300 | from any trusted store on a disk that never fails there is a run after which the service says that it runs and has no worker |
| SystemTheorems.ConfirmedClientsAreCommitted | src/unix/worker.rs:272-283 | a client is sent the device's information only after its own result was granted in its open window and its host committed to the file |
| SystemTheorems.SupervisorHoldsThroughout | src/unix/daemon.rs:634-662 | whatever the worker does, the supervisor's invariant holds |
| SystemTheorems.TurnIsRun | src/unix/worker.rs:145-297 | what that method promises is a run of the two processes, so everything proved of runs holds of it |
| Reading.WorkerFollowsWhatItRead | src/unix/worker.rs:158-208 | in every run the worker's host list is the last it read, and its window the one its messages leave |
| Reading.ConnectionsHaveTheListOfTheirAcceptance | src/unix/worker.rs:218-250 | each connection goes by the list read last before it was accepted |
| Reading.HandshakeAcceptsExactly | src/unix/transport.rs:123-132 | a connection can authenticate as a host exactly when that list holds it |
| Reading.AcceptingUsesTheLastList | src/unix/worker.rs:169-169 | a connection accepted after a list was read goes by that list |
| Reading.ClientsNeedAListeningWindow | src/unix/worker.rs:264-293 | a pairing client is accepted exactly while the window its messages leave takes clients and none is active |
| Reading.LeavingStopsEverybody | src/unix/worker.rs:299-305 | once the loop is left everybody has been told to stop, and nobody new is accepted |
| Reading.ThreadsSpeakForThemselves | src/unix/worker.rs:218-293 | connections ask only about themselves, clients report only on their own epoch, and at most eight connections are open |
| Reading.ReplyReachesItsCall | src/unix/worker.rs:74-86 | a reply is given to the call that waits for it, and to nobody otherwise |
| Peers.ListedExactlyWhen | src/unix/worker.rs:44-86 | in every run the worker lists a connection under a host exactly while its authentication as that host has begun and not failed, and it has not begun to say that it is gone |
| Peers.AcceptedExactlyWhen | src/unix/worker.rs:218-250 | a connection is accepted exactly while fewer than eight are open, under a number never used |
| Peers.FinishedAreForgottenUnlistedStopped | src/unix/worker.rs:209-217 | helper: the loop forgets exactly the connections that have ended, and stops only unlisted ones |
| Peers.FailuresAreReported | src/unix/worker.rs:272-283 | in every run a pairing client whose exchange is over was sent the device's information whole, or its failure was reported under its epoch |
| Delivery.SentListIsTheTrusted | src/unix/daemon.rs:304-323 | in every run what the worker was sent, read or not, leaves it with exactly the trusted hosts, unless the list after the last pairing or revocation could not be sent |
| Delivery.UpToDateWorkerTrustsTheTrusted | src/unix/worker.rs:168-179 | a worker that has read everything then holds exactly the trusted hosts |
| Delivery.SentWindowIsTheOpenOne | src/unix/daemon.rs:249-281 | of an open window the worker was told; if it was told the last change its messages leave it with exactly the open window |
| Delivery.OpenWindowIsServed | src/unix/worker.rs:180-208 | a worker that has read everything then takes clients for the open window, and for no other |
| Delivery.RunningWorkerHasBooted | src/unix/daemon.rs:643-647 | in every run a service that is said to run and has a worker has one that read its boot message |
| Mdns.JoinSplit | src/unix/mdns.rs:42-42 | joining the pieces of a name gives the name, and no piece holds a dot |
| Mdns.QueryName | src/unix/mdns.rs:87-115 | the loop agrees with recursive decompression bounded to 64 steps on every byte string, cycles included; the offset moves strictly forward within the buffer or not at all |
| Mdns.Name | src/unix/mdns.rs:41-47 | the writer emits length and label for each piece and a final zero |
| Mdns.NameReadsBack | src/unix/mdns.rs:41-115 | a valid name is read back in lower case wherever it stands |
| Mdns.NameRoundTripExactlyWhen | src/unix/mdns.rs:41-115 | the round trip holds exactly for names of at most 63 labels of 1 to 63 octets and 255 octets in all |
| Mdns.WriteRecord | src/unix/mdns.rs:49-56 | the writer emits the record, with the cache-flush bit for all but PTR |
| Mdns.RecordReadsBack | src/unix/mdns.rs:49-56 | a record is read back where it stands, ending at its last octet |
| Mdns.RecordsReadBack | src/unix/mdns.rs:58-85 | walking written records reads exactly them and ends where they end |
| Mdns.Response | src/unix/mdns.rs:58-85 | the message is the header with the record count, a 16-bit counter, and the records, and announces the device to whoever walks it |
| Mdns.AnnouncementCount | src/unix/mdns.rs:62-83 | three records a service and one an address |
| Mdns.AnnouncementReadsBack | src/unix/mdns.rs:58-115 | the decoder reads every record and ends exactly at the buffer's end; the header's count is theirs exactly when they are fewer than 65536 |
| Mdns.ResponseAnnounces | src/unix/mdns.rs:58-85 | whoever walks the message finds the connect service at the first endpoint's port, the pairing service exactly while a port is given, every address in order, each with the given time to live, and nothing else |
| Mdns.PointersExactlyWhen | src/unix/mdns.rs:58-85 | which pointers there are: one to the connect service with an endpoint, one to the pairing service with a port as well |
| Mdns.QueryIsAnsweredExactlyWhen | src/unix/mdns.rs:117-144 | a query is answered exactly when it asks for one of the device's names |
| Mdns.PointerTargetReadsBack | src/unix/mdns.rs:66-69 | the target of a PTR record is a readable name that ends with the record |
| Mdns.Relevant | src/unix/mdns.rs:117-144 | the filter's answer is that of the questions before anything malformed |
| Mdns.QuestionsAsked | src/unix/mdns.rs:125-142 | a well-formed query is relevant exactly when one of its lower-cased names is ours |
| Mdns.OwnNameIsRecognisedExactlyWhen | src/unix/mdns.rs:134-138 | the own host name is recognised exactly when it has no upper-case letter |
| Mdns.CapitalNameIsNotRecognised | src/unix/mdns.rs:134-138 | helper: an instance, the valid name `A` |
| Pairing.MessageReceivedExactlyWhen | src/pairing.rs:10-27 | a message is received whole exactly when its body has 1 to 16384 octets |
| Pairing.MessageOnTheWire | src/pairing.rs:10-16 | helper: a message octet by octet |
| Pairing.ReceivedWasSent | src/pairing.rs:18-27 | what is received was framed so |
| Pairing.KeyUnderstoodExactlyWhen | src/pairing.rs:50-58 | a key line is understood exactly when it is UTF-8 without zeros |
| Pairing.KeyFoundExactlyWhen | src/pairing.rs:44-59 | a key is found exactly when the stream offers it in its two messages |
| Pairing.DeviceAnswersOnlyAfterCommit | src/pairing.rs:60-64 | the device tells about itself only after the client's key was committed, and never after a refusal |
| Pairing.DeviceSaysExactly | src/pairing.rs:33-65 | its client reads the device's half of the agreement first, in a message of kind 0, and after the commit, in a message of kind 1, the sealed 8192 octets with the device's name |
| Pairing.OfferIsPaired | src/pairing.rs:33-65 | a genuine offer that can be committed is paired |
| Pairing.Session.FillPeer | src/pairing.rs:45-48 | the buffer filled in place is the device's information |
| Pairing.Session.Take | src/pairing.rs:18-27 | one message is taken from the stream |
| Pairing.Session.PairWithCommit | src/pairing.rs:33-65 | the exchange, with its events in order |
| Monitor.GraceExactlyWhen | src/unix/ksu.rs:379-417 | grace is given exactly when only the settings fail less than 120 s after a clear check with only grace between |
| Monitor.PausedExactlyWhen | src/unix/ksu.rs:386-416 | helper: a check is clear exactly when both looks are, and any reason or unreadable process state pauses |
| Monitor.PauseSaysWhy | src/unix/ksu.rs:386-416 | a pause says what was seen, or what could not be read; processes come first |
| Monitor.StatusExactlyWhen | src/unix/ksu.rs:472-492 | helper: starting needs a fresh clear check; waiting needs fresh grace and a running service |
| Monitor.StatusSaysWhy | src/unix/ksu.rs:472-492 | the reason given to the supervisor, for every case in which one is given |
| Monitor.KeptServiceWasClearRecently | src/unix/ksu.rs:379-492 | a service is kept only within the grace and the age of the verdict after a clear check |
| Monitor.NativeMonitor.Assess | src/unix/ksu.rs:379-417 | the judgement and the remembered time |
| Monitor.NativeMonitor.Turn | src/unix/ksu.rs:451-456 | the snapshot is that of the checks so far |
| Monitor.NativeMonitor.Status | src/unix/ksu.rs:472-492 | the verdict on the snapshot |
| Sync.ParseExactlyFrames | src/unix/services/sync.rs:238-256 | a stream is a transfer of these chunks exactly when it is their frames and one DONE |
| Sync.FramesOnTheWire | src/unix/services/sync.rs:16-30 | helper: frames octet by octet |
| Sync.CutFramesNeverParse | src/unix/services/sync.rs:238-256 | a transfer cut anywhere is none |
| Sync.PiecesAreTheFile | src/unix/services/sync.rs:172-181 | the pieces a file is read in are the file |
| Sync.Receive | src/unix/services/sync.rs:165-184 | on a stream that may break after any number of bytes, the download loop succeeds exactly when the file was read and everything fitted, having written the frames of the pieces and DONE; otherwise nothing that could pass for a transfer |
| Sync.CollectExactly | src/unix/services/sync.rs:238-256 | the data loop completes exactly on whole transfers whose frames can be written or fit the link, with their data in order |
| Sync.TargetChangesExactlyWhen | src/unix/services/sync.rs:208-294 | the target changes exactly when the whole transfer was accepted and renamed, and then holds exactly the payloads; other paths stay |
| Sync.LinkIsMadeExactlyWhen | src/unix/services/sync.rs:250-268 | a link to a name is made exactly of that name, or that name and one zero, of at most 4096 octets in all; a name is not empty and has no zero |
| Sync.FileIsMadeExactlyWhen | src/unix/services/sync.rs:219-261 | for every other accepted type the target is a file with exactly the data, the nine permission bits and the time stamp |
| Sync.LeftoverIsPrivate | src/unix/services/sync.rs:227-236 | helper: a temporary file left behind before its mode was set is its owner's alone |
| Sync.CutTransferLeavesTarget | src/unix/services/sync.rs:208-294 | a transfer cut anywhere leaves the target alone |
| Sync.RoundTrip | src/unix/services/sync.rs:172-294 | a file downloaded in any pieces and uploaded again is the same file |
| Sync.Directory.Send | src/unix/services/sync.rs:208-294 | the upload, with its clean-up |
| Sync.Directory.ReadFrames | src/unix/services/sync.rs:237-256 | the loop over the frames grows the temporary file or the link target |

## Left out

- TLS, the password-authenticated key agreement, certificates and key fingerprints: functions and outcomes given from
  outside. A fingerprint depends on the first word of a key only.
- The CNXN and STLS packets before the TLS handshake: a connection begins authenticated, with a negotiated limit.
- Sockets, polling, descriptor passing, process groups, identity drop, SELinux and KernelSU: outcomes chosen by the
  environment. `wait_for_io` decides when work is done, not what.
- JSON and the size of state files and messages: documents and messages are values. A file is whole or torn.
- Clocks: arbitrary numbers. Nothing is claimed about when a step happens.
- The reverse command table and its 16 listeners (`reverse_command`): only what it asks the supervisor and what its
  listeners accept.
- The grammar of service names and endpoints beyond length and zeros: whether a name parses is an outcome.
- Log lines and reason texts of the supervisor; the settings pause with its reason text is a pause like others.
- SYNC STAT and LIST replies, and the path and mode fields of a request: pure formatting.
- The mDNS publisher's timers and sockets.
- Worker: connection and pairing threads are steps over values, not classes, because they interleave; `Network` has
  the main loop and the broker as methods, one critical section each.
- Worker.Proceed: call and transport numbers do not wrap at 64 bits.
- Daemon.Daemon.Halt: the waits and signals that end a process are not modelled; an ended process is gone.
- SupervisorTheorems.ServicesStartAsAllowed: a new service has a number that was never used. The program uses process
  IDs, which the system may give again once a process was reaped.
- SupervisorTheorems.TrustIsEarned: a run of one supervisor process. Lives over several processes are those of the
  store alone (`Restarts.TrustIsEarnedAcrossRestarts`).
- SystemTheorems.RevocationReachesEveryConnection: speaks of connections that serve; one that has left its loop and
  only waits to report its end (`Leaving`) handles nothing more and is not counted.
- Store.Open: file permissions, locking and the refusal of symbolic links are not modelled.
- Mdns.Response: the counter wraps as in a release build; a debug build would stop at 65536 records. The program
  keeps at most 32 endpoints.
- Sync.TargetChangesExactlyWhen: supposes that the random temporary name is not the target's.
- Sync.Directory.ReadFrames: a failed write leaves the file as before it; the file is removed in any case.
- Transport.Connection.ReverseAccept: takes the sockets already accepted, since accepting is the kernel's.
