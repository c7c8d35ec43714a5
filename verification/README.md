# lvim-keyring: a verified model of the secrets agent

This project models, in Dafny 4.11, the per-user secrets agent of lvim-keyring and the parts of its clients that talk to
it, and proves what has to hold over every run: while the machine stays up nothing stored is lost or invented, a stopped
write leaves the old vault or the new one, a cancelled wait ends, an idle vault locks in time, one daemon owns the socket,
every callback is called once, and an import that got its list overwrites nothing. `dafny verify dfyconfig.toml` checks
everything.

## What is modelled

- **Contents.** `Entries` holds the entry map and the closures behind `secret.set`, `delete`, `rename` and `generate`;
  `Serde` the JSON shape of the vault body; `VaultFormat` the sealed file with its 58 real header bytes;
  `VaultWrite` the temp-file, backup and rename protocol of one writer as a history of directory states, `SharedTemp` two
  writers at once on the one temp path, with inodes. `Wallet` is the reference: a
  password-protected map with one stored and one live copy. `Agent` is the daemon on the real file format, and its main
  result is that every run of it, with failed reads and writes, processes stopped anywhere and power cuts that undo any
  number of renames, is a run of `Wallet`. `Server` is the daemon as the mutable object it is, proved against `Agent` and
  `LockCache`; a secret call that waits for an unlock is parked there and answered when it resumes.
- **Waiting.** `Parking` breaks the concurrent daemon into the steps of any number of threads around the session mutex,
  the `unlock_gen` mutex and its condition variable. `Linearise` proves every answer to be `Wallet`'s at a moment inside
  the call; `Wakeups` says exactly whom a cancel and an unlock wake, `Overlap` exactly which create, unlock and rotate
  calls saves spoil, `Deadlines` when a wait ends by the clock, and `ParkingLimits` reaches the bad ends by runs.
- **Time and processes.** `AutoLock` is the self-rescheduling idle timer; `Singleton` the flock, bind and unlink protocol
  of any number of daemons; `LockCache` the broadcasts and the clients' cached lock state, and `NoteOrder` what becomes of it when notes overtake
  each other.
- **The editor's end.** `Framing` reassembles lines from chunks; `Client` and `DaemonClient` correlate answers, coalesce
  waiters and tear down re-entrantly, `ClientVerdicts` says who is told what and `ClientLimits` which
  requests end up sent on no connection; `Migration` is the bookkeeping of migrate and import together with the wallet.
- **Computations.** `Base32` and `Totp` (sections 5.3 and 5.4 of RFC 4226, section 4 of RFC 6238, section 6 of RFC 4648);
  `Credential`, git's helper protocol. `Bytes`, `Text` and `Wrappers` hold shared definitions.

Cryptography is symbolic: a key is the term of password, salt and parameters it came from, and a ciphertext opens exactly
under the key, nonce and associated data it was sealed with. HMAC-SHA1 is any function onto 20 bytes. Random draws, clocks,
Argon2's own success and the outcome of every file operation are inputs, arbitrary at each request.

## Where the code does less than it says

Each of these is a lemma below; the model follows the code.

- A change whose save fails is reported as failed and stays in the live map (`Agent.FailedSaveStaysLive`), so a migration
  may end with a secret in the wallet that it reports as failed (`Migration.FailedSaveIsKept`); exactly when is
  `Migration.GainedExactlyStoredIff`.
- No rename is followed by a sync of the directory, so a power cut may undo any number of reported saves
  (`Agent.PowerCutMayUndoSave`). What is found is always some earlier save, whole and under its own password; without a
  power cut it is the last one (`Agent.FileIsASave`).
- `M.migrate` and the importer promise never to clobber, but both ignore the error of the list call and then take nothing
  for present; they keep the promise if and only if the list came back or no name was taken (`Migration.NeverClobbersIff`).
- `unlock` notifies without holding `unlock_gen`. It misses exactly the waiters that hold that mutex past their look at
  the session (`Wakeups.NotifyMissesIff`); they park in an open vault (`ParkingLimits.UnlockNotifyCanBeMissed`), and what
  ends their wait at the latest is the deadline: no call is in its loop for longer than `UNLOCK_WAIT`, as long as timed
  waits keep time (`Deadlines.WaitEndsInTime`). A cancel misses nobody (`Wakeups.CancelReleases`).
- Every write goes through one temp path, and a rotation or creation writes outside the session mutex that saves hold. Two
  writes at once do no harm if and only if neither renames what the other has since truncated or overwritten, and neither
  writes on into what the other has renamed (`SharedTemp.HarmlessIff`). Otherwise a write that reports success may leave
  the vault empty, and one that reports an error replace it (`SharedTemp.FailedWriteReplacesVault`).
- A lifecycle call reads the file, writes it and installs the session in separate steps. Where writes do not collide on the
  temp path, and with no other such call about, it is the map's own create, unlock or rotate if and only if the last save
  since its read left what it had read, and the last since its write what it had written (`Overlap.CallIsMapsIff`). A save around an unlock is lost from the live copy
  (`ParkingLimits.OverlappingUnlockLosesUpdate`); a save between rotate's write and its install leaves a file that only the
  old password opens behind an answer of success (`Overlap.RotateOverSave`). Linearisation therefore assumes that
  lifecycle calls overlap neither each other nor any attempted save, failed ones included. No two writes then share the
  temp path (`Linearise.WritesNeverOverlap`), and an unlock that starts from a locked vault meets the assumption by itself
  (`Linearise.LoneUnlockIsDisciplined`).
- Notes of the lock state go out after the mutex is released. Clients end up right if and only if the note sent last came
  from a change with the same effect as the last one (`NoteOrder.CachedRightIff`); an unlock's note overtaken by a lock's
  leaves them wrong (`NoteOrder.OvertakenNote`).
- The list in an unlock's reply is read after the install: it is the live copy of a later moment, and empty if the vault
  has been locked again (`Linearise.UnlockReplyHalves`, `ParkingLimits.UnlockMayListNothing`).
- A request whose turn comes after an earlier callback of the same handshake has torn the client down is sent on no
  connection. Exactly those wait on an unconnected client (`ClientLimits.PendsOfflineIff`), and the next teardown calls
  them back (`ClientLimits.NextTeardownCallsBack`).
- A handler that tears the client down drops the rest of its chunk. Chunk boundaries matter exactly when something that
  would be dispatched or kept follows the first such line (`Framing.ChunksAgreeIff`).

## Model

| member | source | states |
|---|---|---|
| `Entries.ApplyTouchesOnly` | native/src/server.rs:426-541 | a successful change leaves every entry it does not name exactly as it was |
| `Entries.ApplyKeepsGood` | native/src/server.rs:640-656 | names stay non-blank, optional fields are never the empty string, created <= updated, for a clock that does not go back |
| `Entries.RenameMovesWholeEntry` | native/src/server.rs:478-496 | a rename moves the whole entry, keeps the size of the map and is undone by the reverse rename |
| `Entries.GenerateKeepsMeta` | native/src/server.rs:510-541 | generating into an existing name replaces only value and update time |
| `Entries.MetaOnlySetKeepsValue` | native/src/server.rs:433-444 | a set without value keeps value and creation time, and each field the metadata omits |
| `Entries.SetStoresWhatIsGiven` | native/src/server.rs:640-656 | with or without a value, new name or old: every field given is stored as given, an empty user, url or notes is cleared, what is left out stays, a given value is the stored one and an existing entry keeps its creation time |
| `Entries.SetWithoutMeta` | native/src/server.rs:446-459 | a set with a value alone keeps everything else of an existing entry, and leaves a new one bare |
| `Entries.GenerateAddsBareEntry` | native/src/server.rs:517-535 | a value generated into a new name makes an entry with nothing else |
| `Entries.RefusedIff` | native/src/server.rs:426-494 | a change is refused on an open vault exactly for a new name without value, a missing name to delete or rename, or a taken target, each in its own words |
| `Entries.BlankNamesRefused` | native/src/server.rs:426-482 | before the session is looked at, exactly a set name or a rename target that is only white space is refused |
| `Entries.DeleteUndoesSet` | native/src/server.rs:467-476 | deleting what was just added gives back the map |
| `Entries.Body.SetSecret` | native/src/server.rs:431-463 | the set closure, in place: new map and error as specified, map untouched on error |
| `Entries.Body.DeleteSecret` | native/src/server.rs:469-474 | the delete closure, in place, untouched on error |
| `Entries.Body.RenameSecret` | native/src/server.rs:483-494 | the rename closure, in place, untouched on error; a taken target is reported before a missing source |
| `Entries.Body.GenerateSecret` | native/src/server.rs:512-538 | the generate closure, in place: upsert |
| `Serde.EntryRoundTrip` | native/src/vault.rs:41-59 | an entry written with its default fields omitted reads back as the same entry |
| `Serde.BodyRoundTrip` | native/src/vault.rs:74-80 | every body reads back as itself |
| `Serde.MinimalEntryReads` | native/src/vault.rs:41-59 | an entry with only a value reads with every other field at its default |
| `Serde.EntryShape` | native/src/vault.rs:41-59 | the eight keys an entry is written under, what each holds, and which are left out when |
| `Serde.BodyReads` | native/src/vault.rs:74-80 | a body without entries reads as empty, and one entry that does not read spoils the whole |
| `Serde.UnknownFieldIgnored` | native/src/vault.rs:41-59 | a field of another name does not change what is read |
| `Serde.ValueRequired` | native/src/vault.rs:41-43 | an entry whose value is missing or no string does not read |
| `Text.BlankIffTrimmedEmpty` | native/src/server.rs:428-430 | a name is all white space exactly when trimming leaves nothing of it |
| `Bytes.LeBytesFromLe` | native/src/vault.rs:158-160 | four header bytes survive being read as a little-endian u32 and written back |
| `VaultFormat.BuildAad` | native/src/vault.rs:125-135 | the buffer filled span by span is the specified 34 bytes |
| `VaultFormat.HeaderLayout` | native/src/vault.rs:125-189 | in a written file: the magic `LVKR`, version 1, KDF 1, three costs that read backwards are their base-256 values, then salt and nonce; the ciphertext is sealed with the first 34 of those bytes |
| `VaultFormat.ParseRefusal` | native/src/vault.rs:145-157 | which files are refused unread, in which words, and that all others parse |
| `VaultFormat.WeakCostsRefused` | native/src/crypto.rs:56-61 | no key is derived below 8 KiB, one pass and one lane |
| `VaultFormat.ParseLosesNothing` | native/src/vault.rs:145-171 | for any file that parses, re-encoding the parsed fields gives back its header byte for byte |
| `VaultFormat.ParseWritten` | native/src/vault.rs:145-189 | parsing a written file gives the parameters, salt and nonce it was written with |
| `VaultFormat.UnlockWritten` | native/src/vault.rs:250-263 | an untouched file opens under its password to the very body written |
| `VaultFormat.TamperedHeaderNeverOpens` | native/src/vault.rs:250-263 | before a written ciphertext, a header opens if and only if all 58 bytes and the password are the original ones |
| `VaultFormat.JunkNeverOpens` | native/src/vault.rs:250-255 | what was not sealed never opens |
| `VaultFormat.OpenedSessionOwnsFile` | native/src/vault.rs:248-263 | a file opens under at most one password, and the session carries the key, salt and parameters it was sealed with |
| `VaultWrite.StoppedWriteIsOldOrNew` | native/src/vault.rs:196-215 | stopping after any step, torn temp or backup writes included, leaves the vault path complete old or complete new, new only at the last step of a write that succeeds |
| `VaultWrite.WriteIsAllOrNothing` | native/src/vault.rs:178-216 | with one writer at a time, the vault path changes exactly when the write reports success; any error leaves it |
| `VaultWrite.BackupHoldsPrevious` | native/src/vault.rs:209-213 | after a replacement whose copy worked the backup is the previous vault |
| `VaultWrite.PowerLossIsSomeSave` | native/src/vault.rs:202-214 | losing power after any step, with any number of earlier renames not yet on the disk, the path reads back complete as some earlier save or the new one |
| `VaultWrite.StoppedRotateKeepsEntries` | native/src/vault.rs:274-290 | a rotation stopped anywhere leaves a vault that exactly one of the two passwords opens, with the same entries |
| `VaultWrite.VaultDir.FillTemp` | native/src/vault.rs:196-207 | the temp file's states, step by step, and whether they ended well |
| `VaultWrite.VaultDir.CopyToBackup` | native/src/vault.rs:209-213 | the backup's states; its failure is ignored |
| `VaultWrite.VaultDir.Write` | native/src/vault.rs:178-216 | the method passes through exactly the specified directory states and succeeds exactly when no reported call fails |
| `SharedTemp.HarmlessIff` | native/src/vault.rs:196-222 | two writes at once, in any interleaving and with any failures: every step leaves the path alone or puts a successful write's own image there, if and only if no write renames a file the other has truncated or overwritten since it filled it, and none writes into a file the other has renamed |
| `SharedTemp.HarmlessPath` | native/src/vault.rs:196-214 | then the path is complete at every moment and an erring write has left it alone |
| `SharedTemp.ApartIsHarmless` | native/src/vault.rs:196-214 | in particular when neither opens or writes between the other's open and its end |
| `SharedTemp.FailedWriteReplacesVault` | native/src/vault.rs:196-214 | from every start, a run in which one write reports success over an empty path and the other, reporting an error, ends up in it |
| `Wallet.StepKeepsCoherent` | native/src/vault.rs:265-269 | the live copy is always held under the password of the stored one |
| `Wallet.LockUnlockAfterChange` | native/src/server.rs:352-400 | after a successful change both copies are equal and locking and unlocking gives back the same state |
| `Wallet.UnlockThenLock` | native/src/server.rs:328-357 | unlocking a locked vault and locking it again is invisible |
| `Wallet.RotateSwapsPasswords` | native/src/vault.rs:271-290 | after a rotation the new password finds what the old one did and the old one is refused |
| `Wallet.StepKeepsGood` | native/src/server.rs:426-541 | every request keeps both copies well formed |
| `Wallet.SummariesShowAll` | native/src/server.rs:297-314 | a list shows every entry with all of it but the value |
| `Wallet.SummariesHideValues` | native/src/server.rs:297-314 | wallets that differ in values alone list the same |
| `Wallet.StatusTells` | native/src/server.rs:268-294 | handshake and status tell whether the vault is locked, whether there is one, and what it lists while open |
| `Wallet.CreateOpensEmpty` | native/src/vault.rs:218-244 | a new vault is empty, open and stored; creating changes nothing when there is one or the write fails |
| `Wallet.UnlockIff` | native/src/server.rs:328-350 | an unlock succeeds exactly with the stored password on a file that reads, opens the stored copy and lists it; it changes nothing otherwise |
| `Wallet.RotateIff` | native/src/vault.rs:271-290 | a rotation succeeds exactly with the stored password and both file accesses working, and then leaves both copies under the new one; it changes nothing otherwise |
| `Wallet.ReadsAnswer` | native/src/server.rs:405-505 | on an open vault a lookup answers the live entry or that there is none, and a list all of them |
| `Wallet.GenerateAnswersWhatItStores` | native/src/server.rs:507-541 | the value answered is the value stored; under a name of white space nothing is stored |
| `Wallet.AlterationsRefused` | native/src/server.rs:426-541 | blank names are refused first, locked vault or not; then a locked vault answers so |
| `Agent.UnlockAgrees` | native/src/vault.rs:250-263 | reading the file authenticates exactly as the reference map does |
| `Agent.StepRefines` | native/src/server.rs:318-541 | one request on the real file format gives the reference map's answer and keeps the two in agreement |
| `Agent.StopRefines` | native/src/vault.rs:178-216 | a process stopped after any step of any request leaves what a map has in which the change wholly happened or did not |
| `Agent.RunRefines` | native/src/server.rs:318-541 | the same over every run of requests, faults, stopped processes, changed KDF settings and power cuts that bring back any earlier content of the path |
| `Agent.FileAlwaysOpens` | native/src/vault.rs:178-290 | after any such run the file opens under the password of the stored copy, and no other, to that copy |
| `Agent.FileIsASave` | native/src/vault.rs:203-214 | the stored copy is what some save of the run stored, under the password of that save; without a power cut the last one |
| `Agent.PowerCutMayUndoSave` | native/src/vault.rs:203-214 | in every agreeing state a power cut after a reported save may bring back the copy before it |
| `Agent.LockUnlockRestoresSession` | native/src/server.rs:328-357 | with both copies equal, lock then unlock gives back the very session |
| `Agent.ChangeSurvivesLock` | native/src/server.rs:391-400 | a change that reports success survives locking and unlocking |
| `Agent.FailedSaveStaysLive` | native/src/server.rs:395-399 | the file holds the changed map if and only if the save went through or the file held it before; the session holds it always |
| `Agent.RunKeepsGood` | native/src/server.rs:426-656 | over every run with a non-decreasing clock all reachable maps are well formed |
| `Agent.SessionAlwaysGood` | native/src/server.rs:426-656 | the same of the daemon's own session |
| `Agent.WrittenHeader` | native/src/vault.rs:178-290 | every save is written under a fresh nonce; create and rotate draw the salt and take the configured costs, a change keeps those of its session |
| `Server.Server.RegisterClient` | native/src/server.rs:108-112 | a new client gets an id nobody has and an empty queue |
| `Server.Server.UnregisterClient` | native/src/server.rs:115-119 | removes one client and reports how many remain |
| `Server.Server.SendToAll` | native/src/server.rs:133-137 | the line goes to the end of every registered client's queue |
| `Server.Server.AutolockTick` | native/src/server.rs:201-215 | locks and broadcasts exactly when idle past the timeout, and asks for the specified sleep |
| `Server.Server.Create` | native/src/server.rs:318-326 | contents, answer, broadcast and failure counter as the request step says |
| `Server.Server.Unlock` | native/src/server.rs:328-350 | the same for unlock, with a delay of 2 to the power min(n - 1, 4) seconds after the n-th failure |
| `Server.BackoffIsShift` | native/src/server.rs:345 | the delays 1, 2, 4, 8, 16 are the shift |
| `Server.FailuresInARow` | native/src/server.rs:338-346 | the n-th failed unlock in a row counts n |
| `Server.FailureCounting` | native/src/server.rs:318-383 | any create, unlock or rotate that succeeds resets the counter, a failed unlock adds one up to the 32-bit limit, nothing else moves it |
| `Server.Server.Rotate` | native/src/server.rs:370-383 | the same for rotate |
| `Server.Server.DoLock` | native/src/server.rs:352-357 | the same for lock: a broadcast only on a real transition |
| `Server.Server.WithSession` | native/src/server.rs:391-400 | a locked call that may wait asks every client and parks; otherwise it changes the map in place and saves it whole |
| `Server.Server.Change` | native/src/server.rs:395-399 | the part under the session mutex: locked, or the change made and saved |
| `Server.Server.Alter` | native/src/server.rs:426-541 | the checks made before the session is looked at, then the change |
| `Server.Server.Get` | native/src/server.rs:405-424 | the same for a lookup, which saves nothing |
| `Server.Server.List` | native/src/server.rs:498-505 | the same for the value-free list |
| `Server.Server.Dispatch` | native/src/server.rs:236-264 | every request is handled as specified; all but status, handshake, lock and cancel move the activity clock, and only a cancel the generation |
| `Server.Server.Handle` | native/src/server.rs:221-234 | work, broadcast, then the reply on the requester's queue, or the call parked without one |
| `Server.Server.Resume` | native/src/server.rs:391-412 | a parked call is refused, or does its work on the session there is by then, and is answered |
| `Server.Server.CurrentCode` | native/src/server.rs:545-559 | the code and countdown of an entry of the live session |
| `Server.Server.AutolockIn` | native/src/server.rs:288-292 | the whole seconds left, where status reports them |
| `LockCache.NotesTellNewState` | native/src/server.rs:318-383 | a request's notifications leave a correct cache correct |
| `LockCache.ReplyTellsState` | native/src/server.rs:268-294 | a status or hello reply tells the lock state after the request |
| `LockCache.TransparentUnlock` | native/src/server.rs:391-412 | a waiting read of a locked vault asks every client and, after an unlock, is answered with what the file held |
| `LockCache.ResumeKeepsCaches` | native/src/server.rs:391-412 | answering a parked call leaves every cache right |
| `LockCache.NextKeepsCaches` | lua/lvim-keyring/init.lua:36-41 | every event keeps each greeted client's queue settling to the agent's lock state |
| `LockCache.CachesAlwaysRight` | lua/lvim-keyring/init.lua:99-106 | over every run, a greeted client with an empty queue caches the agent's real lock state |
| `LockCache.NotesOnTransitionOnly` | native/src/server.rs:318-383 | an unlocked note goes out exactly when create, unlock or rotate has installed a session, a locked one exactly when an open vault was locked |
| `LockCache.ServedQueues` | native/src/server.rs:221-234 | every client is sent the notes, the sender its reply behind them, and nobody anything else |
| `LockCache.NoWaitAnswersAtOnce` | native/src/server.rs:391-409 | with `wait` false a locked vault answers so at once, and no client is asked to prompt |
| `LockCache.WaitAsksEveryone` | native/src/server.rs:145-162 | with `wait` true every client is asked once, and the call is parked unanswered |
| `LockCache.ResumeAnswersOne` | native/src/server.rs:391-412 | ending a wait answers that call alone, once, refused without a look or as the agent answers it now |
| `NoteOrder.CachedRightIff` | native/src/server.rs:318-357 | once all notes are out, clients are right if and only if the note sent last came from a change with the effect of the last change |
| `NoteOrder.OvertakenNote` | native/src/server.rs:352-357 | a run that leaves every client taking a locked vault for unlocked |
| `Parking.RunKeepsInv` | native/src/server.rs:158-180 | over every interleaving: mutex, deadlines and captured generations are consistent |
| `Parking.CancelNeverLost` | native/src/server.rs:361-368 | a parked waiter whose generation is out of date implies a canceller between its bump and its notify |
| `Parking.NotifyWakesAll` | native/src/server.rs:150-152 | the notify of a cancel or of a create, unlock or rotate leaves nobody parked; no other step of another thread moves a waiter |
| `Parking.OnlyWaitersWait` | native/src/server.rs:391-412 | over every run: a call sent with `wait` false is never on its way into the wait or in it and has prompted nobody, and nobody waits unprompted |
| `Parking.FirstLook` | native/src/server.rs:391-409 | a secret call that finds the vault locked ends at that step, answered locked, if sent with `wait` false, and goes on to wait if sent with `wait` true |
| `Parking.CallStarts` | native/src/server.rs:194-263 | the first step of a lock locks, of a cancel bumps the generation, and of a secret call looks at the session and prompts nobody |
| `Parking.OvertakenWaiterLeaves` | native/src/server.rs:166-179 | a waiter overtaken by fewer than 2^64 cancels leaves within three own steps and cannot park again |
| `Parking.DeadlineEndsWait` | native/src/server.rs:163-179 | whatever the clock does, past its deadline a waiter is out after at most six own steps |
| `Deadlines.WaitEndsInTime` | native/src/server.rs:163-179 | over every run in which parked threads wake when their time is up and awake waiters take no time, a call is out of its loop at most the 120 seconds after it set its deadline, whatever notifies were missed |
| `Parking.OpenVaultIsSeen` | native/src/server.rs:158-180 | a secret call, from its first check on, is never answered locked in a vault that stays open |
| `Parking.LeavesFor` | native/src/server.rs:166-179 | a waiter leaves for its work only with the vault open, and is refused only after a cancel since it captured or its full time |
| `Parking.HolderCanStep` | native/src/server.rs:164-178 | a thread that cannot step waits for the holder of one of the two mutexes, who can step or waits at its look for the other's, who can |
| `Wakeups.CancelReleases` | native/src/server.rs:361-368 | once a canceller has bumped and notified, every waiter that captured before is out of the loop within three steps of its own |
| `Wakeups.NotifyMissesIff` | native/src/server.rs:332-335 | at a lifecycle notify a waiter can still come to be parked in the open vault if and only if it holds the generation mutex past its look |
| `Wakeups.PastLookParks` | native/src/server.rs:166-178 | such a waiter parks after exactly its remaining steps, over every run without a cancel before its deadline |
| `Wakeups.NeverParksAgain` | native/src/server.rs:166-178 | every other waiter never parks again while the vault stays open |
| `Linearise.StepKeepsLinear` | native/src/server.rs:391-412 | each step of any thread keeps the history linearisable |
| `Linearise.EveryAnswerLinearises` | native/src/server.rs:391-412 | over every interleaving in which lifecycle calls overlap neither each other nor an attempted save, each answer is the reference map's at a moment inside the call, locked exactly when the map is locked then; an unlock answers once for its success and once for its list |
| `Linearise.WritesNeverOverlap` | native/src/server.rs:370-399 | in such a run a lifecycle call yet to write and a saver in its critical section can neither of them finish: no two writes share the temp path |
| `Linearise.WaiterVerdict` | native/src/server.rs:158-180 | a refused waiter has a moment of its own call at which the map was locked, and a cancel or its full time behind it |
| `Linearise.UnlockReplyHalves` | native/src/server.rs:330-336 | an unlock's success is true at one moment of the call, its list is the live copy of a later one, empty if locked again |
| `Linearise.LoneUnlockIsDisciplined` | native/src/server.rs:328-336 | an unlock that starts from a locked vault needs no discipline from the other calls, through its install and beyond |
| `ParkingLimits.UnlockNotifyCanBeMissed` | native/src/server.rs:332-335 | for every locked vault and waiting read there is a run that parks the reader in the open vault with no notify to come |
| `ParkingLimits.OverlappingUnlockLosesUpdate` | native/src/server.rs:330-332 | for every open vault and new secret there is a run in which the secret is answered stored and gone from the live copy |
| `ParkingLimits.UnlockMayListNothing` | native/src/server.rs:332-336 | for every vault there is a run whose unlock is answered as successful with an empty list |
| `Overlap.CallIsMapsIff` | native/src/server.rs:318-383 | create, unlock or rotate from start to install is the map's own call if and only if the last save since its read left what it had read and the last since its write what it had written |
| `Overlap.SaveFreeCallIsMaps` | native/src/server.rs:318-383 | with no save even attempted between its read and its install it is |
| `Overlap.RotateOverSave` | native/src/server.rs:370-378 | a save between rotate's write and its install: answered done, live under the new password, the file opening under the old one only |
| `AutoLock.RunKeepsInv` | native/src/main.rs:208-215 | the next tick is always due in time |
| `AutoLock.UnlockedNeverOutlivesTimeout` | native/src/server.rs:201-215 | an unlocked vault is never older than one second past the later of its idle deadline and its last install |
| `AutoLock.TickLocksExactlyWhenIdle` | native/src/server.rs:206-211 | a tick closes the vault if and only if it is open and idle for the whole timeout |
| `AutoLock.ReportedRemainingIsKept` | native/src/server.rs:288-292 | with only polls, the vault stays open for the reported seconds and is closed two seconds later |
| `Singleton.RunKeepsInv` | native/src/main.rs:180-204 | flock, socket path and process states stay consistent over every run |
| `Singleton.AtMostOneAndReachable` | native/src/main.rs:180-204 | at most one process is past the flock, and a serving one is what the path leads to |
| `Singleton.OnlyHolderTouchesSocket` | native/src/main.rs:192-229 | whoever changes the path holds the flock, and never replaces a live daemon's socket |
| `Singleton.LoserDefers` | native/src/main.rs:188-191 | a daemon that loses the flock exits and changes nothing |
| `Singleton.SuccessorServes` | native/src/main.rs:188-204 | once the flock is free a new daemon gets to serve, stale socket or not |
| `Framing.Reader.OnRead` | lua/lvim-keyring/daemon.lua:180-196 | the loop dispatches and keeps exactly what the specification of a buffer says |
| `Framing.ConsumeAppend` | lua/lvim-keyring/daemon.lua:180-196 | a buffer then more bytes is the whole at once |
| `Framing.ChunksDoNotMatter` | lua/lvim-keyring/daemon.lua:180-196 | every way of cutting a stream dispatches the same messages and leaves the same tail, while no handler tears down |
| `Framing.LinesRecovered` | native/src/main.rs:261-268 | whatever the chunks, exactly the lines sent are dispatched, in order, and nothing is left |
| `Framing.LineReachesDecoder` | lua/lvim-keyring/daemon.lua:187-190 | a trimmed non-empty line reaches the decoder as sent |
| `Framing.PaddingIsDropped` | lua/lvim-keyring/daemon.lua:187-190 | white space around a line is dropped, and a line of nothing else delivers nothing |
| `Framing.SentLinesArrive` | lua/lvim-keyring/daemon.lua:180-196 | of newline-free lines that decode, and tear nothing down, message i is what line i decodes to, however the bytes were cut |
| `Framing.ChunksAgreeIff` | lua/lvim-keyring/daemon.lua:180-203 | all cuts of a stream agree if and only if no line tears the client down, or nothing after the first that does is ever dispatched or kept |
| `Framing.TearingMakesChunksMatter` | lua/lvim-keyring/daemon.lua:200-203 | in particular a decodable line right after a tearing one makes cuts disagree |
| `Client.StepKeepsInv` | lua/lvim-keyring/daemon.lua:159-268 | every event and re-entrant call keeps callbacks, ids and waiters in order |
| `Client.EachCallbackInOnePlace` | lua/lvim-keyring/daemon.lua:200-268 | over every run each callback is in exactly one place and is called at most once |
| `Client.AnswersReachTheirRequest` | lua/lvim-keyring/daemon.lua:159-169 | an answer reaches only the request sent under its id, and no two requests share an id |
| `Client.IdsNeverReused` | lua/lvim-keyring/daemon.lua:428-439 | what is sent next goes out above every earlier id, across reconnects |
| `Client.WaitersHaveAnAttempt` | lua/lvim-keyring/daemon.lua:366-422 | outside callbacks, whoever waits has a connect attempt of its own in progress or a handshake pending on a live connection |
| `ClientVerdicts.VerdictsIff` | lua/lvim-keyring/daemon.lua:200-268 | over every run, once callbacks are through: a callback has been called ready, or its request sent, if and only if it was handed over on a ready client or waited when a good answer to a pending handshake came; it has been refused if and only if it waited when a teardown took the waiters or a handshake was refused |
| `ClientVerdicts.NoVerdictUndecided` | lua/lvim-keyring/daemon.lua:200-268 | in the middle of callbacks too, nobody is told what was not so decided |
| `ClientVerdicts.TeardownLeavesNoWaiter` | lua/lvim-keyring/daemon.lua:218-222 | whoever waits when a teardown begins has been told something once callbacks are through |
| `ClientVerdicts.DeadLoopLeavesNoWaiter` | lua/lvim-keyring/daemon.lua:213-222 | nor is anyone left waiting whom a callback of that teardown's table added: the dead callbacks run first and the waiters are taken after them |
| `ClientVerdicts.AnswersAsSent` | lua/lvim-keyring/daemon.lua:159-169 | a request is told its answer was good or bad as the message under its id was |
| `ClientVerdicts.ReadyIff` | lua/lvim-keyring/daemon.lua:200-266 | the client is ready from a good answer to a handshake to the next teardown, and at no other time |
| `ClientVerdicts.CallersCoalesce` | lua/lvim-keyring/daemon.lua:366-374 | while a connect is in progress a further caller is queued and nothing else happens |
| `ClientLimits.PendsOfflineIff` | lua/lvim-keyring/daemon.lua:428-439 | with no connection, a request is pending if and only if its turn to be sent came without one and neither a teardown nor an answer came since |
| `ClientLimits.NextTeardownCallsBack` | lua/lvim-keyring/daemon.lua:213-217 | whatever is pending when a teardown comes has been called back with its error once callbacks are through |
| `ClientLimits.RequestCanBeStuck` | lua/lvim-keyring/daemon.lua:428-439 | a run to such a request, with no attempt in progress |
| `DaemonClient.Daemon.Teardown` | lua/lvim-keyring/daemon.lua:200-223 | the module's fields after a teardown, the read tail emptied, up to its first callback |
| `DaemonClient.Daemon.HandshakeAnswered` | lua/lvim-keyring/daemon.lua:237-266 | waiters captured first, then ready or torn down |
| `DaemonClient.Daemon.OnMessage` | lua/lvim-keyring/daemon.lua:159-169 | the entry leaves the table before its callback runs; unknown ids change nothing |
| `DaemonClient.Daemon.Ensure` | lua/lvim-keyring/daemon.lua:366-439 | called at once when ready, else queued, with at most one attempt started |
| `DaemonClient.Daemon.Continue` | lua/lvim-keyring/daemon.lua:213-222 | one turn of a loop over dead callbacks or captured waiters |
| `DaemonClient.Daemon.Handle` | lua/lvim-keyring/daemon.lua:159-439 | every event is the specified step, keeps the invariant, and empties the read tail exactly when it tears down |
| `Base32.DecodeEncode` | native/src/totp.rs:26-28 | every key's base32 form decodes to that key |
| `Base32.EncodeDecode` | native/src/totp.rs:26-28 | the decoder accepts exactly the encodings |
| `Base32.EncodeValue` | native/src/totp.rs:26-28 | the encoding spells, in base 32 and the alphabet of RFC 4648, the number the key is in base 256, shifted by the bits that fill the last group |
| `Totp.OffsetInBounds` | native/src/totp.rs:36-40 | the four bytes read lie inside every 20-byte MAC |
| `Totp.BinIsDynamicTruncation` | native/src/totp.rs:36-40 | the mask, shift and or expression is the dynamic truncation of RFC 4226 and fits 31 bits |
| `Totp.PaddedReads` | native/src/totp.rs:41-42 | exactly the asked number of decimal digits, reading back as the number |
| `Totp.NormaliseSpelling` | native/src/totp.rs:21-25 | white space, padding and letter case do not change the text that is decoded |
| `Totp.CodeFollowsStandard` | native/src/totp.rs:16-43 | for every spelling of a key and 1 to 9 digits the code reads back as the standard's value |
| `Totp.ShownCodeFollowsStandard` | native/src/server.rs:545-559 | for every spelling of a key in an entry and every time, six decimal digits that read as the standard's value for that key at that time in steps of 30 seconds |
| `Totp.RfcValueSpelt` | native/src/totp.rs:30-42 | that value spelt out: the truncated MAC of the step number as eight bytes, modulo 1,000,000 |
| `Totp.TotpRefusals` | native/src/server.rs:545-559 | refused exactly for a missing name, or a value that normalises to no key's base32 form, in different words |
| `Totp.RefusedExactlyWhenNotBase32` | native/src/totp.rs:20-28 | a secret is refused if and only if it normalises to no key's base32 form |
| `Totp.CountdownIsHonest` | native/src/server.rs:545-559 | 1 to 30 seconds are reported, the code is constant for exactly that long, and then the step goes up by one |
| `Totp.StepsDiffer` | native/src/totp.rs:30-32 | different time steps feed different counters to the MAC |
| `Credential.ReadLine` | native/src/credential.rs:75-91 | one line, the count with its newline, 0 at end of file, nothing on an error |
| `Credential.ReadReply` | native/src/credential.rs:59-71 | the loop settles on the specified message |
| `Credential.NotificationsDoNotChangeReply` | native/src/credential.rs:59-71 | whatever notifications come before it, the reply read is the reply sent |
| `Credential.ReplySelectedIff` | native/src/credential.rs:59-71 | a message is selected exactly when a reply comes after nothing but well-formed notifications |
| `Credential.ReadAttrs` | native/src/credential.rs:31-47 | git's lines up to a blank one or the end, later lines winning |
| `Credential.PrintedReadsBackIff` | native/src/credential.rs:125-134 | what get prints reads back unchanged if and only if no value holds a newline or ends in a carriage return |
| `Credential.Helper.Lookup` | native/src/credential.rs:94-114 | the git entry, or the forge entry when that gives nothing, changing nothing; asked in that order and with `wait` false |
| `Credential.Helper.Run` | native/src/credential.rs:118-158 | what a run prints and leaves of the wallet, in at most two requests, none of which waits |
| `Credential.StoreThenGet` | native/src/credential.rs:118-148 | store then get gives back password and user, even if the save failed or the reply was lost |
| `Credential.EraseFallsBack` | native/src/credential.rs:149-154 | after an erase get answers what the forge entry held |
| `Credential.OnlyGitHostChanges` | native/src/credential.rs:118-158 | no run changes another entry, locks or unlocks, and only store and erase change anything |
| `Credential.LockedIsSilent` | native/src/credential.rs:93-158 | against a locked wallet every operation prints nothing and changes nothing |
| `Credential.AnswersIff` | native/src/credential.rs:93-136 | get prints something exactly when the wallet is open, one of the names is held and its request works |
| `Migration.Migrate.Skip` | lua/lvim-keyring/init.lua:341-343 | a present candidate goes to the skipped list and is counted |
| `Migration.Migrate.Reply` | lua/lvim-keyring/init.lua:345-348 | a reply moves its candidate to stored or failed and calls back exactly when it was the last |
| `Migration.Migrate.Send` | lua/lvim-keyring/init.lua:340-350 | the loop, with replies that come before `set` returns |
| `Migration.Import.Skip` | lua/lvim-keyring/import.lua:148-150 | a present entry is counted as skipped |
| `Migration.Import.Reply` | lua/lvim-keyring/import.lua:152-159 | a reply is counted once and the report shown exactly when all are |
| `Migration.Import.Send` | lua/lvim-keyring/import.lua:147-161 | the importer's loop, likewise |
| `Migration.CompleteIff` | lua/lvim-keyring/init.lua:333-339 | as many candidates are reported as there are exactly when the loop is over and none is unanswered |
| `Migration.ReportedOnce` | lua/lvim-keyring/init.lua:332-351 | at the end every candidate has been reported exactly once |
| `Migration.NothingClobbered` | lua/lvim-keyring/init.lua:308-355 | over every run with the list in hand: earlier entries untouched, exactly the applied candidates gained, stored ones live and saved |
| `Migration.MigrateReports` | lua/lvim-keyring/init.lua:332-351 | what migrate calls back with, once: a name is among the stored if and only if its request was answered well, the skipped if and only if it was present, the failed if and only if its request was answered badly or given up; the lists hold nothing else |
| `Migration.StoredIsSaved` | lua/lvim-keyring/init.lua:345-348 | every name in the stored list of that callback is in the live wallet and in the saved file with the candidate's value |
| `Migration.ImportReports` | lua/lvim-keyring/import.lua:122-161 | the import's one report counts those same three kinds |
| `Migration.GainedExactlyStoredIff` | lua/lvim-keyring/init.lua:308-355 | the wallet gains exactly the candidates reported stored if and only if, for each the agent took, the save succeeded and the client stayed up for the answer |
| `Migration.FailedSaveIsKept` | native/src/server.rs:395-399 | for every new candidate, a failed save leaves it in the wallet and reported failed |
| `Migration.NeverClobbersIff` | lua/lvim-keyring/import.lua:117-121 | no run clobbers an entry if and only if the list succeeded or no candidate's name is taken |

## Left out

- Server.Server.Dispatch: does not model the error for an unknown method; `secret.totp` and the countdown of `vault.status` are the methods `CurrentCode` and `AutolockIn` beside it.
- Server: the loop of `wait_for_unlock` is in `Parking`, as steps of a machine, because other threads act between any two of its lines; here a waiting call is two events, and other requests are atomic.
- Server.Server.Unlock: the reply's list is read back with nothing in between; `Parking` has the gap. The lock flag and the summaries in `vault.status` and `rpc.hello` are likewise read together.
- Linearise.EveryAnswerLinearises: a save, and each file read or write of a lifecycle call, is one step, which is sound because the lifecycle discipline it assumes keeps writes apart; what two writes do that are not kept apart is in `SharedTemp`.
- Overlap.CallIsMapsIff: writes are one step each, so saves that collide with the call's own write on the temp path are not in it; the same holds of `Overlap.RotateOverSave`. `Overlap.SaveFreeCallIsMaps` needs no such proviso.
- VaultWrite.WriteIsAllOrNothing: one writer; so are the other results of `VaultWrite` and `Agent`, whose requests are served one at a time.
- SharedTemp.HarmlessIff: two writes; `write_all` is one call that may stop short, and the backup copy, which never touches the vault path, is left out.
- Agent.RunRefines: Argon2's own verdict on the costs (beyond the floor the code checks) is an input of each request, so "opens" means "opens when Argon2 runs".
- Deadlines.WaitEndsInTime: that timed waits keep time and awake waiters take none is a hypothesis.
- Agent.PowerCutMayUndoSave: the file system keeps renames in order; a power cut brings back the state after some number of them.
- Client.EachCallbackInOnePlace: an error raised by a callback inside `on_message`, and old chunks arriving after a reconnect, are not modelled; when an attempt connects, retries or gives up is left open.
- Client.WaitersHaveAnAttempt: a retry timer that finds a connection and waits on, and further `try_connect`s of one attempt, are not told apart from the attempt; one that fails after its attempt is over is a `Stop`.
- LockCache.CachesAlwaysRight: a change and its note are one step; `NoteOrder` has them apart. The cache is a value of the state machine, not a class; the `prompting` flag and the prompt are left out. The lock taken on SIGTERM or by the last client sends no note, and those clients are gone.
- Migration.NothingClobbered: names in one list are distinct and no other request reaches the agent meanwhile, locking included; with duplicate names the surviving value is not determined. The confirm prompts and the wording of the report are left out.
- Migration: `parse_env`, `unquote` and the JSON importer, which only build the candidate list.
- AutoLock.UnlockedNeverOutlivesTimeout: sleeps are exact and ticks atomic; a late timer adds its lateness.
- Singleton: `--stdio` mode, and any claim that the daemon outlives a connected client; with zero linger the last-client test is made before the writer is awaited.
- Totp: HMAC-SHA1 is arbitrary, and so is what upper-casing makes of characters outside ASCII.
- Credential: byte streams are strings, so an invalid UTF-8 line (which ends `read_attrs`) is not modelled, and the JSON parser is any function from lines to messages.
- Parking: the client ids and the activity clock; a 64-bit id counter is not wrapped.
- Real Argon2id, XChaCha20-Poly1305 and the system random source; nonces are arbitrary and their freshness is not used.
- `mlock`, zeroising, `prctl`, file modes and peer-uid checks: effects without a functional property.
- tokio tasks, sockets and JSON text; the body is a JSON tree and a message a value.
- `generate_password`: the drawn value is arbitrary. The code's `secret.generate` always waits for an unlock; the model has it with and without.
- Panel, prompts, highlights, namespaces, commands, health and configuration files.
