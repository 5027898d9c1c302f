# UniSSH, modelled in Dafny

UniSSH is an SSH client with an encrypted vault and a sync server. This project models the parts of it
whose correctness rests on an argument rather than on a type: the protocols by which the desktop client's
threads race vault locks, the server's audit export loop, and the hand-written codecs and text rewrites.

* **Concurrency.** `SealedPassword`, `UnlockAttempts`, `SystemAgent`, `InstanceReset`, `SftpSessions`,
  `SignApprovals` and `SuspendHandOff` each model one protocol as interleaved atomic steps: one mutex section,
  one file operation or one call of the core per step, any number of threads, any order. `Runs` says what a run
  is; the theorems are about every run, or about what a step or an undisturbed run does from any state. The
  objects behind the mutexes are classes whose methods change their fields as the source's do. Attempts, live
  record, prompt registry and acknowledged slot are specified by the functions the steps use, the registry field by
  field too; the SFTP registry, the device and the arming and closing of the slot field by field.
* **Delivery.** `AuditDelivery` models the export loop: a growing log, a persisted cursor, a batch in memory,
  a sink and a store that may fail after having done their work, and crashes anywhere inside a step.
* **Bytes and text.** `ByteStrings`, `ObjectCodec`, `RecordSignatures` and `AccountPayloads` model the two
  parsers over the same object blobs and the encoders whose output is signed; the second parser's own cursor
  (server/src/crypto.rs:272-313) makes the same reads as the first one's, so both are modelled by one `Reader`.
  `ShellProfile`, `OcspScan` and `Placeholders` model three small rewrites and scans (`Occurrences` holds what
  two of them share).

To verify the whole project: `dafny verify dfyconfig.toml`.

## Assumptions

* Counters (`u64` attempt numbers, epochs, tokens; `u32` placeholder numbers) do not wrap. The failure count
  of the export loop is the exception: its saturation is modelled.
* Every write of the keyset makes a record never seen before, and its digest names it.
* Each attempt number is used for one biometric prompt.
* A file is there or not, with its content; a timeout, a failed read, write or delete, a person's answer and a
  random number are choices of the environment. Ed25519 and SHA-256 are parameters: a point test, a signature
  predicate and a function to 32 bytes.
* The rows of the audit log ascend in `seq`, and one loop serves one cursor. A sink sends the rows of a batch in
  order, and one that acknowledges a batch has delivered every row of it; the UDP syslog sink, which skips a row too
  long for a datagram and acknowledges all the same (server/src/audit_sinks/syslog.rs:220-232), is outside the model.

## Where the code does less than one might take it to

* `wipe_around_install` (client/src-tauri/src/biometric.rs:578-603) is described as wiping whenever an install
  failed after rewriting the keyset. It compares two digests, each `None` when the record cannot be read and the
  first also when there was no record, so it misses a rewrite exactly when the call failed and both are `None`
  (`BlindInstallLeavesStalePassword`, `LastWiperKeepsInvIff`).
* `refuse_all` (rust-core/crates/ffi/src/approvals.rs:361-391) is described as leaving nothing from before a
  lock to be shown afterwards. A request that is registered, with the window not yet told, when the lock's cancel
  arrives is still shown; its prompt can no longer be answered (`OldRequestNotShownAfterLock`,
  `RegisteredStillShown`, `CancelBetweenRegistrationAndEvent`).
* `wait_suspend_ack` (client/src-tauri/src/system_lock.rs:179-184) waits for the answer to its own hand-off.
  With two hand-offs at once the second drops the first one's sender, and the first wait ends unanswered
  (`OverlapWakes`, and the run of `SecondHandOffEndsFirst`); without overlap it cannot (`EarlyEndMeansOwnAck`).
* `path_configured` (client/src-tauri/src/cli_tools.rs:246-251) takes an END marker in front of an open START
  marker for a configured profile, though it holds no block: after configuring, exactly the texts with a START, no
  END behind the first one and an END somewhere (`ConfiguredWronglyIff`, and the text of
  `ProfileConfiguredWithoutBlock`).
* The signed content of a vault (server/src/crypto.rs:384-387) is its wrapped key and then its name, with no length
  between. Its message determines the two exactly when the key's length is known (`VaultMessageFixesTermsIff`);
  every other cut of the content is an accepted vault with the same message (`AnyCutSharesMessage`,
  `TwoVaultsOneMessage`).
* A record's message does not say what kind of record it is for. An item whose id is the vault's stand-in shares the
  message of a vault with the same content, and so on (`StandInSharesMessageIff`, `StandInItem`,
  `ItemAndVaultOneMessage`).
* A person's yes (client/src-tauri/src/observers.rs:404-421) is taken out of the registry first and sent afterwards,
  and `approve` (456-516) may meanwhile time out or fail to tell the window. A yes that was taken approves the request
  exactly when neither happens, before it or after it (`TakenYesApprovesIff`); the three ways to lose it are the runs
  `YesThenTimeout`, `TimeoutThenYes` and `YesThenFailedEvent`.
* `ParsedObject` (server/src/codec.rs:97-117) documents the version for tags 1 and 2 and author and signature
  for tags 1 to 5; the parser fills all three for tag 7 too, and so does `OpenColumns`.

## Model

| member | source | states |
|---|---|---|
| `SealedPassword.Device.ForgetWith` | client/src-tauri/src/biometric.rs:516-527 | both halves are attempted; it succeeds exactly when neither is left |
| `SealedPassword.Device.ForgetAfterKeysetChange` | client/src-tauri/src/biometric.rs:559-576 | nothing stored is `Nothing` and touches no secret; `Failed` exactly when the sealed password is still on disk |
| `SealedPassword.Device.WipeAroundInstall` | client/src-tauri/src/biometric.rs:588-603 | exactly which installs count as a change, from what succeeded, was rewritten and could be read; those leave no blob unless they say `Failed`, the others touch nothing |
| `SealedPassword.Device.SealPassword` | client/src-tauri/src/biometric.rs:732-764 | undisturbed, it succeeds exactly when the password opens the keyset, every operation works and both digests can be read, and then that password is sealed; a refused password changes nothing, a failure leaves no blob |
| `SealedPassword.GroundedKept` | client/src-tauri/src/biometric.rs:709-764 | what a thread has read stays true of the record it was read from, across any other thread's step |
| `SealedPassword.WillWipeKept` | client/src-tauri/src/biometric.rs:588-603 | a thread that will remove a blob goes on to, or has just done so, whatever the others do |
| `SealedPassword.InvKept` | client/src-tauri/src/biometric.rs:709-764 | every step keeps: a stale blob always has a thread left that will remove it |
| `SealedPassword.NoStalePasswordStaysSealed` | client/src-tauri/src/biometric.rs:709-764 | over every interleaving of enables and installs in which no delete failed and no install was blind (failed after a rewrite, the record unreadable before and after), once all are over a blob on disk holds a password that opens the keyset on disk |
| `SealedPassword.LastWiperKeepsInvIff` | client/src-tauri/src/biometric.rs:588-603 | where one thread is left to remove a stale blob, its step is safe if and only if its delete works and its install is not blind |
| `SealedPassword.BlindInstallLeavesStalePassword` | client/src-tauri/src/biometric.rs:588-603 | a run in which a failed install, with the record unreadable before and after, leaves the old password sealed |
| `SealedPassword.RecordStandsIff` | client/src-tauri/src/biometric.rs:709-731 | over every run the record on disk is the same at two moments if and only if nobody rewrote it between them |
| `SealedPassword.EnableKeptIff` | client/src-tauri/src/biometric.rs:739-764 | over every run, an enable that has written its blob keeps it if and only if there was a record, it could be read both times and nobody rewrote it in between; otherwise deleting it comes next |
| `SealedPassword.EnableSeals` | client/src-tauri/src/biometric.rs:732-764 | undisturbed, with the right password and every operation working, an enable leaves exactly that password sealed |
| `SealedPassword.EnableEndsBy` | client/src-tauri/src/biometric.rs:739-764 | a blob is written only behind a created secret, and an accepted enable ends only with its record found unchanged or with a delete attempted |
| `SealedPassword.AcceptedOnlyIfOpens` | client/src-tauri/src/biometric.rs:739-740 | a password goes on to be sealed only if it was checked and opens the record of that moment |
| `SealedPassword.InstallWipesIff` | client/src-tauri/src/biometric.rs:588-603 | over every run, an install goes on to wipe if and only if it succeeded, or a record that was there could be read only once, or the record can be read at the end and anybody rewrote it meanwhile |
| `SealedPassword.WipeDeletes` | client/src-tauri/src/biometric.rs:559-576 | where a blob is found and can be deleted, none is left |
| `SealedPassword.WipesOnlyWhatItFound` | client/src-tauri/src/biometric.rs:559-562 | over every run, an install deletes only after it has found a blob |
| `SealedPassword.BlobChangesOnlyBy` | client/src-tauri/src/biometric.rs:516-764 | the blob changes only by an enable that writes its own password, or by a delete |
| `UnlockAttempts.Attempts.constructor` | client/src-tauri/src/biometric.rs:106-130 | attempt 0, no prompt |
| `UnlockAttempts.Attempts.End` | client/src-tauri/src/biometric.rs:135-141 | a new, higher number; the stored dismisser is handed to the caller and to nobody else |
| `UnlockAttempts.Attempts.Cancel` | client/src-tauri/src/biometric.rs:156-169 | ends the attempt it names and leaves any other untouched; the number is not current afterwards |
| `UnlockAttempts.Attempts.IsCurrent` | client/src-tauri/src/biometric.rs:171-173 | whether the number is the current one |
| `UnlockAttempts.Attempts.Showing` | client/src-tauri/src/biometric.rs:193-202 | the dismisser is stored for the current attempt, or handed straight back |
| `UnlockAttempts.Attempts.Answer` | client/src-tauri/src/biometric.rs:206-211 | forgets the dismisser of the current attempt only |
| `UnlockAttempts.NumbersOnlyGrow` | client/src-tauri/src/biometric.rs:132-169 | over every run the current number never falls |
| `UnlockAttempts.EndedNumberStaysOver` | client/src-tauri/src/biometric.rs:132-169 | a number that is over is never current again |
| `UnlockAttempts.EpochsPastAlways` | rust-core/crates/ffi/src/lib.rs:6902-6904 | no thread ever holds a lock epoch ahead of the core's |
| `UnlockAttempts.BarredKept` | client/src-tauri/src/biometric.rs:894-945 | once a lock has reached the core, every step keeps the earlier attempts from holding the vault open |
| `UnlockAttempts.LockBeatsEarlierAttempt` | client/src-tauri/src/biometric.rs:894-945 | over every run, an attempt whose number was handed out before a lock began never holds the vault open after that lock's core step, wherever the lock fell among its steps |
| `UnlockAttempts.OutrunKept` | rust-core/crates/ffi/src/lib.rs:6959-7065 | an unlock, typed or biometric, that had read the epoch before a lock stays locked out at every later step |
| `UnlockAttempts.LockBeatsEarlierUnlock` | client/src-tauri/src/biometric.rs:894-945 | over every run, an unlock of any kind that had read the epoch when a lock reached the core, its prompt still up or its keys being derived, installs nothing afterwards |
| `UnlockAttempts.EpochMovesAtLocks` | rust-core/crates/ffi/src/lib.rs:6898-6904 | over every run the epoch is the same at two moments if and only if no lock reached the core between them |
| `UnlockAttempts.UnlockOpensIff` | rust-core/crates/ffi/src/lib.rs:6906-6937 | over every run, the last step of an unlock leaves the vault open by that unlock if and only if it was not open already and no lock reached the core since the unlock read the epoch; a session already open is kept |
| `UnlockAttempts.UnlockInCoreOpens` | rust-core/crates/ffi/src/lib.rs:6960-7065 | undisturbed and with the right credentials, an unlock in the core opens the vault |
| `UnlockAttempts.OpensOnlyChecked` | rust-core/crates/ffi/src/lib.rs:6910-6911 | over every run, whoever opens the vault had its credentials accepted before |
| `UnlockAttempts.TypedReachesCore` | rust-core/crates/ffi/src/lib.rs:1953-1955 | a typed unlock, undisturbed, takes the prompt down and reaches the core with the epoch of that moment |
| `UnlockAttempts.CurrentAttemptPrompts` | client/src-tauri/src/biometric.rs:1000-1021 | the job of the current attempt, undisturbed, gets its prompt up with its dismisser stored |
| `UnlockAttempts.AnswerReachesCore` | client/src-tauri/src/biometric.rs:913-945 | a prompt answered while its attempt is current, the secret released, reaches the core with the epoch it had read |
| `UnlockAttempts.OverAttemptShowsNothing` | client/src-tauri/src/biometric.rs:858-868 | over every run, an attempt that is over before it decides to prompt never shows one |
| `UnlockAttempts.InCoreOnlyReleased` | client/src-tauri/src/biometric.rs:913-945 | over every run, a biometric unlock is in the core only after its attempt was found current once the prompt had answered, and its secret came out after that with the vault locked |
| `UnlockAttempts.LockRuns` | client/src-tauri/src/biometric.rs:182-188 | a lock ends the attempt, then locks the core, and then takes down the prompt that was up |
| `UnlockAttempts.SupersedeRuns` | client/src-tauri/src/biometric.rs:147-153 | superseding ends the attempt and takes its prompt down, the core left alone |
| `UnlockAttempts.OldCancelChangesNothing` | client/src-tauri/src/biometric.rs:158-169 | cancelling a number that is not current ends nothing and takes nothing down |
| `UnlockAttempts.TakenAfter` | client/src-tauri/src/biometric.rs:132-266 | who holds a prompt's dismisser after a step, exactly |
| `UnlockAttempts.AccountedKept` | client/src-tauri/src/biometric.rs:132-266 | every step keeps the account of each prompt: held once, taken down once, or neither |
| `UnlockAttempts.InvAlways` | client/src-tauri/src/biometric.rs:132-266 | that account holds in every state of every run |
| `UnlockAttempts.DismissersInOrder` | client/src-tauri/src/biometric.rs:132-212 | at every moment a stored dismisser belongs to the current number and no prompt was taken down twice |
| `UnlockAttempts.DismissedOnceIffOver` | client/src-tauri/src/biometric.rs:256-266 | at the end of every run a prompt was taken down exactly once if its attempt was over when it answered, never otherwise |
| `SystemAgent.Controller.constructor` | client/src-tauri/src/system_agent.rs:75-133 | epoch 0, nothing live |
| `SystemAgent.Controller.Revoke` | client/src-tauri/src/system_agent.rs:210-219 | the epoch moves, the live token is gone and cancelled |
| `SystemAgent.Controller.Arm` | client/src-tauri/src/system_agent.rs:223-236 | live under the epoch it was started in, else cancelled on the spot |
| `SystemAgent.Controller.Stop` | client/src-tauri/src/system_agent.rs:259-272 | the recorded listener is cancelled and the epoch left alone |
| `SystemAgent.InvKept` | client/src-tauri/src/system_agent.rs:145-351 | every step keeps: an uncancelled token is the recorded or the starting one, and is live or doomed |
| `SystemAgent.InvAlways` | client/src-tauri/src/system_agent.rs:145-351 | that holds in every state of every run |
| `SystemAgent.AtMostOneListener` | client/src-tauri/src/system_agent.rs:145-272 | over every run at most one listener token is uncancelled at a time |
| `SystemAgent.ShutSince` | client/src-tauri/src/system_agent.rs:195-236 | from a revoke made with the vault or screen locked, until it is unlocked, nothing is live and no later start is let in |
| `SystemAgent.NothingListens` | client/src-tauri/src/system_agent.rs:210-272 | in such a state, with no start or revoke half done, no token is uncancelled |
| `SystemAgent.LockLeavesNoListener` | client/src-tauri/src/commands.rs:424-444 | over every run, from a vault lock's second revoke until the next unlock, no listener stands once starts and revokes under way are over |
| `SystemAgent.ScreenLockLeavesNoListener` | client/src-tauri/src/system_lock.rs:84-98 | the same for a screen lock's single revoke, until the screen is unlocked |
| `SystemAgent.EpochMovesAtRevokes` | client/src-tauri/src/system_agent.rs:210-219 | over every run the epoch is the same at two moments if and only if nothing was revoked between them |
| `SystemAgent.StartArmsIff` | client/src-tauri/src/system_agent.rs:223-236 | over every run, arming makes a start's listener the live one if and only if nothing was revoked since the start began; otherwise cancelling it comes next |
| `SystemAgent.ResumeGoesOnUnrevoked` | client/src-tauri/src/system_agent.rs:159-161 | over every run, a resume goes on to stop the old listener only if nothing was revoked since it began |
| `SystemAgent.ArmsOnlyIfOpen` | client/src-tauri/src/system_agent.rs:173-184 | over every run, a listener comes to be armed only after the vault was found open with it bound and, for an enable, the setting saved |
| `SystemAgent.ResumeGoesAhead` | client/src-tauri/src/system_agent.rs:145-170 | a resume undisturbed, screen unlocked and vault open, gets to stop the old listener |
| `SystemAgent.OldListenerStopped` | client/src-tauri/src/system_agent.rs:259-272 | the recorded listener is cancelled, no other, and the epoch left alone |
| `SystemAgent.NewListenerLives` | client/src-tauri/src/system_agent.rs:175-189 | then, undisturbed, a new listener ends up live, recorded and uncancelled |
| `SystemAgent.EnableGoesAhead` | client/src-tauri/src/system_agent.rs:287-321 | enabling asks after it has stopped the old listener, and goes on alike |
| `SystemAgent.CancelledWereBound` | client/src-tauri/src/system_agent.rs:223-236 | over every run only listeners that were bound are ever cancelled |
| `SystemAgent.RevokeCancelsLive` | client/src-tauri/src/system_agent.rs:210-219 | a revoke cancels the live token, no other, and moves the epoch |
| `SystemAgent.SuspendRevokes` | client/src-tauri/src/system_lock.rs:84-98 | a suspend revokes too, once |
| `SystemAgent.LockRevokesTwice` | client/src-tauri/src/commands.rs:424-444 | over every run, a vault lock locks the core after a revoke of its own and goes on to revoke again |
| `InstanceReset.ThreadFitsKept` | rust-core/crates/ffi/src/lib.rs:6926-7065 | every step keeps one thread in the unlock gate, and what that thread may rely on |
| `InstanceReset.InvKept` | client/src-tauri/src/commands.rs:206-250 | every step keeps both files under an open vault, and a reset pending while any file of a locked vault is left once a reset is over |
| `InstanceReset.ResetLeavesNoHalfInstance` | client/src-tauri/src/commands.rs:206-250 | from any disk, half instances included, over every run of unlocks (also ones that fail after creating the database) and resets, at the end the vault is locked with neither file or open with both |
| `InstanceReset.ResetSparesOpenVault` | client/src-tauri/src/commands.rs:217-220 | over every run, a reset that finds the vault open never locks the core and never deletes a file |
| `InstanceReset.FilesGoOnlyWhenLocked` | client/src-tauri/src/commands.rs:217-242 | over every run, a file goes only in a reset that found the vault locked both times it asked, and with the vault locked as it goes |
| `InstanceReset.ResetReachesGate` | client/src-tauri/src/commands.rs:217-230 | a reset of a locked vault, undisturbed, locks the core and gets into the unlock gate |
| `InstanceReset.ResetDeletesBoth` | client/src-tauri/src/commands.rs:231-242 | there, the vault still locked, it deletes both files |
| `InstanceReset.UnlockOpens` | rust-core/crates/ffi/src/lib.rs:6960-7065 | an unlock that finds a keyset, undisturbed, opens the vault and leaves both files there |
| `InstanceReset.OvertakenUnlockOpensNothing` | rust-core/crates/ffi/src/lib.rs:7049-7058 | the vault opens only by the install of an unlock that holds the current epoch |
| `InstanceReset.AcceptedOnlyChecked` | rust-core/crates/ffi/src/lib.rs:6978-7002 | over every run, an unlock creates a database or installs only after its credentials were accepted, with a keyset there, the vault locked and no lock since it began |
| `InstanceReset.ResetLockWins` | client/src-tauri/src/commands.rs:221-223 | over every run, a reset's lock leaves the vault locked and an unlock under way then does not open it |
| `SftpSessions.Registry.constructor` | client/src-tauri/src/commands.rs:2169-2178 | no session |
| `SftpSessions.Registry.Insert` | client/src-tauri/src/commands.rs:2190-2214 | kept exactly when the epoch stands and the vault is open |
| `SftpSessions.Registry.Invalidate` | client/src-tauri/src/commands.rs:2216-2234 | a new epoch, an empty map, and every session handed back to be closed |
| `SftpSessions.Registry.Remove` | client/src-tauri/src/commands.rs:3211-3216 | that session leaves the map and no other |
| `SftpSessions.InvAlways` | client/src-tauri/src/commands.rs:2169-2234 | in every state of every run: who holds the epoch lock, what a sweep has listed, and no session lost |
| `SftpSessions.SessionsAreCurrent` | client/src-tauri/src/commands.rs:2169-2234 | whenever no invalidation is emptying the map, every session in it was begun in the current epoch |
| `SftpSessions.EverySessionKeptOrClosed` | client/src-tauri/src/commands.rs:2169-2234 | once nothing is under way, every session ever connected is in the map or closed |
| `SftpSessions.LockLeavesNoSession` | client/src-tauri/src/commands.rs:424-444 | over every run the map is empty from the end of a lock until the next unlock |
| `SftpSessions.EpochMovesAtBumps` | client/src-tauri/src/commands.rs:2216-2227 | over every run the epoch is the same at two moments if and only if nothing was invalidated between them |
| `SftpSessions.OpenGoesOnIff` | client/src-tauri/src/commands.rs:2188-2200 | over every run, an open that holds the epoch lock goes on to ask for the vault if and only if nothing was invalidated since it began; otherwise it closes its session |
| `SftpSessions.GuardedOpenInserts` | client/src-tauri/src/commands.rs:2196-2204 | under the lock and with the vault open the session gets into the map |
| `SftpSessions.LockedOpenCloses` | client/src-tauri/src/commands.rs:2196-2201 | with the vault locked it is closed instead |
| `SftpSessions.CloseTakesOut` | client/src-tauri/src/commands.rs:3211-3216 | closing a session takes it out of the map and closes it, and no other |
| `SftpSessions.InvalidationSweeps` | client/src-tauri/src/commands.rs:2216-2228 | an invalidation undisturbed moves the epoch, empties the map and is left with every session of it to close |
| `SftpSessions.SessionInMapIsOpen` | client/src-tauri/src/commands.rs:2169-2234 | over every run a session in the map has not been closed |
| `SftpSessions.SessionGoesOnlyBy` | client/src-tauri/src/commands.rs:2169-2234 | a session leaves the map only by its own close or an invalidation, and is closed only by those or by its own open |
| `SignApprovals.Approver.constructor` | client/src-tauri/src/observers.rs:394-401 | nothing pending, nothing remembered |
| `SignApprovals.Approver.HandOver` | client/src-tauri/src/observers.rs:378-392 | registered, with its mark, exactly when not cancelled before; every remembered cancel is forgotten |
| `SignApprovals.Approver.Take` | client/src-tauri/src/observers.rs:404-441 | that prompt is gone and every other as it was; the one who takes it out learns that it was waiting |
| `SignApprovals.Approver.Cancel` | client/src-tauri/src/observers.rs:518-531 | takes the prompt out, or remembers the cancel of one not registered, never both |
| `SignApprovals.Approver.SystemPrompts` | client/src-tauri/src/observers.rs:443-453 | exactly the system agent's pending prompts |
| `SignApprovals.Retain` | rust-core/crates/ffi/src/approvals.rs:338-358 | exactly the entries to keep, a kept front staying in front |
| `SignApprovals.RetainSplits` | rust-core/crates/ffi/src/approvals.rs:338-358 | the order is kept: what is kept of a line is what is kept of its first part, and then of the rest |
| `SignApprovals.LineShortened` | rust-core/crates/ffi/src/approvals.rs:316-391 | withdrawals, revokes and locks add nobody to the line and leave the front where it is |
| `SignApprovals.LineReturned` | rust-core/crates/ffi/src/approvals.rs:185-197 | the end of a turn takes that request out of the line and no other |
| `SignApprovals.Moved` | client/src-tauri/src/observers.rs:456-516 | every step moves a request on only along its own way: nothing else answers, revives or forgets it |
| `SignApprovals.InvKept` | rust-core/crates/ffi/src/approvals.rs:245-391 | every step keeps turn order, one answer per registered prompt, and epochs that are never ahead |
| `SignApprovals.InvAlways` | client/src-tauri/src/observers.rs:341-531 | that holds in every state of every run |
| `SignApprovals.OnePromptAtATime` | client/src-tauri/src/observers.rs:362-531 | at every moment at most one prompt is registered, it is the front of the line and not early-cancelled |
| `SignApprovals.OneAnswerEach` | client/src-tauri/src/observers.rs:404-441 | at every moment a request has been sent at most one answer, one on its way included |
| `SignApprovals.RefusedKept` | client/src-tauri/src/observers.rs:378-392 | a request cancelled before registration stays refused at every step |
| `SignApprovals.EarlyCancelRefusesUnseen` | client/src-tauri/src/observers.rs:456-531 | over every run, a cancel that comes before its request is registered refuses it: never shown, never approved |
| `SignApprovals.GoneSince` | client/src-tauri/src/observers.rs:404-531 | after any cancel or withdrawal, also the one that follows a timeout, the request never waits for an answer again |
| `SignApprovals.YesComesFromThePerson` | client/src-tauri/src/observers.rs:404-421 | only a yes that took the registered prompt out starts a request towards approval |
| `SignApprovals.YesSeenOnlyIfTaken` | client/src-tauri/src/observers.rs:404-421 | over every run, a yes is on its way to a request only if it took the registered prompt out before any cancel or withdrawal |
| `SignApprovals.GivingUpRefuses` | client/src-tauri/src/observers.rs:507-515 | over every run, a request whose wait timed out or whose window could not be told is never approved, whatever answer was or is taken for it |
| `SignApprovals.ApprovedOnlyByEarlierYes` | client/src-tauri/src/observers.rs:362-531 | over every run, a request is approved only if the person's yes took its prompt out before any cancel or withdrawal of it, and neither before nor after did its wait time out or the event fail |
| `SignApprovals.TakenYesApprovesIff` | client/src-tauri/src/observers.rs:404-516 | over every run, a request that is over and whose prompt a yes took out was approved if and only if its wait never timed out and the window was told |
| `SignApprovals.YesThenTimeout` | client/src-tauri/src/observers.rs:404-516 | a run in which a yes taken in time is lost to a timeout before it is sent |
| `SignApprovals.TimeoutThenYes` | client/src-tauri/src/observers.rs:404-516 | a run in which a yes is taken between the timeout and the withdrawal |
| `SignApprovals.YesThenFailedEvent` | client/src-tauri/src/observers.rs:404-516 | a run in which a yes is taken and the event to the window then fails |
| `SignApprovals.LeftBehindKept` | rust-core/crates/ffi/src/approvals.rs:245-391 | a request out of the line, from before a lock or of a revoked listener or taken out of it, stays out at every step |
| `SignApprovals.NotFrontNotShown` | rust-core/crates/ffi/src/approvals.rs:374-391 | over every run, a request from before a lock and not at the front is never registered after it |
| `SignApprovals.RevokeClearsSystem` | rust-core/crates/ffi/src/approvals.rs:343-358 | a revoke takes out of the line exactly the system agent's requests behind the front |
| `SignApprovals.RevokedNotShown` | rust-core/crates/ffi/src/approvals.rs:343-358 | over every run, once the system agent is revoked no request of it other than the one at the front is registered |
| `SignApprovals.RevokeKeepsForwarded` | rust-core/crates/ffi/src/approvals.rs:343-358 | a forwarded request in the line is still there after a revoke |
| `SignApprovals.ClosedNotShown` | rust-core/crates/ffi/src/approvals.rs:316-336 | over every run, a request behind the front whose connection ends is never registered |
| `SignApprovals.CloseKeepsOthers` | rust-core/crates/ffi/src/approvals.rs:321-336 | and the others stay in the line |
| `SignApprovals.CancelDecidedIff` | rust-core/crates/ffi/src/approvals.rs:316-391 | a cancel is decided on exactly for the request at the front, by a lock, by a revoke if it is the system agent's, and by the end of its own connection |
| `SignApprovals.CancelRefusesOrKeeps` | client/src-tauri/src/observers.rs:518-531 | a cancel that finds the prompt refuses it and leaves nothing behind; one that does not is kept and changes nothing else |
| `SignApprovals.JoinsIff` | rust-core/crates/ffi/src/approvals.rs:245-291 | over every run, a request gets into the line if and only if its connection is still there, nothing was locked since it asked and, for the system agent's, its listener was current then and not revoked since or, for a forwarded one, fewer than 64 wait; it is refused otherwise |
| `SignApprovals.VaultSeen` | rust-core/crates/ffi/src/lib.rs:10062-10068 | over every run, a request that asks after a lock and before the next unlock is refused at once; after an unlock and before the next lock it goes on to the line |
| `SignApprovals.ForwardedHaveRoom` | rust-core/crates/ffi/src/approvals.rs:257-260 | over every run never more than 64 forwarded requests are in the line |
| `SignApprovals.OnlySystemSwept` | client/src-tauri/src/observers.rs:443-453 | over every run a prompt is marked as its request is, and only the system agent's are withdrawn by a revoke |
| `SignApprovals.SystemPromptWithdrawn` | client/src-tauri/src/observers.rs:443-453 | each of those that is pending is taken out and refused |
| `SignApprovals.TimelyRequestJoins` | rust-core/crates/ffi/src/approvals.rs:245-291 | a request in time, undisturbed, joins the line at its end |
| `SignApprovals.FrontRequestShown` | client/src-tauri/src/observers.rs:456-505 | at the front and not cancelled, undisturbed, it is registered and shown |
| `SignApprovals.AnswerIsReturned` | client/src-tauri/src/observers.rs:404-516 | the person's answer, undisturbed, is what the request returns, and the line moves up |
| `SignApprovals.FrontNotShownAgain` | client/src-tauri/src/observers.rs:518-531 | the request at the front, cancelled while not registered, is never registered afterwards |
| `SignApprovals.OldRequestNotShownAfterLock` | rust-core/crates/ffi/src/approvals.rs:361-391 | after a lock and its cancel no earlier request is put on screen, unless it stood registered when the cancel arrived |
| `SignApprovals.RegisteredStillShown` | client/src-tauri/src/observers.rs:456-516 | and in that case it can be: telling the window is its next step |
| `SignApprovals.CancelBetweenRegistrationAndEvent` | client/src-tauri/src/observers.rs:456-531 | a run in which a lock's cancel falls there and the prompt stays on screen with no answer able to reach it |
| `SuspendHandOff.Slot.constructor` | client/src-tauri/src/system_lock.rs:132-146 | tokens start at 1, the slot is empty |
| `SuspendHandOff.Slot.Arm` | client/src-tauri/src/system_lock.rs:169-174 | a token never used before holds the slot |
| `SuspendHandOff.Slot.Close` | client/src-tauri/src/system_lock.rs:179-184 | the slot is empty |
| `SuspendHandOff.Slot.Ack` | client/src-tauri/src/system_lock.rs:196-209 | releases the hand-off it names and no other |
| `SuspendHandOff.AnsweredOnlyByOwnAck` | client/src-tauri/src/system_lock.rs:169-209 | over every run a wait is answered only by an answer with its own token, made while its own hand-off held the slot |
| `SuspendHandOff.WokenUnansweredOnlyByOverlap` | client/src-tauri/src/system_lock.rs:169-184 | a wait ends early unanswered only if another hand-off began or closed while it was open |
| `SuspendHandOff.OverlapWakes` | client/src-tauri/src/system_lock.rs:169-184 | and then it can: the overlap drops the waiting one's sender |
| `SuspendHandOff.SecondHandOffEndsFirst` | client/src-tauri/src/system_lock.rs:159-184 | a run in which a second hand-off ends the wait of the first with no answer made |
| `SuspendHandOff.EarlyEndMeansOwnAck` | client/src-tauri/src/system_lock.rs:159-209 | with hand-offs one after the other, a wait that ends before its deadline was answered with its own token |
| `SuspendHandOff.ArmsFreshToken` | client/src-tauri/src/system_lock.rs:169-174 | over every run each hand-off has a token of its own and is the one that waits once armed |
| `SuspendHandOff.AckReleases` | client/src-tauri/src/system_lock.rs:179-209 | over every run, an answer with the token of the hand-off that waits lets it end answered, the slot empty |
| `SuspendHandOff.OtherAckIgnored` | client/src-tauri/src/system_lock.rs:196-209 | an answer with any other token changes nothing |
| `AuditDelivery.AfterIsTail` | server/src/store/audit_repo.rs:207-248 | the rows after the cursor are the tail of the log behind the rows it has passed |
| `AuditDelivery.PageIsStretch` | server/src/store/audit_repo.rs:207-248 | a page is the stretch of the log right behind the cursor |
| `AuditDelivery.PassedAt` | server/src/audit_sinks.rs:52-62 | a cursor set to a row's seq has passed exactly the rows up to it |
| `AuditDelivery.BackoffOfKthFailure` | server/src/audit_sinks.rs:223-229 | the k-th failure in a row waits between three quarters of min(2^(k-1), 300) seconds and that, for every k, saturating |
| `AuditDelivery.JitterSpreadsIff` | server/src/audit_sinks.rs:374-385 | the delays that can come out are exactly those from three quarters of the base, rounded up, to the base |
| `AuditDelivery.Delivery.constructor` | server/src/audit_sinks.rs:138-156 | a batch size of at least one, nothing pending, no failures |
| `AuditDelivery.Delivery.Fail` | server/src/audit_sinks.rs:223-229 | the delay of this failure, and the count saturated |
| `AuditDelivery.Delivery.DeliverStep` | server/src/audit_sinks.rs:159-220 | the new cursor, receiver and memory for every answer of sink and store, a sink that fails after any number of rows included; exactly when a step fails, with which delay; delivered only behind an acknowledgement, and a failure keeps the very same batch |
| `AuditDelivery.DedupedStretch` | server/src/audit_sinks.rs:159-211 | a receiver that drops seqs it has seen gains, from a stretch sent again, exactly what is new |
| `AuditDelivery.InvKept` | server/src/audit_sinks.rs:159-211 | every append, step, failure with any part of a batch sent, and crash keeps the receiver on a prefix of the log and the cursor within what was acknowledged |
| `AuditDelivery.AtLeastOnceInOrder` | server/src/audit_sinks.rs:159-220 | over every run what the receiver keeps is a prefix of the log in log order, and every row at or below the cursor was acknowledged and received |
| `AuditDelivery.KthFailedStepWaits` | server/src/audit_sinks.rs:159-229 | over every run, the k-th failed step in a row waits between three quarters of min(2^(k-1), 300) seconds and that, for every k |
| `AuditDelivery.RetriesSameBatch` | server/src/audit_sinks.rs:159-221 | over every run, a batch that failed is the very one the next step works on, however the log has grown |
| `AuditDelivery.CrashRestartsAtCursor` | server/src/audit_sinks.rs:138-156 | over every run, after a crash the next batch is the page behind the saved cursor, with no failures counted |
| `AuditDelivery.BatchesRoundsUp` | server/src/audit_sinks.rs:213-221 | how many batches a number of rows makes |
| `AuditDelivery.PageLeaves` | server/src/audit_sinks.rs:213-221 | the rows after the cursor are the page and then the rows after its last |
| `AuditDelivery.WellStepTakesOne` | server/src/audit_sinks.rs:159-220 | with nothing failing, a step that is not idle is one fewer to go, and what was received with what is still ahead stays the same |
| `AuditDelivery.CatchUp` | server/src/audit_sinks.rs:246-271 | with nothing failing and the log at rest, the loop is idle after exactly one step per batch left and one more; the receiver has then got the batch being retried and every row behind it, once each and in order |
| `ByteStrings.FromBeOfBe` | server/src/codec.rs:62-73 | reading a big-endian number undoes writing it |
| `ByteStrings.BeOfFromBe` | server/src/codec.rs:62-73 | and writing undoes reading |
| `ObjectCodec.Reader.constructor` | server/src/codec.rs:45-48 | at the start of the buffer |
| `ObjectCodec.Reader.U8` | server/src/codec.rs:49-53 | the first byte and the rest, or an error on none |
| `ObjectCodec.Reader.Take` | server/src/codec.rs:54-61 | that many bytes and the rest, or an error |
| `ObjectCodec.Reader.Word32` | server/src/codec.rs:62-67 | a 32-bit big-endian number, or an error |
| `ObjectCodec.Reader.Word64` | server/src/codec.rs:68-73 | a 64-bit big-endian number, or an error |
| `ObjectCodec.Reader.Field` | server/src/codec.rs:74-77 | a field behind a 32-bit length, or an error |
| `ObjectCodec.OpenVault` | server/src/codec.rs:145-166 | accepts exactly the vaults of the layout, with both ranges, and fills exactly their columns |
| `ObjectCodec.OpenItem` | server/src/codec.rs:167-180 | the same for items |
| `ObjectCodec.OpenManifest` | server/src/codec.rs:181-188 | the same for manifests |
| `ObjectCodec.OpenGrant` | server/src/codec.rs:189-205 | the same for grants, the expiry read as two's complement |
| `ObjectCodec.OpenAudit` | server/src/codec.rs:206-212 | the same for audit entries |
| `ObjectCodec.OpenAccountState` | server/src/codec.rs:217-224 | the same for account states |
| `ObjectCodec.DecodesWhatIsPrinted` | server/src/codec.rs:135-229 | decoding undoes printing for all seven tags, and refuses anything after the print |
| `ObjectCodec.PrintsWhatWasDecoded` | server/src/codec.rs:135-229 | an accepted buffer is the print of what was read, raw tombstone byte included |
| `ObjectCodec.AcceptedIffPrinted` | server/src/codec.rs:135-229 | a buffer is accepted as an object if and only if it is that object's print and the object is in range |
| `ObjectCodec.PrintThen` | server/src/codec.rs:135-229 | a print does not depend on what follows it |
| `ObjectCodec.ColumnsIndexed` | server/src/codec.rs:97-229 | field by field, which columns an object fills and with what, and that every other is empty; deleted exactly when the tombstone byte is not 0 |
| `ObjectCodec.AcceptedArePrefixFree` | server/src/codec.rs:78-84 | no extension of an accepted buffer is accepted, hence no proper prefix of one either |
| `ObjectCodec.ParseOpen` | server/src/codec.rs:135-229 | for every accepted buffer every column, filled or empty, from the one object the buffer prints; an error exactly when it prints none |
| `RecordSignatures.MessagesAreUnambiguous` | server/src/crypto.rs:17-41 | messages with the same bytes are the same message: no two records, account states, registrations, challenges or audit payloads coincide, nor any across domains |
| `RecordSignatures.GrantContentIsUnambiguous` | server/src/crypto.rs:431-436 | a grant's content determines role, expiry and wrapped key |
| `RecordSignatures.GrantContentInARow` | server/src/crypto.rs:431-436 | the domain, the role, the expiry and the wrapped key, in this order |
| `RecordSignatures.SecondParserReads` | server/src/crypto.rs:369-461 | the second parser reads what an object has signed out of its print, whatever follows |
| `RecordSignatures.ParsersAgree` | server/src/crypto.rs:369-461 | on every buffer the strict codec accepts, the second parser takes the same vault, item or member id, version or epoch, role, expiry, signature and author as are indexed |
| `RecordSignatures.SecondParserIgnoresTail` | server/src/crypto.rs:369-461 | alone it is not strict: bytes appended change nothing for it, and the codec refuses them |
| `RecordSignatures.SigBlobIff` | server/src/crypto.rs:44-62 | a signature blob is exactly the Ed25519 header and 64 bytes |
| `RecordSignatures.RecordAuthenticIff` | server/src/crypto.rs:340-359 | a record's signature holds if and only if the ids fit, the key is a point, the blob is the header and 64 bytes, and those verify over the message written out byte for byte |
| `RecordSignatures.AccountAuthenticIff` | server/src/crypto.rs:440-458 | the same for an account state |
| `RecordSignatures.SameMessageIff` | server/src/crypto.rs:340-359 | two objects have the same signed message if and only if they agree on vault, item or stand-in id, version and content digest |
| `RecordSignatures.GrantMessageFixesTerms` | server/src/crypto.rs:419-438 | without a digest collision a grant's message fixes vault, member, epoch, role, expiry and key |
| `RecordSignatures.VaultMessageFixesTermsIff` | server/src/crypto.rs:373-388 | without a digest collision a vault's message fixes vault and version, and key and name if and only if the key's length is known |
| `RecordSignatures.AnyCutSharesMessage` | server/src/crypto.rs:373-388 | every cut of a vault's content makes a vault that is accepted and has the same message |
| `RecordSignatures.TwoVaultsOneMessage` | server/src/crypto.rs:373-388 | two accepted vaults with different keys and names and one message |
| `RecordSignatures.StandInSharesMessageIff` | server/src/crypto.rs:373-438 | an item's or a grant's message is a vault's or a manifest's if and only if its id is the stand-in and vault, version and content digest agree |
| `RecordSignatures.StandInItem` | server/src/crypto.rs:373-402 | every vault has an accepted item with its message: the stand-in id and the vault's content |
| `RecordSignatures.ItemAndVaultOneMessage` | server/src/crypto.rs:373-402 | an accepted item and an accepted vault with one message |
| `RecordSignatures.SameSigningIff` | server/src/crypto.rs:369-461 | on two accepted objects of one signed kind the second parser reads the same data if and only if they agree on the signed fields; tombstone, type, epoch, target, policy and wrapped item key are not among them |
| `RecordSignatures.AadCanonical` | server/src/crypto.rs:322-333 | the bytes in front of the digest, refused exactly when an id does not fit 16 bits |
| `RecordSignatures.BuildGrantContent` | server/src/crypto.rs:431-436 | the grant's content |
| `RecordSignatures.VerifyVersioned` | server/src/crypto.rs:340-359 | true exactly when key, signature and ids are well formed and the key signed the record's message |
| `RecordSignatures.VerifyAccountState` | server/src/crypto.rs:448-457 | the same for an account state's message |
| `RecordSignatures.VerifyVault` | server/src/crypto.rs:373-388 | the fields read and the vault's message verified |
| `RecordSignatures.VerifyItem` | server/src/crypto.rs:389-402 | the same for items |
| `RecordSignatures.VerifyManifest` | server/src/crypto.rs:403-418 | the same for manifests |
| `RecordSignatures.VerifyGrant` | server/src/crypto.rs:419-438 | the same for grants |
| `RecordSignatures.VerifyAccount` | server/src/crypto.rs:440-458 | the same for account states |
| `RecordSignatures.VerifyRecordSig` | server/src/crypto.rs:369-461 | on a buffer the codec accepts, the answer is about the very object the codec read; audit entries and keysets pass unverified, and no blob of an unknown kind passes |
| `AccountPayloads.DomainMessage` | server/src/crypto.rs:33-41 | the length, the domain and the payload, refused when the domain does not fit 16 bits |
| `AccountPayloads.PurposeMessageInARow` | server/src/crypto.rs:17-41 | the message of each purpose is the length of its domain, the domain and the payload |
| `AccountPayloads.HoldsIff` | server/src/crypto.rs:44-92 | a signature holds if and only if the key is a 32-byte point, the blob is the header and 64 bytes, and those verify |
| `AccountPayloads.DomainVerify` | server/src/crypto.rs:80-92 | verified if and only if key and blob are well formed and the signature holds over the purpose's own message; unauthenticated if and only if they are and it does not; malformed otherwise |
| `AccountPayloads.RegistrationsAreUnambiguous` | server/src/crypto.rs:126-139 | canonical bytes determine the triple |
| `AccountPayloads.RegistrationInARow` | server/src/crypto.rs:127-138 | the length of the account id, the id, the X25519 key and the Ed25519 key, in this order |
| `AccountPayloads.Canonical` | server/src/crypto.rs:127-138 | refused exactly when the account id does not fit 16 bits |
| `AccountPayloads.ParseCanonical` | server/src/crypto.rs:103-125 | the one triple whose canonical bytes these are, or an error exactly when there is none |
| `AccountPayloads.RegistrationMessageIsItsOwn` | server/src/crypto.rs:141-150 | a message with a registration's bytes is a registration's, of that triple |
| `AccountPayloads.VerifyRegistration` | server/src/crypto.rs:143-150 | the same over the registration's message and under the payload's own key; malformed when the account id does not fit |
| `AccountPayloads.ChallengesAreUnambiguous` | server/src/crypto.rs:163-184 | canonical bytes determine all six fields |
| `AccountPayloads.ChallengeInARow` | server/src/crypto.rs:163-184 | host, account, device, key id and nonce behind their lengths and then the expiry, in this order |
| `AccountPayloads.PutField` | server/src/crypto.rs:167-174 | the field behind its length, after what is there |
| `AccountPayloads.ChallengeCanonical` | server/src/crypto.rs:163-184 | refused exactly when a field does not fit 16 bits |
| `AccountPayloads.ChallengeMessageIsItsOwn` | server/src/crypto.rs:187-198 | a message with a challenge's bytes is a challenge's, of those six fields |
| `AccountPayloads.VerifyServerAuth` | server/src/crypto.rs:187-198 | the same over the challenge's message and under the device's key; malformed when a field does not fit |
| `AccountPayloads.AcceptedIffKeyset` | server/src/crypto.rs:212-269 | a blob is let through if and only if it is the print of a well-formed keyset, and that keyset's parts are the ones found |
| `AccountPayloads.ParseKeysetHeader` | server/src/crypto.rs:212-269 | the header of that keyset, or an error exactly when there is none |
| `ShellProfile.SplitOnce` | client/src-tauri/src/cli_tools.rs:359-360 | around the first occurrence, none exactly when the marker is nowhere |
| `ShellProfile.AppendsBlock` | client/src-tauri/src/cli_tools.rs:346-366 | without a START the text is kept and START, the command and END put behind it, a line each; that START is the first |
| `ShellProfile.ReplacesBlock` | client/src-tauri/src/cli_tools.rs:346-366 | from the first START to the first END after it is replaced by START, the command and END, a line each; everything before and after is kept |
| `ShellProfile.LeavesOpenBlock` | client/src-tauri/src/cli_tools.rs:346-366 | a START with no END after it leaves the text alone |
| `ShellProfile.Idempotent` | client/src-tauri/src/cli_tools.rs:346-366 | for every text, a second pass changes nothing |
| `ShellProfile.ProfileIdempotent` | client/src-tauri/src/cli_tools.rs:346-366 | with the real markers and each of the four commands |
| `ShellProfile.OneBlock` | client/src-tauri/src/cli_tools.rs:346-366 | a text that had no START has exactly one |
| `ShellProfile.NoSecondBlock` | client/src-tauri/src/cli_tools.rs:346-366 | where START stands afterwards: at the block, and beyond it exactly where it stood in the text kept |
| `ShellProfile.UnchangedIff` | client/src-tauri/src/cli_tools.rs:246-251 | a text is left as it is if and only if the current block stands at its first START or no END follows that |
| `ShellProfile.BlockCountsIff` | client/src-tauri/src/cli_tools.rs:246-251 | a text with a block counts as configured on Linux if and only if the block holds the current command, and elsewhere whatever it holds |
| `ShellProfile.ConfiguredAfterwards` | client/src-tauri/src/cli_tools.rs:246-285 | after configuring, the text counts as configured if and only if it had no START or an END anywhere |
| `ShellProfile.ConfiguredWronglyIff` | client/src-tauri/src/cli_tools.rs:246-285 | after configuring, a text counts as configured and holds no block if and only if it had a START, no END behind the first one and an END somewhere |
| `ShellProfile.ConfiguredWithoutBlock` | client/src-tauri/src/cli_tools.rs:246-251 | END and then START counts as configured with no block in it |
| `ShellProfile.ProfileConfiguredWithoutBlock` | client/src-tauri/src/cli_tools.rs:246-251 | with the real markers and each of the four commands |
| `OcspScan.HasOcspResponder` | client/src-tauri/src/platform_tls.rs:180-185 | true if and only if the ten bytes occur somewhere |
| `OcspScan.NeedleIsIdAdOcsp` | client/src-tauri/src/platform_tls.rs:159-185 | the ten bytes are the tag, the length and the octets of 1.3.6.1.5.5.7.48.1 by the rule for object identifiers |
| `OcspScan.EncodingHoldsNeedle` | client/src-tauri/src/platform_tls.rs:136-178 | the encoding of a tree with the identifier anywhere in it holds the ten bytes in a row |
| `OcspScan.NamedResponderIsFound` | client/src-tauri/src/platform_tls.rs:131-185 | for every tree of nested elements, whatever their headers and trailers, that names a responder, revocation does not count as unanswered, whatever was stapled |
| `OcspScan.UnansweredIff` | client/src-tauri/src/platform_tls.rs:131-133 | unanswered if and only if nothing is stapled and the bytes are nowhere; then no responder is named |
| `OcspScan.FalsePositive` | client/src-tauri/src/platform_tls.rs:155-159 | the bytes inside an octet string are found too, so the scan errs towards refusing |
| `OcspScan.PaddedLengthIsMissed` | client/src-tauri/src/platform_tls.rs:159-170 | an identifier with a padded length, which DER forbids, is not found |
| `OcspScan.SegmentedIdentifierIsMissed` | client/src-tauri/src/platform_tls.rs:159-170 | nor is one cut in two by the segments of an octet string, which DER forbids too |
| `Placeholders.ToPg` | server/src/store.rs:63-76 | the loop computes the text in which the k-th `?` became `$k` |
| `Placeholders.FirstReadsAsMeantIff` | server/src/store.rs:61-76 | one character of the rewritten text reads as meant if and only if neither a word in front nor a digit behind changes it |
| `Placeholders.ReadsAsMeantIff` | server/src/store.rs:61-76 | for any notion of what begins a word, the rewritten text reads as the original was meant if and only if no `?` stands inside a word and no digit right behind a `?`, or behind a `$` outside a word |
| `Placeholders.PlainSeparatedIff` | server/src/store.rs:61-76 | for the reader without words: if and only if no digit stands right behind a `?` or a `$` |
| `Placeholders.MarkBehindName` | server/src/store.rs:61-76 | a `?` right behind a name becomes part of the name, though no digit is near |
| `Placeholders.SubstitutesTheSame` | server/src/store.rs:79-94 | for such a text, filling `$k` with the k-th bound value gives what filling the `?`s from left to right gives, for all values and any number of them |
| `Placeholders.PlainSubstitutesTheSame` | server/src/store.rs:79-94 | the same for the reader without words |

## Left out

- The core beyond its lock epoch, session, unlock gate, files and line of requests: the vault, key derivation, the sync engine and the rewrite of a legacy keyset on unlock.
- Which outcome an unlock attempt reports to the window (`attempt_outcome`, `reported`, `status_from`): easy selections over what is modelled.
- SystemAgent.Controller.Stop: the wait for the listener's task and the removal of its socket are not modelled, only the order of the token steps.
- Withdrawing the system agent's prompts on a revoke is modelled in `SignApprovals` and not tied to the steps of `SystemAgent`.
- InstanceReset.ResetLeavesNoHalfInstance: file deletes succeed; a reset stopped by an error halfway is not modelled.
- SealedPassword.NoStalePasswordStaysSealed: deletes succeed; a file that cannot be removed is reported by `ForgetAfterKeysetChange` instead.
- UnlockAttempts.DismissedOnceIffOver: each attempt number is used for one prompt; two prompts under one number are not modelled.
- The clock: timeouts and grace periods are steps that may come at any time, and waits have no length except in the backoff.
- The error texts and the split of errors into codes, except malformed against unauthenticated in `AccountPayloads`.
- Webhook and syslog sinks, metrics, status records and the shutdown branch of the export loop.
- SQL: the page query is modelled on a sequence, the placeholder rewrite on the text alone, without quotes, dollar quotes or comments.
- Text encodings: profile and SQL texts are sequences of characters.
- The rest of the CLI installer (links, ownership marker, Windows PATH), the MCP broker, transports, routing, DTOs, React views and platform prompt adapters.
