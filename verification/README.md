# Pear Passwords backend: a Dafny model

The project models the state- and string-heavy parts of the Python backend of Pear Passwords and proves properties of
them. It follows the program's files:

| file | what it models |
|---|---|
| `Sessions.dfy` | the daemon's lock and wipe protocol for one uid: event-loop segments, worker-thread store calls, the store mutex, tier 1, the browser's unlock, dialogs, tickets and grants, as one step system |
| `Openings.dfy`, `KeyHeld.dfy` | what an approved op must open, grant or hand out, and when; when the store loses its key |
| `Entries.dfy`, `Vstore.dfy` | the per-user store: sealed boxes, history files, metadata, `set_secrets`, `apply_sync` |
| `Crash.dfy`, `Keeping.dfy`, `History.dfy`, `SyncRefines.dfy`, `Passkeys.dfy` | what every crash point keeps; the filed history of an entry; a sync as a map update and as a repair; passkey rows |
| `Rotation.dfy` | moving a store to new keys |
| `Answers.dfy` | what an unlocked store answers after any calls and a rotation |
| `Tagline.dfy` | the "Tags:" line grammar and edits of notes |
| `Codec.dfy`, `Ckks.dfy` | the protobuf wire codec and CloudKit records |
| `KeyVault.dfy`, `Srp.dfy` | the escrow message and the SRP-6a key agreement |
| `Prompts.dfy` | the dialog table and its pause after refusals |
| `Tickets.dfy`, `Grants.dfy` | tickets and per-entry grants |
| `Clip.dfy` | one clipboard offer |
| `Host.dfy`, `HostRows.dfy` | keychain items to credentials, and what each row says of the items |
| `Wrappers.dfy` | option and result types |

Objects whose methods change fields are classes, and loops are methods with loops; each is proved equal to a function of
its inputs or its old state, and the properties are lemmas about those functions, most of them over whole runs. Clocks,
random tokens, new keys, polkit's answers, pipe holders and the bytes a write takes are inputs and may be anything.
Hashes and MACs are free constructors or an arbitrary function, boxes open with their own key only, and UTF-8, case
folding, host names and the reading of notes are arbitrary functions with the laws a lemma names.

## Where code and expectation part

Each of these is a lemma with the exact condition or the failing family.

- A live row of kind "passkey" that holds a non-blank password loses it when the password is replaced: the row's kind,
  not its box, decides that nothing is filed (`Keeping.PasswordKept`, `Passkeys.PasskeyRowLoses`). Only a direct caller of
  the store can get there: the keychain pipeline gives passkey-only rows a blank password
  (`backend/icp/vault/host.py:402-411`) and the window's edits refuse them (`backend/icp/daemon/handlers.py:778-783`); fed
  that way, no password is lost (`Passkeys.PasswordsAlwaysKept`).
- After a crash between the box and the metadata of an edit, the next sync does not always repair the metadata, as the
  header of `backend/icp/vstore/entries.py` says. It does exactly when it brings the entry with other secrets than the old
  ones (`SyncRefines.CrashRepairedExactly`, `SyncRefines.RepairedExactly`); the old item is counted unchanged
  (`SyncRefines.StaleItemUnrepaired`), and the new one files the current password as an old one
  (`SyncRefines.CurrentFiledAsOld`).
- While an old box is being filed the entry has no current box, exactly from the unlink to the write
  (`Keeping.MissingExactly`), and after a crash a listed number can lack its file: exactly with a full history, from the
  drop of the oldest box to the metadata (`History.RetentionTears`).
- A sync repeated as it is reports an item as added again when its id is also listed as deleted
  (`SyncRefines.SecondSyncUnchanged`).
- A saved record does not come back unchanged when it holds an absent value, a flag or a negative number
  (`Ckks.SameExactly`).
- The browser's unlock can stand open on a store without its key: `_save_setting_keys`
  (`backend/icp/daemon/handlers.py:1114-1121`) makes two store calls with no look at the epoch between them, so a migration
  or reset that a lock ended can wipe the store after the browser has unlocked it again (`KeyHeld.OpenWithoutKey`). When a
  step takes the key is `KeyHeld.KeysGoExactly`; without such a step it stays (`KeyHeld.KeyStays`).
- The SRP proof is over user, salt, public values and key run together in their shortest forms, as the escrow server wants
  it, so it tells them apart exactly when their bytes differ: with public values of other lengths they need not
  (`Srp.ProofBindsText`, `Srp.PublicsRunTogether`). For the same reason the scrambler is that of section 2.6 of RFC 5054
  exactly when both public values have the full width (`Srp.ScramblerExactly`).
- The timing fallback of the clipboard serves readers nobody could identify (`Clip.TimingServesAnyone`,
  `Clip.OnePasteExactly`).

## Model

| member | source | states |
|---|---|---|
| Sessions.StepKeeps | backend/icp/daemon/sessions.py:306-352 | Every step of loop, worker or client keeps the invariant: keys in the current store only while tier 1 or the browser's unlock is open or someone pending will wipe or open it; a left-over wipe only while a call from before the lock runs |
| Sessions.RunInv | backend/icp/daemon/sessions.py:497-549 | The invariant holds in every reachable state of every interleaving, a lock landing anywhere, also between exit check and mutex release |
| Sessions.KeysOnlyWhileOpen | backend/icp/daemon/sessions.py:497-549 | In every reachable state, with tier 1 and the browser's unlock closed and no store call waiting or running, the session's current store holds no list key |
| Sessions.SessionInvariant | backend/icp/daemon/sessions.py:413-447 | wipe_after implies a running call that got the store lock before the lock and nothing open; tier 1 is None or the window; every grant, ticket and dialog is of the current epoch; a grant implies tier 1 |
| Sessions.RequestIsKept | backend/icp/vstore/__init__.py:151-175 | A wipe request on a store object is never lost: each step keeps it or leaves the keys wiped, and no outermost method that enters after it runs its body |
| Sessions.KeysStayInside | backend/icp/vstore/__init__.py:410-439 | While a serialized method runs, no step but its own exit takes the keys |
| Sessions.KeysStayUntilExit | backend/icp/vstore/__init__.py:151-175 | Over every stretch of a run: keys present when a method's entry check passed are present until its exit check |
| Sessions.ExitWipes | backend/icp/daemon/sessions.py:320-352 | When the call that owes a wipe ends and its handler has gone on to its next wait, the current store holds no keys, wipe_after is false and nothing is open |
| Sessions.NewStoreAfterLock | backend/icp/daemon/handlers.py:144-162 | A store made by create or reset while a lock landed becomes current wiped, and its handler opens nothing on it |
| Sessions.OpensOnlyApproved | backend/icp/daemon/handlers.py:490-538 | A step opens tier 1 only on the warrant of the epoch it opens in: an unlock or sign-in dialog of that connection approved in this epoch, a migration dialog approved in it or whose own lock led into it, or a reset whose own lock led into it; the browser's unlock only on a names dialog approved in it |
| Sessions.OpensAfterApproval | backend/icp/daemon/handlers.py:1249-1283 | In every run, when tier 1 opens for a connection, an unlock, sign-in, migration or reset dialog of that connection was approved before, and from that approval to the opening no lock has landed but the op's own: none at all for unlock and sign-in, the one in the approval's own step for a migration, and for a reset none from the approval to its own lock and none from there on; when the browser's unlock opens, a names dialog was approved and no lock has landed |
| Sessions.LockMovesEpoch | backend/icp/daemon/sessions.py:497-523 | A lock raises the epoch, closes tier 1 and the browser's unlock, and leaves no grant, ticket or dialog |
| Openings.OpensExactly | backend/icp/daemon/handlers.py:490-535 | In every run tier 1 opens for a connection in a step if and only if the step ends the last store call of an unlock, sign-in, migration or reset of it, that op's own approval stands with no lock since but the op's own, and it is the window, still connected; the browser's unlock opens if and only if the step ends an unlock that put the keys in memory, its approval stands with no lock since, and the connection is open |
| Openings.StepOpensExactly | backend/icp/daemon/handlers.py:521-534 | The same of one step, in terms of the op's epoch; the outcome of op_unlock's last call does not matter |
| Openings.CurrentMeansHeld | backend/icp/daemon/handlers.py:1249-1279 | In every run a running op still carries the session's epoch if and only if no lock but its own has landed since its approval |
| Openings.StepGivesExactly | backend/icp/daemon/handlers.py:599-629 | In every step a grant appears if and only if op_grant's last call gave the entry and nothing locked since, and the old one is gone before; a clip ticket if and only if a copy got that far, and then it is the only one; a migrate ticket if and only if migrate-begin ended or a purge was approved; each of the current epoch |
| Openings.StepEndsExactly | backend/icp/daemon/sessions.py:596-618 | In every step without a lock tier 1 stays, the browser's unlock ends only by its timer or its connection, a grant goes if and only if it is released or op_grant asks for another, and a ticket if and only if it is redeemed or a new copy replaces it |
| Openings.GetsThere | backend/icp/daemon/handlers.py:510-534 | In every run an op in flight that no lock, close or failure of its own calls meets is still in flight, or what it is after was opened, granted or handed out meanwhile: unlock, browser's unlock, sign-in, migration and reset after their new store, grant, copy |
| Openings.ResetGoesOn | backend/icp/daemon/handlers.py:1260-1274 | op_reset after its last read makes its own lock, one epoch on, and goes on to the new store |
| Openings.ApprovalStarts | backend/icp/daemon/handlers.py:504-512 | Each approval puts its op in flight, or for a purge gives the ticket, unless a wipe is still owed |
| Openings.CallStarts | backend/icp/daemon/handlers.py:599-605 | So do op_grant and op_copy from the unlocked window |
| Openings.SeatTaken | backend/icp/daemon/handlers.py:346-355 | A window takes the seat exactly when no other sits there connected, and what was open is locked first |
| Openings.SeatLeft | backend/icp/daemon/sessions.py:413-428 | The window that is detached leaves the seat, and everything open, given or asked ends |
| Openings.AutofillEnds | backend/icp/daemon/sessions.py:473-495 | The browser's unlock ends alone while the window has tier 1 open and else with a full lock; it ends with its connection |
| KeyHeld.KeysGoExactly | backend/icp/daemon/sessions.py:337-352 | With no wipe left over and no lock in the step, the current store loses its key if and only if a store call ends that got the store lock in an older epoch while tier 1 is closed, or whose handler finds its op without its epoch, connection or window |
| KeyHeld.KeyStays | backend/icp/daemon/handlers.py:510-534 | Over any stretch of a run in one epoch with one store and no wipe left over, a key that is there stays unless such a call ends |
| KeyHeld.UnlockPutsKey | backend/icp/daemon/handlers.py:512 | Only an unlock that succeeds puts the key into a store, the one it was asked for |
| KeyHeld.OpenWithoutKey | backend/icp/daemon/handlers.py:1114-1156 | A run of every two connections that ends with the browser's unlock open, nothing running, waiting or owed, and no key in the store |
| Sessions.UserStore.TryLockNow | backend/icp/vstore/__init__.py:410-426 | The request is set first; keys go at once unless a worker holds the mutex |
| Sessions.UserStore.EnterMethod | backend/icp/vstore/__init__.py:160-168 | The outermost entry check wipes and refuses when a request is pending |
| Sessions.UserStore.LeaveMethod | backend/icp/vstore/__init__.py:168-175 | The exit check carries out a request that landed meanwhile, with the mutex still held |
| Sessions.UserStore.WipeNow | backend/icp/vstore/__init__.py:434-439 | The keys are gone, the request stays |
| Sessions.UserStore.ReleaseMutex | backend/icp/vstore/__init__.py:163-174 | The mutex is released after the exit check; a try_lock may land before |
| Sessions.Session.LockNow | backend/icp/daemon/sessions.py:497-523 | The lock's whole new session and store state |
| Sessions.Session.WipeStoreNow | backend/icp/daemon/sessions.py:529-549 | Wipes through try_lock, or leaves wipe_after to the call that runs |
| Sessions.Session.CloseAutofillNow | backend/icp/daemon/sessions.py:481-495 | Ends the browser's unlock and wipes when tier 1 is closed too |
| Sessions.Session.NotLockedSince | backend/icp/daemon/handlers.py:157-162 | The re-check after a store call: same epoch, the window still there |
| Entries.EntryFiles.Next | backend/icp/vstore/entries.py:167-170 | One past every number metadata knows and every number on disk |
| Entries.NextIsFresh | backend/icp/vstore/entries.py:167-170 | That number names no file and is above every listed one |
| Entries.EntryFiles.MoveToHistory | backend/icp/vstore/entries.py:172-184 | A link and an unlink, unopened; refused when the number has a file, nothing when there is no box |
| Vstore.UserStore.FileOld | backend/icp/vstore/__init__.py:998-1004 | Moves the old box, lists it, and drops the oldest past fifty, as a trace of file operations |
| Vstore.UserStore.Trim | backend/icp/vstore/__init__.py:1002-1004 | The loop that drops the oldest filings, one file each |
| Vstore.UserStore.ReplaceSecrets | backend/icp/vstore/__init__.py:979-1009 | Record, disk and trace after replacing one entry's secrets, equal to the specification functions |
| Vstore.UserStore.SetSecrets | backend/icp/vstore/__init__.py:681-691 | The same for an edit, or EntryNotFound and no change |
| Vstore.UserStore.SyncItem | backend/icp/vstore/__init__.py:710-740 | One item: re-add, change or nothing, with metadata written at once after a filing |
| Vstore.UserStore.ApplySync | backend/icp/vstore/__init__.py:694-750 | The loop over items and deletions: counts, document, disk and trace |
| Vstore.UserStore.TombstoneAll | backend/icp/vstore/__init__.py:744-748 | The loop over the deleted ids, in any order |
| Vstore.CountsAdd | backend/icp/vstore/__init__.py:707-736 | Added, changed and unchanged add up to the number of items |
| Crash.CallEndsWritten | backend/icp/vstore/__init__.py:749-750 | A call that ends has written the document it holds |
| Crash.NeverRefused | backend/icp/vstore/entries.py:103-116 | Over any sequence of calls, each cut off after any of its file operations and restarted, every box on disk opens: its own id, and a version at least that of the metadata on disk |
| Crash.CallSound | backend/icp/vstore/__init__.py:694-750 | The same at every prefix of the file operations of one call |
| Keeping.ReplaceKeeps | backend/icp/vstore/__init__.py:979-1009 | One replacement keeps the old password at every crash point if and only if the row is no passkey row, or the password stays, or history has it |
| Keeping.PasswordKept | backend/icp/vstore/__init__.py:694-750 | From agreement, at every crash point of a sync or an edit, the non-blank password a live entry held is in its current or a history box, if and only if the call hands in none, the row is no passkey row, the password stays, or history has it |
| Keeping.MissingExactly | backend/icp/vstore/entries.py:172-184 | While filing, the current box is absent exactly from the unlink to the write |
| History.HistoryIsTheLatest | backend/icp/vstore/__init__.py:979-1009 | Over any run without a crash, the listed history with its boxes is exactly the latest fifty of what was listed plus what was filed, in order, each box the very one filed; numbers rise |
| History.ReplaceShelf | backend/icp/vstore/entries.py:195-201 | The same for one replacement: no history file is overwritten, the oldest are dropped past fifty |
| History.FiledExactly | backend/icp/vstore/__init__.py:997-1002 | The old box is filed exactly when a non-blank password of a login row gives way to another one |
| History.SyncFilesExactly | backend/icp/vstore/__init__.py:726-731 | The same for one item of a sync, for an entry live before |
| History.RunFiledExactly | backend/icp/vstore/__init__.py:979-1009 | Over any run from agreement, the boxes filed for an id are exactly the boxes of its login row whose non-blank password gave way to another one, in order |
| History.RetentionTears | backend/icp/vstore/__init__.py:1003-1004 | From a disk where every listed number has its file, at each crash point of an edit every number listed by the metadata on disk has its file, if and only if the edit did not file into a full history and stop after the drop and before the metadata |
| History.NoBlankFiled | backend/icp/vstore/__init__.py:985-988 | Over any run from agreement, agreement holds again and no blank password is filed |
| History.CallAgrees | backend/icp/vstore/__init__.py:694-750 | A call that ends leaves versions, MACs and counts in agreement with the boxes |
| SyncRefines.SyncIsMapUpdate | backend/icp/vstore/__init__.py:694-750 | From agreement, a sync is a map update: each item's entry becomes the item's, unnamed ids keep theirs, exactly the listed live ids are tombstoned, and all four counts are those of that update |
| SyncRefines.SecondSyncUnchanged | backend/icp/vstore/__init__.py:716-750 | The same sync again reports every item unchanged if and only if no item is also listed as deleted and items with one id agree |
| SyncRefines.SecondSyncWritesNoBox | backend/icp/vstore/__init__.py:992-995 | Listed as deleted or not, the same sync again writes, files and drops no box |
| SyncRefines.SyncRepairsExactly | backend/icp/vstore/entries.py:14-18 | After a whole sync metadata and box of a live entry agree if and only if the sync names it with secrets its stored MACs are not of, or they agreed before |
| SyncRefines.CrashRepairedExactly | backend/icp/vstore/entries.py:14-18 | From agreement, an edit cut off after any of its file operations and then a sync: metadata and box agree at its end if and only if, cut off between box and metadata, the edit changed nothing or the sync brings the entry with other secrets than the old ones; cut off while filing, the sync brings the entry; cut off elsewhere, always |
| SyncRefines.RepairedExactly | backend/icp/vstore/entries.py:14-18 | Whatever the disk holds, one item leaves metadata and box of its live entry in agreement if and only if the stored MACs were not already the item's or there was agreement before, and the box with the item's secrets if and only if they were not or it had them |
| SyncRefines.StaleItemUnrepaired | backend/icp/vstore/entries.py:14-18 | After a crash between box and metadata, every sync with the old item reports it unchanged and leaves the new box: no agreement |
| SyncRefines.CurrentFiledAsOld | backend/icp/vstore/__init__.py:737-741 | After that crash, every sync with the new item files the box that holds the current password |
| Passkeys.PasswordsAlwaysKept | backend/icp/vault/host.py:402-411 | From any agreeing store whose passkey rows are blank, over every run in which passkey items have blank passwords and no edit names a passkey row: passkey rows stay blank, and at every crash point of every further call each live non-blank password is in the current or a history box |
| Passkeys.PasskeyRowLoses | backend/icp/vstore/__init__.py:997-998 | One sync of any passkey item with a password into an empty store and one edit of it with another: the first password is in no box, without a crash |
| Rotation.MeaningKept | backend/icp/vstore/__init__.py:527-612 | After a rotation a fresh unlock gives the same answer for every entry, history, list row, session, aliases and nicknames, failures included |
| Rotation.MacsAgree | backend/icp/vstore/__init__.py:559-569 | Every record with a box has the MACs of the password and the rest in that box under the new key, whatever it had before, code parameters counting only beside a seed; one without has none |
| Rotation.SmallFilesRead | backend/icp/vstore/__init__.py:576-592 | The new tree reads the session, the aliases and the nicknames that the old keys had sealed |
| Rotation.OldKeysOpenNothing | backend/icp/vstore/__init__.py:464-474 | Corollary of the new tree's contents: with fresh keys the old ones open no box, blob or sealed file of it |
| Rotation.AnyCrashAnswers | backend/icp/vstore/format.py:125-137 | Wherever the process dies, an unlock of the user directory answers as the old store did |
| Rotation.ReadBackHolds | backend/icp/vstore/__init__.py:593-611 | The verification pass accepts the tree that was built |
| Answers.LastWriteAnswers | backend/icp/vstore/__init__.py:642-656 | Over any run of syncs and edits from agreement, an unlock and open_entry give exactly the secrets of the last call that named the entry, code parameters only beside a seed, and the list its kind, time, fields, code flag and notes; deleted entries are not found; entries no call named answer as before |
| Answers.SetIsMapUpdate | backend/icp/vstore/__init__.py:681-691 | set_secrets replaces the one entry's secrets; its row takes the call's time always, and the code flag and notes of the new secrets unless it holds them already |
| Answers.HistoryAnswers | backend/icp/vstore/__init__.py:658-679 | Over any run from a sound and agreeing store, the history answered is the latest fifty of what was listed and the real passwords that gave way, each with its call's time, beside Apple's list of the last call; the list counts exactly these two |
| Answers.CallPast | backend/icp/vstore/__init__.py:997-1004 | One call adds to the history exactly the passwords that gave way in it, with the call's time, and keeps the latest fifty |
| Answers.AnswersAcrossRotation | backend/icp/vstore/__init__.py:454-522 | Any calls, a rotation, any further calls under the new keys: an unlock under them gives what the last call that named the entry left |
| Answers.RotatedAgrees | backend/icp/vstore/__init__.py:548-575 | A rotated store is in agreement under its new keys |
| Rotation.UserDirs.ResealBoxes | backend/icp/vstore/__init__.py:548-569 | The loop over boxes and records: succeeds exactly when every box opens |
| Rotation.UserDirs.ResealHistory | backend/icp/vstore/__init__.py:570-575 | The loop over history boxes |
| Rotation.UserDirs.BuildRotated | backend/icp/vstore/__init__.py:527-612 | Builds the second tree with the user directory untouched; succeeds exactly when blobs verify, every box opens and the small files read |
| Rotation.UserDirs.WriteRest | backend/icp/vstore/__init__.py:576-592 | Metadata, session, aliases, nicknames, plain files, and the key record last |
| Rotation.UserDirs.ResealIfTpmAvailable | backend/icp/vstore/__init__.py:454-522 | Succeeds exactly when the store can rotate, otherwise memory and user directory are as before; at every step the user directory is the whole old tree or, from the exchange on, the whole new one |
| Tagline.ParseLineLoop | backend/icp/keychain/tagline.py:79-104 | The token loop computes the parse of a line |
| Tagline.ParseLineExactly | backend/icp/keychain/tagline.py:79-104 | A line parses to tags if and only if it has the documented shape |
| Tagline.CanonList | backend/icp/keychain/tagline.py:55-71 | The loop computes the canonical list or refuses |
| Tagline.CanonListFixpoint | backend/icp/keychain/tagline.py:55-71 | A canonical list is canonical again |
| Tagline.LineParses | backend/icp/keychain/tagline.py:74-104 | The line written for canonical tags parses to them |
| Tagline.ComposeReadsBack | backend/icp/keychain/tagline.py:130-154 | split(compose(b, t)) is (b, t) for every body and non-empty canonical tags |
| Tagline.ReplaceTagsReadsBack | backend/icp/keychain/tagline.py:165-179 | After replace_tags with tags the body is the old one, the tags are the new ones and the separator keeps its bytes; with none there is no tag line, and the text is the body, with a line break at most to keep its last line from becoming one |
| Tagline.LastTagWriteWins | backend/icp/keychain/tagline.py:165-179 | After a non-empty tag write, a second write of any tags gives byte for byte what it would have given alone |
| Tagline.AddThenRemove | backend/icp/keychain/tagline.py:139-179 | Adding and then removing tags on untagged notes restores the text exactly |
| Tagline.MergeLoop | backend/icp/keychain/tagline.py:189-196 | The loop computes the merged list, or none past the limit |
| Tagline.BodyEditKeepsTags | backend/icp/keychain/tagline.py:182-236 | For tagged notes and every new body, the result splits to that body with the old tags, or, when the body ends in a newly typed tag line that fits, to the body without it and the old tags followed by the new |
| Tagline.BodyEditUntagged | backend/icp/keychain/tagline.py:199-236 | For untagged notes a body edit makes a tag line only of a line the user typed, and then stores the body as given; a stored last line saved again stays body text |
| Tagline.SaveUnedited | backend/icp/keychain/tagline.py:157-236 | Saving the shown body unchanged, stripped of line feeds as the app sends it, never changes the tags |
| Tagline.EditKeepsTags | backend/icp/keychain/update.py:214-220 | An update that sets tags and a body keeps every tag it set, in front of those typed |
| Codec.EncodeVarint | backend/icp/proto/codec.py:18-27 | The loop writes the value in base 128, a negative one as 64-bit complement |
| Codec.VarRoundTrip | backend/icp/proto/codec.py:86-96 | A varint reads back to its value and length, whatever follows |
| Codec.ReadVarint | backend/icp/proto/codec.py:86-96 | The shifting loop reads that value, or fails at the end of the data |
| Codec.Writer.Bytes | backend/icp/proto/codec.py:51-54 | Appends one length-delimited field, or nothing for None |
| Codec.Writer.Uint64 | backend/icp/proto/codec.py:41-44 | Appends one varint field, or nothing for None |
| Codec.Writer.Bool | backend/icp/proto/codec.py:46-49 | Appends a flag as one varint field, or nothing for None |
| Codec.Writer.Double | backend/icp/proto/codec.py:61-65 | Appends one fixed 64-bit field, or nothing for None |
| Codec.NextField | backend/icp/proto/codec.py:98-117 | One field of each wire type, its errors, and where the next one starts |
| Codec.DecodeFieldsLoop | backend/icp/proto/codec.py:77-118 | The loop groups the fields by number in order, or gives the first error |
| Codec.TokensRoundTrip | backend/icp/proto/codec.py:34-118 | Every list of fields a writer made reads back as written, in order |
| Codec.DecodeRoundTrip | backend/icp/proto/codec.py:34-118 | It decodes to those fields grouped by number |
| Codec.KnownBytes | backend/icp/proto/codec.py:18-65 | Known encodings byte for byte: a varint, a string and a fixed 64-bit field, and minus one in ten bytes |
| Ckks.ParseRecordLoop | backend/icp/transport/ckks.py:114-132 | The record reader as it runs, every error included |
| Ckks.SerializeRecordLoop | backend/icp/transport/ckks.py:169-189 | The record writer as it runs |
| Ckks.ParseFieldsLoop | backend/icp/transport/ckks.py:124-131 | The loop over record fields: a later field of one name wins, the first error ends it |
| Ckks.WriteValue | backend/icp/transport/ckks.py:143-166 | Type tag and value field of every kind of value, or the refusal |
| Ckks.ValueReads | backend/icp/transport/ckks.py:88-166 | Every value and reference reads back, a reference as its target's name |
| Ckks.KindDeclared | backend/icp/transport/ckks.py:143-166 | Every value that can be written declares its kind in field 1: 1, 2, 3, 5, 7 or 8 |
| Ckks.RecordIdKinds | backend/icp/transport/ckks.py:134-141 | A record identifier names its record as kind 1, its zone as kind 6 and the zone's owner as kind 7 |
| Ckks.RecordRoundTrip | backend/icp/transport/ckks.py:114-189 | A saved record is fetched back with its name, type and field map, absent values left out, in whatever order the names were written |
| Ckks.SavesExactly | backend/icp/transport/ckks.py:163-189 | A save is refused if and only if a field named as a reference is not text |
| Ckks.SameExactly | backend/icp/transport/ckks.py:114-189 | A saved record is fetched back unchanged if and only if it holds no absent value, flag or negative number |
| KeyVault.KeyVaultMessage.Section | backend/icp/escrow/srp.py:85-86 | Appends a section, or fails when its length needs more than four bytes |
| KeyVault.KeyVaultMessage.SectionSized | backend/icp/escrow/srp.py:88-92 | Appends a padded section, or fails when it is too long or does not fit |
| KeyVault.KeyVaultMessage.Pack | backend/icp/escrow/srp.py:94-104 | Packs exactly when the whole message is shorter than 2^32 bytes |
| KeyVault.UnpackMessage | backend/icp/escrow/srp.py:65-77 | The loop reads each section through its table entry |
| KeyVault.UnpackPacked | backend/icp/escrow/srp.py:65-104 | A packed message unpacks to its header and every section's data, any number and mix of plain and padded sections |
| KeyVault.RoundTrip | backend/icp/escrow/srp.py:65-104 | Pack then unpack as they run: header and contents, or the refusal exactly at 2^32 bytes |
| KeyVault.LengthsWritten | backend/icp/escrow/srp.py:94-104 | The first four bytes of a packed message are its whole length and the last table entry the length of its body |
| KeyVault.BigVector | backend/icp/escrow/srp.py:60-62 | The most significant byte comes first |
| Srp.SecretsAgree | backend/icp/escrow/srp.py:134-136 | For every group, exponents and scrambler the client's secret is the server's of section 2.6 of RFC 5054 |
| Srp.HonestProofsAccepted | backend/icp/escrow/srp.py:125-146 | A server enrolled as section 2.6 of RFC 5054 writes it out, keeping only user, salt and verifier, accepts the client's proof and the client accepts the server's, for any hash |
| Srp.AcceptedExactly | backend/icp/escrow/srp.py:125-146 | Against any enrolment the proof is accepted if and only if user and salt are the enrolled ones and both sides reached the same secret, or two different texts hash alike |
| Srp.PasswordBinds | backend/icp/escrow/srp.py:132 | Two passwords of one user and salt give one x only where two different texts hash alike |
| Srp.ProofBindsText | backend/icp/escrow/srp.py:138-140 | Two proofs with keys of one length are equal if and only if users, keys and the run-together salts and public values are, or two different texts hash alike |
| Srp.ProofBinds | backend/icp/escrow/srp.py:138-140 | With salts and first public values of one length, if and only if all five are |
| Srp.PublicsRunTogether | backend/icp/escrow/srp.py:128-140 | Without that no hash tells them apart: proof and scrambler of 0x0203 and 4 are those of 2 and 0x0304 |
| Srp.ScramblerExactly | backend/icp/escrow/srp.py:133 | The scrambler is that of section 2.6 of RFC 5054 when both public values have the full width, and otherwise only where two different texts hash alike |
| Srp.XorVector | backend/icp/escrow/srp.py:139 | Byte by byte exclusive or |
| Srp.TrimReads | backend/icp/escrow/srp.py:56-62 | Trimmed bytes read back and have no leading zero |
| Srp.LeadingZeros | backend/icp/escrow/srp.py:128-130 | The server's public value means the same with any number of leading zeros |
| Prompts.RefusalsSpaced | backend/icp/daemon/sessions.py:257-297 | In every run any four consecutive counted refusals of one uid, bucket and action span at least 60 s, cancelled dialogs overlapping or not |
| Prompts.OneOutstanding | backend/icp/daemon/sessions.py:262-287 | In every run two uncancelled dialogs of one uid and bucket are the same |
| Prompts.WaitingSuffices | backend/icp/daemon/sessions.py:273-275 | Waiting the reported time is enough to be admitted when no refusal was counted meanwhile |
| Prompts.WaitingNeeded | backend/icp/daemon/sessions.py:273-275 | Until the last second of it the slot would still be refused |
| Prompts.AdmitExactly | backend/icp/daemon/sessions.py:257-282 | A new dialog is told gone, prompt-pending, rate-limited with its wait, or let in, each exactly when, in terms of the open dialogs and of every refusal ever counted |
| Prompts.CallerHears | backend/icp/daemon/sessions.py:283-297 | In every run whoever asked for a dialog hears that it was authorized if and only if polkit said so, no cancel of it came since it was let in and the connection is there; a cancelled one is told cancelled, an unanswered denial denied, any other answer as it is; a refusal is counted if and only if it was dismissed or denied and not cancelled |
| Prompts.PromptTable.Ask | backend/icp/daemon/sessions.py:257-282 | The segment before the wait, with the queue trimmed in place |
| Prompts.PromptTable.Answer | backend/icp/daemon/sessions.py:283-297 | The segment after it: what counts and what the caller hears |
| Prompts.PromptTable.CancelPrompts | backend/icp/daemon/sessions.py:636-661 | Frees exactly the slots of the dialogs that match the uid, connection, request and action that are given |
| Prompts.PromptTable.CancelOne | backend/icp/daemon/sessions.py:652-661 | One dialog cancelled once; its slot is free at once |
| Tickets.RedeemedAtMostOnce | backend/icp/daemon/tickets.py:69-109 | In every run a token is redeemed at most as often as it was issued |
| Tickets.RedeemsExactly | backend/icp/daemon/tickets.py:82-109 | A redemption succeeds if and only if the ticket is on the book, in time, for that uid, role, window, parent and start time, and the uid was refused fewer than five times within the last minute |
| Tickets.RedeemedWasIssuedSince | backend/icp/daemon/tickets.py:111-118 | In every run, what is redeemed for a uid after its tickets were revoked was issued after that |
| Tickets.TicketBook.RedeemTicket | backend/icp/daemon/tickets.py:82-109 | The ticket is gone either way; a refusal is remembered |
| Tickets.TicketBook.Throttle | backend/icp/daemon/tickets.py:124-131 | The trimming loop and its verdict |
| Tickets.TicketBook.Revoke | backend/icp/daemon/tickets.py:111-118 | Exactly the matching tickets go, and are counted |
| Tickets.TicketBook.SweepOut | backend/icp/daemon/tickets.py:133-136 | Exactly the tickets past their time go |
| Tickets.TicketBook.IssueTicket | backend/icp/daemon/tickets.py:69-80 | Sweeps, then puts the ticket on the book with its time |
| Tickets.OnlyIssuesAdd | backend/icp/daemon/tickets.py:61-118 | In every run a ticket on the book was on it, the same, since its token was last issued |
| Tickets.IssuedIsRedeemed | backend/icp/daemon/tickets.py:69-109 | In every run a ticket issued and left alone is redeemed, as it was issued, if and only if it is at most ten seconds old, presented by the child of its window in its role with the window open, and the uid is not paused |
| Grants.GrantsAreUsedFairly | backend/icp/daemon/grants.py:59-92 | In every run each use is of the grant put for that uid and account, before it runs out, and a single-use grant is used at most once |
| Grants.NothingAfterDrop | backend/icp/daemon/grants.py:104-111 | In every run after a release or lock each use hears no-grant until a new grant is put |
| Grants.OnlyPutsGive | backend/icp/daemon/grants.py:59-111 | In every run a grant held by a uid is the one it held since the last put for it |
| Grants.ExpiredIsTold | backend/icp/daemon/grants.py:73-102 | A grant that ran out is told as expired at every later try, until a put or a drop |
| Grants.LivesItsTime | backend/icp/daemon/grants.py:59-92 | A grant of some seconds that nothing takes away answers its account if and only if they are not over, however often it is asked, then as expired; any other account has none |
| Grants.UsedOnce | backend/icp/daemon/grants.py:85-92 | A grant without a time answers its account exactly until its first use |
| Grants.GrantTable.CheckIt | backend/icp/daemon/grants.py:73-83 | The check's new state and answer |
| Grants.GrantTable.UseIt | backend/icp/daemon/grants.py:85-92 | The use's new state and answer |
| Grants.GrantTable.PutNew | backend/icp/daemon/grants.py:59-68 | A new grant replaces the uid's old one and its memory |
| Grants.GrantTable.EndIt | backend/icp/daemon/grants.py:94-102 | A grant that ran out is remembered |
| Grants.GrantTable.DropIt | backend/icp/daemon/grants.py:104-111 | A dropped one is not |
| Clip.OnePasteInEveryRun | backend/icp/client/clip.py:235-347 | In every run of an identified offer, value bytes go only to pipes held by one fixed non-empty set that was not all watchers, later reads within the grace, and one only when the set has the X11 bridge |
| Clip.OutcomeIsFinal | backend/icp/client/clip.py:324-346 | The outcome is set once, and nothing goes out after it |
| Clip.OutcomeTellsTheTruth | backend/icp/client/clip.py:324-346 | Replaced, withdrawn and expired mean that nothing was delivered, pasted that something was |
| Clip.PasteIsServed | backend/icp/client/clip.py:276-319 | Before any paste, a request gets the value if and only if it asks for text, its reader is identified and not all watchers, and the pipe takes a byte |
| Clip.LaterReadServed | backend/icp/client/clip.py:292-306 | After the paste a request gets the value if and only if its holders are those of the paste, not the bridge, within the grace, for text, while the offer is up and the pipe takes a byte |
| Clip.OutcomeExactly | backend/icp/client/clip.py:324-341 | Replaced, withdrawn, expired and pasted, each exactly when, in terms of what was sent and the event |
| Clip.TimingServesAnyone | backend/icp/client/clip.py:218-233 | Under any policy with a watcher window, two unidentified readers after it are both served, and that run is not one paste |
| Clip.OnePasteExactly | backend/icp/client/clip.py:218-233 | Every run of an offer is one paste if and only if the policy identifies its readers |
| Clip.Offer.HandleSend | backend/icp/client/clip.py:266-322 | One request: new state and bytes out |
| Clip.Offer.HandleTick | backend/icp/client/clip.py:332-341 | The clock: paste after the grace, expiry at the timeout |
| Clip.Offer.HandleCancelled | backend/icp/client/clip.py:324-326 | Another selection: pasted or replaced |
| Clip.Offer.HandleWithdraw | backend/icp/client/clip.py:328-330 | Withdrawn by the daemon: pasted or withdrawn |
| Host.DeletedStaysApart | backend/icp/vault/host.py:285-411 | For every item list the live credentials are those of the live items alone, in order and in every field, and the deleted ones those of the deleted items alone |
| Host.PrivateKeyNeverRead | backend/icp/vault/host.py:207-232 | Item lists that differ only in the data of class `keys` items give the same credentials |
| Host.StripInPlace | backend/icp/vault/host.py:207-232 | Every such data is deleted in place, nothing else changed |
| Host.IndexLoop | backend/icp/vault/host.py:318-354 | The first pass |
| Host.MarkHits | backend/icp/vault/host.py:391-397 | Marks exactly the logins a passkey belongs to, or none |
| Host.BuildStore | backend/icp/vault/host.py:285-411 | The three passes over an array of items, equal to their specification |
| Host.PasskeyFlagExactly | backend/icp/vault/host.py:388-411 | Logins keep order and every field; a login has the passkey flag if and only if some passkey item names its account; every row after them is passkey-only |
| Host.LoginsLoop | backend/icp/vault/host.py:355-386 | The second pass |
| Host.PasskeysLoop | backend/icp/vault/host.py:388-411 | The third pass |
| HostRows.LoginRows | backend/icp/vault/host.py:305-386 | The store starts with the logins: in order exactly the items that are neither keys nor blobs and that the filters admit, each with its own site, account, password, title, time and deleted flag, with what the first blob of that account to say it says, with the other sites that stubs name, and with the passkey flag if and only if a passkey item names it |
| HostRows.PasskeyRows | backend/icp/vault/host.py:388-411 | After them come in order exactly the usable passkeys that name no login, each with its site, user, no password and its own time |
| HostRows.AccountById | backend/icp/vault/host.py:422-430 | The first record that holds the credential id gives the account; the item's own names come first |
| HostRows.AccountByUser | backend/icp/vault/host.py:433-436 | Else an item that names its user keeps it, with the extras of that account at its host |
| HostRows.AccountByHost | backend/icp/vault/host.py:431-439 | Else it takes the only account that records name at its host, and none if they name two |

## Left out

- Sessions.KeysOnlyWhileOpen: is about the session's current store object; a store object that a create or reset replaced is outside it, because handlers bind the object's method before they wait for the store lock.
- Sessions.StepKeeps: dialogs may be raised at any time by any open connection, which admits more runs than the guards of the operations do; task cancellation, the idle timer and the grant serial are not modelled.
- Crash.NeverRefused: file operations are whole or absent and reach the disk in order; a failing disk and temporary files are not modelled.
- Passkeys.PasswordsAlwaysKept: the last call, like each in Keeping.PasswordKept, may not name an id twice.
- Keeping.PasswordKept: a sync may not name an id twice; a sync that changes one entry more than fifty times drops its oldest filing by design.
- History.HistoryIsTheLatest: after a crash a box may be on disk that no record lists, and stays there; the claim is about runs without a crash.
- Rotation.UserDirs.ResealIfTpmAvailable: a write error in the middle takes the same exit as a box that does not open and is not modelled apart from it; history directories are flattened to (id, number), and the `.prev` rollback of older releases is left out.
- Answers.HistoryAnswers: an edit reads the clock twice, for the filing and for the row; the model reads it once.
- Openings.GetsThere: that a call in flight comes back at all is up to the store lock and the worker threads.
- Rotation.MeaningKept: the merge of local history with Apple's by minute, and the sort of the list, are functions of the answers compared and are left out.
- Tickets.RedeemedAtMostOnce: counts issues per token because a token is random; that no token is drawn twice is not stated.
- Ckks.RecordRoundTrip: text that UTF-8 cannot encode is left out; doubles are bit patterns.
- Srp.HonestProofsAccepted: the group is any modulus and generator, not only the 2048-bit one; that other passwords reach other secrets is the hardness of the group and is not stated.
- Clip.OnePasteInEveryRun: who holds a pipe and how many bytes a write takes are inputs; scanning /proc and Wayland are left out.
- Host.DeletedStaysApart: the aliases of a credential are a set, sorted in the source; the item shape that the diagnostic shows is left out.
- Checks of argument shapes, ids and settings, error texts, and log lines.
- Apple's network flows, polkit, logind and systemd-creds calls, the 1.x import, the window's wire format, one-time codes, the password generator, host matching for autofill, framing of lines and native messages.
- set_sync_status, pwmac_matches and the small files' save operations: settled by reading one function.
