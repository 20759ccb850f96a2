# A verified model of the chat system

This project models the parts of the chat system in which state is replicated, retried, rotated or migrated, and proves
what every run of them keeps. It is written in Dafny; `dafny verify dfyconfig.toml` checks all of it.

- **The server store** is modelled twice: `ServerState` gives each of thirty operations as a function from a state to a new
  state and a reply, or to an error; `ServerStore` is the object whose methods edit the fields step by step inside a
  transaction that commits and publishes, or restores. Each method is proved against its function.
  `ServerInvariants`, `ServerRuns` and `ServerTheorems` prove the invariant of every run and its consequences,
  `Sending`, `ServerEffects` and `GroupEffects` say when single operations are accepted, what they change and what they leave,
  `Membership` and `Ownership` give the rules of groups.
- **End to end**, `Delivery` and `Outbox` put a durable client outbox and a lossy, repeating, reordering network in front of
  the store; `Scheduling` and `Deliverer` a worker that may crash between sending a scheduled message and removing it.
  `Cancelling` is the race of the two over a cancelled entry. `ServerKeys` says which operations touch the two tables of
  client ids these rest on.
- **Sessions** are families of rotating refresh tokens with reuse detection, as in section 4.14.2 of RFC 9700 (`Sessions`,
  `SessionTheorems`, `SessionEffects`, and the object `SessionStore`). `RefreshGate` is the client protocol that has to fit
  them, as a state machine over the steps of any number of threads, `GateProgress` what it achieves, and `LateRestore` the
  one step of it that can break it.
- **Synchronisation**: `SyncLog` is the paged event log and the catch-up loop, `Realtime` the join of catch-up and live
  stream through reconnections, `SeenEvents` duplicate suppression with a pruned window, `History` and `Timeline` backward
  paging of a conversation while it grows.
- **The local cache** (`LocalCache`, `CacheTheorems`, `CacheSecrecy`, `CacheEffects`, and the object `LocalStore`) can be
  encrypted and decrypted in place.
- **`RateLimiter`** is the server's fixed-window limiter.

A state machine's `Possible` says which runs are considered, `Run` is where one ends. Where the code falls short of a
property, the model keeps the code, an input or a run that shows the failure is given, and the property is proved under
the exact condition.

What the code does not keep, with the condition under which it does:

- A group can lose its only owner: an administrator's acceptance of a join request inserts the applicant afresh, even if the
  applicant has become the owner meanwhile (`Ownership.OwnerCanBeLost` is a run from an empty store). One operation keeps
  exactly one owner in every group if and only if it is not such an acceptance (`Ownership.StepKeepsOwnershipExactly`).
- A draft that begins with `enc:v1:` can be saved but never loaded, and it blocks turning encryption off
  (`CacheTheorems.MarkedDraftIsLost`, `CacheTheorems.DecryptionSucceedsExactly`).
- `restore` reads the saved credential before it takes the refresh gate. A restore can end with a consumed token being
  presented if and only if the saved token is threatened when it is read: another part of the client has just consumed it
  or can still come to do so (`LateRestore.RestoreGoesWrongExactly`). At startup it never is (`RefreshGate.StartupIsSafe`),
  and the application restores only there (apps/desktop/src/ui.rs:514 and 2882-2890); after a sign-in it is
  (`LateRestore.LateRestoreIsReachable`).
- A cancelled schedule can still be sent if and only if the deliverer had read an entry with its key that the server would
  accept (`Cancelling.CancelIsTooLateExactly`); `Cancelling.CancelledCanStillBeSent` is such a run from an empty store. One that
  the deliverer has not read is never sent unless a request uses its key again (`Cancelling.CancelledInTimeIsNeverSent`).
- A message that reached the server while its sender's cache still has it as unsent can hide its own place in the timeline
  (`Timeline.UnconfirmedMessageHidesItself`). The loaded timeline shows the whole log if and only if every such message was
  on the first page when the conversation was opened (`Timeline.LogIsShownExactly`).
- A catch-up that is cut off after emitting something is repeated from the kept cursor, and only then are events emitted
  twice (`Realtime.ReconnectionRepeats`, `Realtime.InterruptionIsReachable`, `Realtime.ExactlyOnceUnlessInterrupted`).
- The rate limiter can let more than its limit through in an interval no longer than its window, if and only if the key has
  a bucket from before the interval that expires within it and is not full (`RateLimiter.LimitIsExceededExactly`). It never
  lets through more than `2 * max - 1`, which is reached (`RateLimiter.FewerThanTwiceTheLimit`, `RateLimiter.TheBoundIsReached`).

Assumptions: generated identifiers and random tokens never collide with ones in use; hashing of tokens and passwords is
injective, so a token is its hash; encrypted values open only under their own key; counters do not saturate; the server's
operations are atomic, as they are under its write lock; a message id fixes its sender, client id and conversation in the
cache, and a sync event id its cursor.

## Model

| member | source | states |
|---|---|---|
| Membership.FoundingHasOneOwner | crates/domain/src/conversation.rs:79-131 | a new group's members are the founder and the invited, and the founder is its only owner, even when invited twice or by themselves |
| Membership.RemovalKeepsTheOwner | crates/domain/src/conversation.rs:143-165 | a removal succeeds exactly when both belong to the group and the target's role is strictly lower, takes out the target alone, and never the owner |
| Membership.TransferMovesOwnership | crates/domain/src/conversation.rs:167-184 | a transfer succeeds exactly for the owner naming a member; afterwards that member is the only owner and nobody else has changed |
| Membership.DetachKeepsOneOwner | crates/application/src/service.rs:4212-4235 | deleting an account from an owned group leaves it owned or empty; the heir of an owner has the highest remaining role and the earliest join among those |
| Membership.HeirIsExact | crates/application/src/service.rs:4212-4235 | nobody who stays has a higher role than the heir or, with the same role, joined earlier; at the same moment the last in order inherits, and everybody else keeps their entry |
| Membership.DetachKeepsAtMostOneOwner | crates/application/src/service.rs:4212-4235 | detaching never creates a second owner, whatever the group was before |
| Membership.AloneIsNoGroup | crates/domain/src/conversation.rs:79-131 | a group is refused exactly when nobody but its founder is invited |
| Membership.Room.Create | crates/domain/src/conversation.rs:79-131 | the loop that fills a new group's member map builds exactly the founding members, or the group is refused for having fewer than two |
| Membership.Room.RemoveMember | crates/domain/src/conversation.rs:143-165 | removal in place agrees with its specification in state and error, and changes nothing on error |
| Membership.Room.TransferOwnership | crates/domain/src/conversation.rs:167-184 | transfer in place agrees with its specification in state and error |
| Membership.Room.Detach | crates/application/src/service.rs:4212-4235 | the scan for the last maximum in ascending id order finds the one successor of the specification |
| ServerStore.Store.Mutate | crates/application/src/service.rs:664-714 | either all an operation specifies is kept and exactly its new events are published, or the store is as before and nothing is; the invariant holds in both cases |
| ServerStore.Store.SendInStore | crates/application/src/service.rs:4479-4572 | the send, step by step, agrees with its specification in reply, error and every field |
| ServerStore.Store.RecipientsOf | crates/application/src/service.rs:4614-4662 | who may send into a conversation: members who are not muted, alone or with all plain members, and in a direct one only friends who have not blocked each other, with media only to those who take files; all members are told |
| ServerStore.Store.ForwardInStore | crates/application/src/service.rs:5072-5122 | the loop that appends forwarded messages leaves the specified store and replies with them in order |
| ServerStore.Store.AddMembersInStore | crates/application/src/service.rs:2325-2416 | inviting members agrees with its specification: each invitation checked in order, only newcomers added, the limit of five hundred kept |
| ServerStore.Store.RecallInStore | crates/application/src/service.rs:3785-3836 | a recall replaces exactly the one message by its recalled form and drops its expiry |
| ServerStore.Store.GiveReceipts | crates/application/src/service.rs:3963-4027 | the loop over a log adds the reader to the receipts of exactly other people's messages up to the sequence |
| ServerStore.Store.MarkReadInStore | crates/application/src/service.rs:3963-4027 | reading up to a sequence agrees with its specification, clamped to the latest message; members may, and reading to the end leaves nothing unread |
| ServerStore.Store.MarkAllReadInStore | crates/application/src/service.rs:3334-3373 | marking everything read sets position and settings of every readable conversation to its latest sequence |
| ServerStore.Store.CleanupInStore | crates/application/src/service.rs:1804-1821 | the loop over attachments removes exactly the expired unavailable ones and reports their storage keys |
| ServerStore.Store.DeleteInStore | crates/application/src/service.rs:4162-4188 | deleting an account agrees with its specification: conversations, relations, settings, positions and schedules |
| ServerInvariants.NoticeAppends | crates/application/src/service.rs:5203-5250 | a notice is one new message, numbered after the last of its conversation and filed under no key; the conversation is touched, and one event announces the message to exactly its members |
| ServerRuns.StepKeeps | crates/application/src/service.rs:664-714 | one operation, committed or rolled back, keeps the whole invariant; logs, dedup table and events only grow and read positions advance |
| ServerRuns.SendKeeps | crates/application/src/service.rs:4479-4572 | a send keeps numbering, filing, receipts, read state and content soundness |
| ServerRuns.ForwardKeeps | crates/application/src/service.rs:5072-5201 | a forward of any number of messages, merged or not, keeps the invariant, and a bundle is never put into a bundle |
| ServerRuns.RecallKeeps | crates/application/src/service.rs:3785-3836 | a recall keeps places, sequences, filing and receipts of every message |
| ServerRuns.ReviewJoinKeeps | crates/application/src/service.rs:2941-3021 | deciding a join request keeps the invariant, with at most one owner |
| ServerRuns.DeleteKeeps | crates/application/src/service.rs:4162-4297 | deleting an account keeps the invariant while it takes the account out of everything |
| ServerTheorems.RunKeeps | crates/application/src/service.rs:664-714 | the invariant holds after every run, along which logs, dedup table and events only grow |
| ServerTheorems.LogsAreNumberedAndFiled | crates/application/src/service.rs:4479-4572 | in every reachable store message i has sequence i + 1, every client message has its dedup entry, every dedup entry names a message with that sender, client id and sequence, and event i has cursor i + 1 |
| ServerTheorems.ReadStateChain | crates/application/src/service.rs:3963-4027 | in every reachable store last read, read position and log length are in order; readers were delivered to, are not the sender, and have read every earlier message of other people |
| ServerTheorems.ReadPositionsAdvance | crates/application/src/service.rs:3334-3373 | over any run a read position never goes back unless its user deletes the account, although marking all read overwrites it |
| ServerTheorems.OneMessagePerKey | crates/application/src/service.rs:4494-4511 | two client messages of one sender with one client id are the same message of the same log |
| ServerTheorems.RegisteredExactlyOnce | crates/application/src/service.rs:4494-4511 | a key in the dedup table means exactly one log place holds its message |
| ServerTheorems.KnownKeyIsAnswered | crates/application/src/service.rs:4494-4511 | a known key answers any send with the message it names, and nothing changes |
| ServerTheorems.RetryIsIdempotent | crates/application/src/service.rs:4479-4572 | a retry after any run, with any content, into any conversation, gets the first acknowledgement and leaves the store as it was |
| ServerTheorems.FirstSendAppendsOnce | crates/application/src/service.rs:4479-4572 | a first send adds one message with the next number to one log, and one event for exactly the members |
| Sending.SendIsAcceptedExactly | crates/application/src/service.rs:4479-4662 | a message under a new key is accepted if and only if expiry, content and mentions are in order, its sender may write there and reach the other side, and its attachment is their own finished upload |
| Sending.RefusalsNameTheFirstFault | crates/application/src/service.rs:4479-4662 | a refused send names the first thing that is wrong, in the order of the checks |
| Sending.BlockedCannotSend | crates/application/src/service.rs:4633-4646 | between two people only friends who have not blocked each other send |
| Sending.AcceptedSendIsExact | crates/application/src/service.rs:4512-4571 | everything a first send changes: one message as written, its key, receipt and expiry, the time of the conversation and one event, and nothing else |
| ServerTheorems.MarkAllReadClearsUnread | crates/application/src/service.rs:3334-3373 | after marking everything read each readable conversation counts zero unread messages |
| ServerTheorems.MarkReadGivesExactReceipts | crates/application/src/service.rs:3963-4027 | reading up to a sequence adds exactly the reader's receipts for other people's messages up to it |
| ServerTheorems.CleanupReportsWhatItRemoves | crates/application/src/service.rs:1804-1821 | cleanup reports the storage key of each record it removes and of no other, and keeps what is in use |
| ServerTheorems.SoundContentIsUsable | crates/application/src/service.rs:4438-4449 | an attachment found anywhere in a stored content is available and not quarantined |
| ServerTheorems.SentAttachmentsSurvive | crates/application/src/service.rs:1616-1657 | once a message holding an attachment is in a log, no later run removes, quarantines or alters that attachment |
| ServerEffects.ForwardAppendsInOrder | crates/application/src/service.rs:5072-5122 | a forward adds its messages in order at the end of one log, numbered on from there, and touches no other log |
| ServerEffects.SourcesFailFirst | crates/application/src/service.rs:5124-5165 | the error of a forward is that of the first source that fails, all before it having succeeded; otherwise each source stands at its own place |
| ServerEffects.ScheduleIsExact | crates/application/src/service.rs:3375-3447 | a schedule is accepted exactly for an acceptable message of someone who may send, ten seconds to thirty days ahead, under a key neither pending nor sent; it is then the last one pending, nothing else has changed and its key is taken |
| ServerEffects.ForwardedContentIsOriginal | crates/application/src/service.rs:5124-5165 | what is forwarded is one bundle of all originals in order or each original's content in order, all readable by the forwarder |
| ServerEffects.RecallChangesOne | crates/application/src/service.rs:3785-3836 | a recall changes one message of one log and drops its expiry; only its sender or an administrator of the group may do it |
| ServerEffects.RecallIsAllowedExactly | crates/application/src/service.rs:3785-3836 | a recall is allowed if and only if it comes from the sender within two minutes or from an administrator of the group for another's message, and the message is not recalled yet; each refusal's error |
| ServerEffects.ReadingIsExact | crates/application/src/service.rs:3963-4027 | reading moves the reader's last read and position forward to the sequence or the end of the log, nobody else's; the unread count is then of other people's messages above it, zero at the end |
| ServerEffects.UnreadIsCounted | crates/application/src/service.rs:3235-3245 | the unread count is the number of other people's messages with a sequence above the last one read |
| ServerEffects.MarkAllReadIsExact | crates/application/src/service.rs:3334-3373 | marking everything read brings the reader to the end of every readable conversation and changes no other entry, no log and no receipt |
| ServerEffects.ForwardIsAcceptedExactly | crates/application/src/service.rs:5072-5165 | a forward is accepted if and only if it is of one to a hundred different readable originals, two at least when merged, into a conversation the forwarder may write to, and makes valid content |
| ServerEffects.ForwardIsTold | crates/application/src/service.rs:5072-5122 | exactly the members of the target are told of each forwarded message, in order |
| ServerEffects.DeliveryIsExact | crates/application/src/service.rs:3750-3783 | an acknowledged delivery adds a reader who is not the sender to one receipt and tells the sender alone |
| ServerEffects.InvitationAddsExactly | crates/application/src/service.rs:2325-2416 | invitations add exactly the invited, as plain members, all friends of the inviter, and leave every other entry alone |
| ServerEffects.EditNeedsRank | crates/application/src/service.rs:2495-2578 | editing a member changes that entry alone; only the owner gives roles, ownership is never given or taken so, and muting needs a strictly higher rank |
| ServerEffects.JoinDecisionIsExact | crates/application/src/service.rs:2941-3021 | a join request is decided once, by an administrator; accepting gives the applicant a plain entry and default settings, and no other member, no other request changes |
| GroupEffects.LeavingIsExact | crates/application/src/service.rs:2418-2462 | every member but the owner may leave; that entry and its settings go, the remaining members are told, and no other table changes |
| GroupEffects.RemovalIsExact | crates/application/src/service.rs:2580-2617 | a member removes those of strictly lower role, never the owner; that entry and its settings go, the remaining members are told, and no other table changes |
| GroupEffects.TransferIsExact | crates/application/src/service.rs:2619-2650 | only the owner hands the group over, to a member, and becomes a plain one; no other entry and no settings change |
| GroupEffects.EditIsAllowedExactly | crates/application/src/service.rs:2495-2578 | who may rename, promote and mute whom, as an if-and-only-if, with the error of a refusal |
| GroupEffects.InvitingIsAllowedExactly | crates/application/src/service.rs:2325-2416 | an invitation is accepted if and only if a member invites one to a hundred friends with accounts and the group stays within five hundred |
| GroupEffects.NewcomersStartAfresh | crates/application/src/service.rs:2325-2416 | exactly the invited who were not members get default settings |
| GroupEffects.FoundingIsExact | crates/application/src/service.rs:2222-2249 | a group is opened with friends only, at least one; the founder owns it, the others are plain members, and all are told |
| GroupEffects.OpeningDirectIsExact | crates/application/src/service.rs:2183-2220 | exactly friends open a direct conversation, and a second attempt finds the first |
| GroupEffects.DeletionIsToldToContacts | crates/application/src/service.rs:4162-4188 | friends and fellow members of a deleted account are told, and nobody else |
| ServerEffects.DeletionLeavesNoTrace | crates/application/src/service.rs:4162-4297 | a deleted account is in no conversation, friendship, block, setting, position or schedule, and nothing sent is touched |
| Ownership.ReviewJoinOwnership | crates/application/src/service.rs:2969-2984 | a reviewed join request keeps one owner per group exactly when it does not accept the current owner |
| Ownership.StepKeepsOwnershipExactly | crates/application/src/service.rs:2941-3021 | any operation keeps exactly one owner in every non-empty group if and only if it does not re-accept an owner |
| Ownership.RunKeepsOwnership | crates/application/src/service.rs:2222-2695 | over every run without such an acceptance, through account deletion too, each non-empty group has exactly one owner |
| Ownership.NeverTwoOwners | crates/application/src/service.rs:2222-2695 | in every reachable store no group has two owners |
| Ownership.OwnerCanBeLost | crates/application/src/service.rs:2941-3021 | a run from the empty store to a group with members and no owner |
| Delivery.NextKeeps | apps/desktop/src/ui.rs:6818-6899 | one step of client, network or server keeps delivered messages delivered; a well-formed row leaves the outbox only when delivered, discarded or cleared |
| Delivery.QueuedUntilDelivered | apps/desktop/src/ui.rs:6954-7036 | over every run a queued message that is not abandoned is still queued or in the server's logs |
| Delivery.QueuedCanBeDelivered | apps/desktop/src/ui.rs:6818-6899 | a queued message the server accepts gets there and leaves the outbox once a request and its reply get through; the other rows stay |
| Delivery.AcknowledgedMeansOnce | apps/desktop/src/ui.rs:6818-7036 | once it has left the outbox, exactly one log entry holds it, whatever was lost, repeated or reordered; if its client id was used for nothing else, that entry is in its conversation with its content or recalled |
| Delivery.LateCopiesAreHarmless | crates/application/src/service.rs:4494-4511 | a copy that arrives after the first changes nothing on the server |
| Outbox.Sender.Flush | apps/desktop/src/ui.rs:6818-6899 | a pass sends and removes exactly the well-formed rows that the server would have accepted at the start, stores, and answers; it drops exactly the malformed ones and leaves the others as they were, and exactly the stored ones are in the logs |
| Scheduling.NextKeeps | crates/application/src/service.rs:3490-3532 | one step of server or deliverer: an entry leaves the schedule only when its message is in a log or it was given up |
| Scheduling.ScheduledUntilDelivered | crates/application/src/service.rs:3472-3532 | over any run of ticks, crashes, failed removals and other requests an entry not given up is pending or delivered |
| Scheduling.RedeliveryAddsNothing | crates/application/src/service.rs:3490-3532 | delivering again after a crash, or after a direct send of the same message, adds nothing |
| Scheduling.EachScheduleIsOneMessage | crates/application/src/service.rs:3375-3532 | pending schedules share no id and no key, and one that has left becomes exactly one message of one log; if its key was used for nothing else, in its conversation with its content or recalled |
| Scheduling.AcceptedMeansOneMessage | crates/application/src/service.rs:3375-3532 | from acceptance on, over any run that neither gives it up nor reuses its key, a schedule is pending or exactly one message, in its conversation with its content or recalled |
| Scheduling.NothingIsSentEarly | crates/application/src/service.rs:3490-3499 | however often the deliverer runs before an item is due, the item stays scheduled and its message is in no log |
| Cancelling.CancelledInTimeIsNeverSent | crates/application/src/service.rs:3472-3532 | a schedule cancelled before the deliverer has read it is never sent |
| Cancelling.CancelForgets | crates/application/src/service.rs:3472-3488 | cancelling a pending schedule that the deliverer has not read is in time in that sense |
| Cancelling.CancelIsTooLateExactly | crates/application/src/service.rs:3472-3532 | a cancellation succeeds, and the deliverer, left to itself, can still send the item if and only if it had read an entry with that key, anywhere in what is left of its snapshot, that the server would accept at the time of the pass |
| Cancelling.CancelledCanStillBeSent | crates/application/src/service.rs:3472-3532 | a run from the empty store to a cancelled schedule whose message is in a log |
| ServerKeys.StepFiles | crates/application/src/service.rs:4479-4572 | over any operation, a key used for one content in one conversation is filed there with that content, or recalled |
| ServerKeys.StepSchedule | crates/application/src/service.rs:3375-3532 | an entry leaves the schedule only by its cancellation, its removal after delivery or its author's deletion, and enters it only when scheduled |
| Deliverer.DeliverDue | crates/application/src/service.rs:3490-3532 | exactly the due messages that the server would have accepted at the start and stores arrive, exactly those of them whose removal is stored as well leave the schedule, and they are counted; whatever fails, every other entry is still scheduled |
| Deliverer.DueIsExact | crates/application/src/service.rs:3490-3499 | the snapshot holds exactly what is due, each entry once, under distinct keys |
| SessionTheorems.StepKeeps | crates/application/src/service.rs:716-1342 | every session operation keeps: unrevoked tokens are backed by a live device and account, one refresh token per family, none consumed, one user and device per family; nothing is ever unrevoked |
| SessionTheorems.RunKeeps | crates/application/src/service.rs:716-1342 | the same over every run of register, login, code login, refresh, logout, revocations, resets, suspension and deletion |
| SessionTheorems.RevokeIsExact | crates/application/src/service.rs:4890-4919 | a revocation covers every token in its scope and no other |
| SessionTheorems.AuthenticationIsExact | crates/application/src/service.rs:1121-1150 | in every reachable state authentication accepts exactly the present, unrevoked, unexpired access tokens |
| SessionTheorems.ReuseEndsTheFamily | crates/application/src/service.rs:1152-1189 | presenting any consumed token is refused, commits the end of its family despite the refusal, and no later run revives it |
| SessionTheorems.RotationIsLinear | crates/application/src/service.rs:1152-1189 | a rotation consumes its token for ever and its successor is the family's only refresh token |
| SessionEffects.RefreshIsExact | crates/application/src/service.rs:1152-1189 | a refresh issues a session if and only if its token is stored, unrevoked and unexpired; consumed, unknown, and revoked or expired tokens each have their answer, and the account never decides |
| SessionEffects.RefreshContinues | crates/application/src/service.rs:1152-1189 | a refresh continues the session of its token, for a quarter of an hour and thirty days, and touches no other token, device or account |
| SessionEffects.IssuedSessionsRefresh | crates/application/src/service.rs:4838-4888 | whatever is issued can be used for exactly a quarter of an hour and refreshed for exactly thirty days |
| SessionEffects.SigningUpIsExact | crates/application/src/service.rs:716-787 | a new account takes an unused address and user name, and both then sign in with its password and no other |
| SessionEffects.AskingResetIsExact | crates/application/src/service.rs:1276-1309 | asking for a reset answers the same for any address, and leaves exactly one pending reset of a known account, good for a quarter of an hour |
| SessionTheorems.EndedSessionsStayEnded | crates/application/src/service.rs:1191-1342 | logout, device revocation, password change and reset, suspension, administrative revocation and deletion reject every token in scope for ever and leave the others as they were |
| SessionTheorems.IssuedSessionsAuthenticate | crates/application/src/service.rs:4838-4888 | every issued session authenticates, until it expires, as the user and device it was issued for |
| SessionTheorems.NewPasswordTakesOver | crates/application/src/service.rs:1253-1342 | after a change or reset the account's names sign in with the new password and no other |
| SessionTheorems.ResetWorksOnce | crates/application/src/service.rs:1311-1342 | a used or expired reset changes no password |
| SessionStore.SessionStore.RevokeTokens | crates/application/src/service.rs:4890-4919 | the loops over both token tables mark exactly the tokens in scope |
| SessionStore.SessionStore.RefreshInStore | crates/application/src/service.rs:1152-1189 | refresh in place, taking the token out before judging it, agrees with its specification, and issues a session exactly for a stored, unrevoked, unexpired token |
| SessionStore.SessionStore.Mutate | crates/application/src/service.rs:664-714 | an accepted or refused operation is committed whole, an error or a failed write leaves no trace |
| SessionStore.SessionStore.RefreshSession | crates/application/src/service.rs:1152-1189 | a session is issued exactly for a good token in a transaction that is stored; the refusal of a reused token reaches the caller with the revocation committed; every other error is named and changes nothing |
| RefreshGate.NextKeeps | apps/desktop/src/api.rs:1090-1155 | every step of every thread keeps: the session's refresh token is the server's current one unless the gate holder is replacing it; the one exception is a restore that starts under threat |
| RefreshGate.OneRotationAndNoReuse | apps/desktop/src/api.rs:1090-1147 | in every interleaving of single lock and credential operations whose restores start unthreatened, sign-ins at any time included, each access token causes at most one rotation, and every presented refresh token is the server's current one, so reuse detection is never triggered |
| RefreshGate.GateIsExclusive | apps/desktop/src/api.rs:1100-1147 | no two threads are between deciding to rotate and replacing the session |
| GateProgress.RefusedRequestRenews | apps/desktop/src/api.rs:1090-1155 | a request refused with the session's own access token rotates its good refresh token and leaves the new pair in session and credential store |
| GateProgress.StaleRequestRotatesNothing | apps/desktop/src/api.rs:1100-1119 | a request refused with an access token the session no longer has rotates nothing and changes nothing |
| GateProgress.RefusedRefreshForgets | apps/desktop/src/api.rs:1104-1111 | if the server will not rotate, session and credential are given up |
| RefreshGate.StartupIsSafe | apps/desktop/src/ui.rs:2882-2891 | with nothing under way and no session held, a restore is never threatened |
| LateRestore.RestoreGoesWrongExactly | apps/desktop/src/api.rs:547-561 | in every state that keeps the invariant, a restore has an interleaving, with no further restore under threat, that presents a consumed token if and only if the saved token is threatened when it is loaded |
| LateRestore.PresentingEndsTheFamily | crates/application/src/service.rs:1152-1189 | presenting a consumed token is refused and ends its family, whatever the time |
| LateRestore.LateRestoreIsReachable | apps/desktop/src/api.rs:547-561 | a run from the launch of a client without a saved session to such a restore, and on to the presented token |
| RefreshGate.LostReplyTriggersReuse | apps/desktop/src/api.rs:1124-1138 | if the reply to a rotation is lost, the client's next refresh is taken for reuse and ends the family |
| SyncLog.PublishedIsAddressed | crates/application/src/service.rs:5252-5269 | publishing adds one event at the end of what each recipient will read and changes nothing for anybody else, wherever they have got to |
| SyncLog.AddressedIsExact | crates/application/src/service.rs:4029-4048 | the filter gives exactly the user's events above the cursor, each once, in order |
| SyncLog.PageSplits | crates/application/src/service.rs:4029-4048 | a page is the beginning of that filter, the rest is the filter above its last cursor, and there is a rest exactly when the page says so |
| SyncLog.CatchUp | apps/desktop/src/realtime.rs:349-371 | for any page limit, while the log grows and requests may fail, the catch-up loop has emitted exactly the user's events from the start to its cursor, once each and in order; if it ends, all events its last request saw, and it ends if the log stands still |
| Realtime.NextKeeps | apps/desktop/src/realtime.rs:278-347 | every step of appending, broadcasting, subscribing, greeting, forwarding, receiving, paging and disconnecting keeps the join invariant |
| Realtime.NoGap | apps/server/src/websocket.rs:21-49 | every event for the user up to the client's cursor, and when settled every one of the log, has been emitted; within a connection cursors strictly increase |
| Realtime.ExactlyOnceUnlessInterrupted | apps/desktop/src/realtime.rs:286-307 | unless a catch-up was cut off after emitting, the client has emitted the plain filter of the log, once and in order, across all connections |
| Realtime.InterruptionRepeats | apps/desktop/src/realtime.rs:297-297 | a catch-up cut off after emitting is repeated: the next one begins with an event already emitted |
| Realtime.ReconnectionRepeats | apps/desktop/src/realtime.rs:286-307 | after such a cut the client reconnects, is welcomed, fetches a page and has emitted an event twice |
| Realtime.InterruptionIsReachable | apps/desktop/src/realtime.rs:286-307 | a run from the launch of a client with more than a page to catch up on to an event emitted twice |
| Realtime.Client.HandleFrame | apps/desktop/src/realtime.rs:278-347 | what a welcome and an event do to the client's cursor and channel, while the log grows and requests may fail: a catch-up that is cut off keeps what it emitted and leaves the cursor |
| Realtime.Client.Follow | apps/desktop/src/realtime.rs:180-276 | one undisturbed connection emits exactly what was missed, whatever the overlap of catch-up and stream |
| SeenEvents.EventLedger.RecordEvent | crates/client-core/src/lib.rs:636-699 | an event is recorded, the cursor advanced and the window pruned, or nothing is written |
| SeenEvents.AcceptedTwiceNeedsALowBootstrap | crates/client-core/src/lib.rs:636-699 | no event is accepted twice unless a bootstrap set the cursor more than 50000 below the highest accepted one |
| SeenEvents.LowBootstrapRepeats | crates/client-core/src/lib.rs:178-213 | after a much later event and a bootstrap, the first event is accepted again exactly when the bootstrap went below it and it has left the window |
| SeenEvents.WithoutBootstrapsIncreasing | crates/client-core/src/lib.rs:636-699 | without bootstraps accepted cursors strictly increase |
| SeenEvents.EventsInOrderAreAccepted | crates/client-core/src/lib.rs:636-699 | events of one log that come in order are all accepted |
| History.PageTakesTheNewest | crates/application/src/service.rs:3595-3614 | a page takes the newest messages off what is left, and the next cursor leaves exactly the rest or nothing |
| History.VisibleAt | crates/application/src/service.rs:3595-3614 | each shown message has exactly the earlier shown ones before it in the log |
| Timeline.SortSorts | apps/desktop/src/ui.rs:2668-2673 | the timeline order is sorted by sequence, unsequenced last, then by creation time |
| Timeline.TimelineIsOrdered | apps/desktop/src/ui.rs:2668-2673 | of two entries the later has the higher sequence or none, and among those without one the later creation time |
| Timeline.SortKeepsKeys | apps/desktop/src/ui.rs:2662-2699 | sorting repeats and loses no entry |
| Timeline.FreshAreDistinct | apps/desktop/src/ui.rs:2708-2713 | filtering by client id leaves each id once and none that is already shown |
| Timeline.UnsentComeLast | apps/desktop/src/ui.rs:6749-6803 | the newest page comes first and the cached unsent messages after it |
| Timeline.Timeline.Show | apps/desktop/src/ui.rs:6749-6803 | a first page with the unsent ones of any cached messages that it lacks, no client id twice |
| Timeline.Timeline.Prepend | apps/desktop/src/ui.rs:2701-2720 | an older page goes in front without what is shown, no client id twice |
| Timeline.Timeline.ApplyLive | apps/desktop/src/ui.rs:3126-3156 | a live message replaces the entry of its client id or is added at the end, no client id twice |
| Timeline.LoadHistory | apps/desktop/src/ui.rs:2603-2660 | loading older pages until there are none, while new messages arrive and whatever unsent messages are cached, ends with the log of the first page but for what an unsent message stands for, then the unsent messages, confirmed in place as they arrived, then the other arrivals; no client id twice |
| Timeline.NothingUnsentShowsTheLog | apps/desktop/src/ui.rs:2603-2660 | without cached unsent messages that is the whole unexpired log, no gap and no repeat |
| Timeline.ShownExactly | apps/desktop/src/ui.rs:2701-2720 | a message of the log is shown unless it was in the log already and one of the unsent messages shown has its client id; nothing is shown but the log and unsent messages |
| Timeline.LogIsShownExactly | apps/desktop/src/ui.rs:2701-2720 | the log is shown whole if and only if every message of it that the cache still had as unsent was on the first page when the conversation was opened |
| Timeline.UnconfirmedMessageHidesItself | apps/desktop/src/ui.rs:6749-6803 | a log and a cache for which it is not shown whole |
| LocalStore.LocalStore.Transact | crates/client-core/src/lib.rs:230-327 | one cache operation as a transaction: its specification, or nothing |
| LocalStore.LocalStore.StoreMessage | crates/client-core/src/lib.rs:230-327 | the statements for one message replace rows of the same key under another id and keep the index in step |
| LocalStore.LocalStore.EncryptExisting | crates/client-core/src/lib.rs:852-950 | the five loops seal every payload, blank the columns and empty the index |
| LocalStore.LocalStore.DecryptExisting | crates/client-core/src/lib.rs:953-1075 | the five loops open every payload and rebuild columns and index, or fail exactly when some value does not open |
| LocalStore.LocalStore.SetEncryptionEnabled | crates/client-core/src/lib.rs:705-732 | the switch agrees with its specification in both directions; a success leaves everything sealed under the key, or everything open |
| CacheTheorems.WriteRefines | crates/client-core/src/lib.rs:178-582 | every write does to an encrypted cache what it does to the plain one, with the same success or error |
| CacheTheorems.ToggleOpens | crates/client-core/src/lib.rs:705-732 | a change of encryption, successful or not, leaves the same cache underneath |
| CacheSecrecy.EnablingSealsEverything | crates/client-core/src/lib.rs:705-732 | turning encryption on always succeeds and leaves every payload sealed under one key, every column that repeats one blank and the index empty |
| CacheSecrecy.DisablingOpensEverything | crates/client-core/src/lib.rs:953-1075 | turning it off succeeds unless a draft looks sealed, and leaves every cell in the clear with columns and index restored |
| CacheSecrecy.NothingLiesOpenWhileOn | crates/client-core/src/lib.rs:705-732 | after any run, later writes included, everything is sealed under the key of the last change that turned encryption on, or in the clear if it is off |
| CacheTheorems.RunRefines | crates/client-core/src/lib.rs:705-732 | a run with any changes of encryption refines the run of its writes alone |
| CacheTheorems.LoadersSeeThrough | crates/client-core/src/lib.rs:215-474 | every loader reads the same from a cache and from its opened form |
| CacheTheorems.EncryptionIsInvisible | crates/client-core/src/lib.rs:705-732 | after any run with any changes of encryption, bootstrap, messages, search, drafts and outbox read as if encryption had never been on |
| CacheTheorems.DisablingRebuildsEverything | crates/client-core/src/lib.rs:953-1075 | a successful disabling leaves the very cache the writes alone would have left |
| CacheTheorems.DecryptionSucceedsExactly | crates/client-core/src/lib.rs:953-1075 | disabling succeeds exactly when no draft begins with the marker of sealed values |
| CacheTheorems.MarkedDraftIsLost | crates/client-core/src/lib.rs:1077-1124 | a saved draft can be loaded exactly when it does not begin with the marker; one that does is stored in the clear and blocks disabling |
| CacheTheorems.CacheAndIndexAgree | crates/client-core/src/lib.rs:230-327 | in every reachable cache there is one row per sender and client id, and one index entry for each text row when encryption is off and none when it is on |
| CacheTheorems.CachedMessageIsLoaded | crates/client-core/src/lib.rs:230-345 | a cached message is loaded as written, other rows of its key are gone, and every other row is as it was |
| CacheEffects.CachingIsAllowedExactly | crates/client-core/src/lib.rs:230-327 | a message is cached if and only if its conversation or its row is known and no row of another key has its place |
| CacheEffects.LoadingIsExact | crates/client-core/src/lib.rs:329-345 | a conversation is loaded whole: exactly its rows, each with its order and its message |
| CacheEffects.SearchingIsExact | crates/client-core/src/lib.rs:347-381 | a search finds exactly the text and system messages that match |
| CacheEffects.FailingIsExact | crates/client-core/src/lib.rs:540-582 | a failure counts one attempt and sets when the row is ready again, and leaves its payload and every other row |
| CacheEffects.RetryingIsExact | crates/client-core/src/lib.rs:486-505 | a retry makes exactly that row ready at once |
| CacheTheorems.QueuedPayloadComesBack | crates/client-core/src/lib.rs:415-474 | a queued payload comes back when due; queueing again replaces the payload and keeps conversation and attempts |
| CacheTheorems.BootstrapIsLoaded | crates/client-core/src/lib.rs:178-228 | a bootstrap is loaded as written |
| RateLimiter.RateLimiter.Check | apps/server/src/api.rs:199-220 | one check agrees with its specification; the second reset branch is dead |
| RateLimiter.FewerThanTwiceTheLimit | apps/server/src/api.rs:199-220 | over any run with any mix of keys, a closed interval no longer than the window has at most 2 * max - 1 accepted calls for a key |
| RateLimiter.TheBoundIsReached | apps/server/src/api.rs:199-220 | for every limit from two and every window some run reaches that bound |
| RateLimiter.AtMostRoom | apps/server/src/api.rs:199-220 | from any reached state no calls get more accepted until the end of an interval than its room: the rest of a bucket that lasts, one limit without a live bucket, or the rest and one more limit |
| RateLimiter.RoomIsReached | apps/server/src/api.rs:199-220 | some calls use that room up, so it is the exact maximum |
| RateLimiter.LimitIsExceededExactly | apps/server/src/api.rs:199-220 | more than the limit can be accepted in an interval no longer than the window if and only if the key has a bucket from before it that expires within it and is not full |

## Left out

- Group names and descriptions, announcements, polls, reactions, favourites, stickers as a catalogue, profiles and their privacy, reports and the audit list: each is settled by reading one or two branches.
- Friend requests: every change of friendships, blocks and file permissions is one operation that may set them to anything, which allows more runs than the code; accepting a request and opening direct conversations are modelled.
- Replies, edited messages, display names of bundles, and the read or delivered status shown on a reader's own messages.
- Blank texts: whitespace is blank, tab, carriage return and line feed, where the code trims all Unicode white space.
- Realtime.NoGap: broadcasts reach a subscriber in cursor order and none lags, which the code gives only while writers do not overlap and no receiver falls behind.
- RefreshGate.OneRotationAndNoReuse: every reply arrives and the credential store works; a logout while another thread is refreshing is not among the steps.
- Account recovery attempts: the counter is rolled back with the error, so it bounds nothing.
- Passwords, second factors and code-login challenges: a password is compared as a value, a second factor is an arbitrary yes or no (its two errors are one), and an approved code login is the operation that follows the approval.
- Message and session tables are two state machines: they share only accounts, so an account's deletion and suspension appear in both.
- Failures of the operating system's key ring and credential store.
- SQL: each table is a map and each transaction one step; column lengths, the row limits of queries and the order of equal rows are not modelled.
- Presence, typing signals, calls, notifications, uploads, downloads, mail, metrics and the user interface around the timeline; a first page is applied at the moment it is read.
- An outbox row changing between a flush reading it and dropping it as malformed: that decision is one step.
- Timeline.LoadHistory: the set of expired messages is fixed while a conversation is loaded, and arriving messages are new ones, not recalls of old ones.
- RateLimiter.FewerThanTwiceTheLimit: the clock is monotone and all limits share one window length, as they do in the server.
- The bound of 2^63 on sequences and cursors stored by the client.
