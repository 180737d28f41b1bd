# motmot's Paxos, modelled and proved in Dafny

libmotmot keeps a group chat totally ordered by running one instance of Paxos
per chat message or membership change.  Any participant may prepare a ballot
when everyone ranked above it has gone; a proposer that completes its prepare
stays the proposer until it leaves.  This project models that protocol, proves its
central guarantees, and where the code breaks one gives the run and the exact
condition.  `dafny verify dfyconfig.toml` checks everything.

## How it is organised

**Agreement.**  `Node.dfy` gives, for each handler, the participant after it and
the messages it sends.  `Protocol.dfy` runs those handlers as a transition
system over any number of participants: competing and abandoned prepares, lost
and reordered messages, crashes.  `Voting.dfy` is the history of votes, decrees
and prepares behind a run; `Invariant.dfy` and the `Preservation*.dfy` files
carry one invariant over every step, and `Agreement.dfy` draws the conclusions
over all runs; `Counters.dfy` ties the vote and promise counts to sets of
participants.  Three things in the code make this harder than textbook Paxos.
A commit replaces an entry's value but keeps its old ballot label; an acceptor
that has committed an instance accepts a later decree for it without
relabelling; and a preparer's own log is overwritten by others' votes before it
wins.  Promises therefore carry stale labels, and the usual invariant, that every
decree is safe at its ballot, is false of the code: `StaleLabels.dfy` builds a run of
eleven participants, each of whom only ever follows one ranked above itself, that
reaches a decree of `W` above a ballot in which a majority has voted for `U`.  What holds instead is that a decree is safe or its instance has
already been chosen in a higher ballot at which it was safe (`Voting.DecreesSafe`),
and that is enough for agreement; `Agreement.DecreeSafetyExactly` says exactly when
a decree is safe.

`Answers.dfy` adds the handlers that answer: rejects, the proposer's reaction to them
and the hello it then says, retries and recommits.  Agreement survives all of these but
two kinds of step (`Answers.SafeAgreement`), and neither of the two by itself:
`RejectedParts.dfy` and `LoweredLabels.dfy` are runs of the code, built with the help of
`Scenes.dfy`, in which participants commit different values.

`Replies.dfy` says what each handler answers, and what the answers add up to: a decree
with enough willing acceptors is committed by all of them, and a prepare with enough
promises completes.

**One participant.**  `Session.dfy` is a class with the session's fields whose
methods run the code's loops over the instance list (`InstanceList.dfy`,
`Loops.dfy`).  Each method is proved to change the session exactly as the
corresponding function of `Node.dfy` says, so what is proved of those functions
holds of the methods, and to keep the invariant of `Soundness.dfy`.
`Promises.dfy` and `Learning.dfy` state what those functions amount to.
`LinkedList.dfy` is the doubly linked list itself, on the heap.

**Synchronization.**  `SyncModel.dfy` puts one established proposer and any number
of acceptors on first-in first-out channels and runs the same handlers with the
sync and truncate protocol.  Every member keeps its own list of acceptors, which
what it learns changes (`Listing.dfy`, `SyncLearning.dfy`).  `SyncInvariant.dfy`,
`SyncPreservation.dfy` and `SyncSafety.dfy` hold the invariant, `Truncation.dfy` the
results, among them exactly who stops and why; `Rounds.dfy` says what a round comes to
and what each message is answered with.  `InheritedParts.dfy` and
`UnlistedChats.dfy` are runs in which members do fail.
`Handover.dfy` connects this to the agreement model: the latest proposer to
complete a prepare holds everything anybody has committed.

**Membership.**  `Membership.dfy` gives what each event does to the acceptor list,
the live count, the proposer and its prepare; `Leadership.dfy` proves ranking,
live counting, stable proposership and the redirect arithmetic; `Roster.dfy` is
the same state as a class with its loops, and `Reactions.dfy` what each event makes of
connections, proposer and decrees.  `LearnEffects.dfy` is the learning
loop when learning a value acts on the membership and lengthens the list being walked.
`Coupling.dfy` puts a session and a roster together as one participant.

## Conventions

- A failed C assertion, or a dereference of a missing acceptor or instance, stops
  the participant (`alive` becomes false).
- The client's connect callback is synchronous with an arbitrary result, as in
  libmotmot/src/main.c:65-72, and a send to a live peer succeeds.
- Participant, instance and generation numbers are unbounded; the code's are 32 bits wide.
- `istart` and the prepare's `pp_istart` are instance numbers.  The swap at
  libmotmot/src/paxos_proposer.c:237-240 recycles a node that they may still
  point to; the model has them keep naming the instance, which is the intent.
- Values are opaque to the agreement model, except that the kind decides whether
  a learner needs cached data.  The bytes of requests are not modelled, only
  which requests are cached.
- In the membership model a hello from ourselves carries our own ballot, a join's id
  is above those of earlier joins, and a newcomer's first connections are to acceptors
  it was not connected to; nothing else is assumed of the events.
- In the agreement model a change of connections may make any participant whose
  prepare has not completed defer to one ranked above it or start a prepare.  That
  nobody else can be made to, and nobody defers to one below, is
  `Leadership.StableProposership` and `Leadership.EventSane`.
- In the synchronization model the connections between acceptors change at any time,
  and an acceptor that learns its own part or its proposer's leaves the system.
- Many small lemmas have empty bodies: they state one fact so that a larger proof can
  hide the definitions behind it and stay cheap to verify.
- Histories (`hist`, `acked`, `counted`, `floor`, `seen`, `got`, `decided`, the
  learn logs) are recorded beside the real state and never read by a handler.

## Where code and comments differ

- libmotmot/src/paxos_reconnect.c:452-462 puts a null in the place of a rejected part
  under the same ballot, and counts votes for the part that are still on their way as
  votes for the null.  A later proposer that voted for the part keeps it, since what is
  reported to it has the same ballot.  The two can both be committed
  (`RejectedParts.RejectedPartsDisagree`, with five participants).
- libmotmot/src/paxos_retry.c:64-77 broadcasts a recommit under the ballot of the
  participant that retried, and libmotmot/src/paxos_retry.c:103-105 puts it on an entry
  that may have a higher one.  A later preparer then takes its own older vote for the
  newer (`LoweredLabels.LoweredLabelsDisagree`, with nine participants).
- libmotmot/src/paxos_learn.c:172-176 takes a newcomer whose hello was deferred for
  live, as its comment says; for a proposer, libmotmot/src/paxos_greet.c:69-74 then
  counts the same newcomer again, or leaves it counted though it could not be
  reached.  The live count is one too high from then on.  It takes an acceptor that
  hears the newcomer's hello before it has learned the join, and is the proposer by
  the time it does.  `Leadership.LearnJoinCount` states exactly when the count stays
  right, and `Leadership.MiscountIsReached` gives a run in which it does not.
- libmotmot/src/paxos_proposer.c:289-302 decrees an inherited part again with its kind
  intact, whoever it names.  When a majority rejects it,
  libmotmot/src/paxos_reconnect.c:444-447 connects the proposer to the acceptor named,
  which may be the proposer itself, then counted twice over, or one that outranks it,
  contrary to the comment at libmotmot/src/paxos_proposer.c:40-47.
  `Leadership.SelfRejoinIsReached` and `Leadership.SuperiorRejoinIsReached` give the
  runs, and `Leadership.EventInOrder` and `Leadership.EventAccounted` the exact
  conditions.
- libmotmot/src/paxos_greet.c:164-183 connects a newcomer to the whole acceptor list and
  leaves the welcoming proposer the proposer, even if one who outranks it answers
  (`Leadership.SuperiorWelcomeIsReached`).
- libmotmot/src/paxos_acceptor.c:124-129 looks up whom a part names before it looks at
  the instance, and takes the acceptor to be listed.  A new proposer that has not heard
  of the commit decrees an inherited part again, and whoever has learned the part then
  dereferences null (`InheritedParts.MissingAcceptorIsReached`).  Likewise
  libmotmot/src/paxos_learn.c:156-159 asserts that the sender of a chat is listed; one
  who is parted while a later chat of its own is undecided makes every member that
  learns the chat fail (`UnlistedChats.UnlistedChatIsReached`).
  `Truncation.StopsExactly` says that nothing else stops a member.
- The comment at libmotmot/src/paxos_greet.c:349-357 says that all future ballots are
  higher than one taken from a hello.  The generation it brings is not recorded as
  seen, so a later prepare can be in a ballot below the one held
  (`Leadership.UnderbidIsReached`); `Leadership.NextOutbids` and
  `Leadership.EventCovered` say exactly when.
- The comment at libmotmot/src/paxos_greet.c:111-117 has a newcomer fill its request
  cache on demand.  An instance it received already committed past its hole is
  never committed again (libmotmot/src/paxos_acceptor.c:213-218), so nothing
  retrieves its request.  This concerns progress only.

## Model

| member | source | states |
|---|---|---|
| Agreement.Agreement | libmotmot/src/paxos_proposer.c:167-382 | Over every run of competing preparers, losses, reorderings and crashes, rejects, retries and recommits apart, no two participants ever commit different values for one instance, even at different times. |
| Answers.SafeAgreement | libmotmot/src/paxos_reconnect.c:369-422 | With rejects, hellos, retries and recommits among the steps too, no two participants ever commit different values for one instance, over every run in which rejects never make a proposer decree again, be it the part or a null in its place, and no recommit puts a lower ballot on an uncommitted entry. |
| Answers.TurnKeepsInv | libmotmot/src/paxos_retry.c:19-112 | Every such step keeps the inductive invariant and all that has been committed. |
| RejectedParts.RejectedPartsDisagree | libmotmot/src/paxos_reconnect.c:397-463 | A run, with no recommit, after which one participant has committed a null and another the part it was to replace, for one instance. |
| Answers.RejectAnswered | libmotmot/src/paxos_reconnect.c:369-463 | What a reject of an undecided part makes of the whole state: at a death-adjusted majority the part gives way to a null if and only if the one it names was reached, who gets a hello, and otherwise keeps its value; either way it has one vote, no rejects, and goes out again to everyone. On a tie the same decree goes out with its votes kept. Otherwise only the count grows. |
| Answers.OtherRejectAnswered | libmotmot/src/paxos_reconnect.c:380-403 | Any other reject is at most counted, and is fatal exactly for another ballot, an instance not listed, or an undecided value that is neither part nor null. |
| Answers.RetryAnswered | libmotmot/src/paxos_retry.c:45-78 | A retry is answered, to everyone else and under the retrier's ballot, exactly if its instance is committed. |
| LoweredLabels.LoweredLabelsDisagree | libmotmot/src/paxos_retry.c:64-112 | A run, with no reject, after which two participants have committed different values for one instance, because a recommit lowered the ballot on two entries. |
| Agreement.TotalOrder | libmotmot/src/paxos_learn.c:61-131 | Of any two participants' learn logs, at any two moments of a run, one is a prefix of the other. |
| Agreement.CommitsPersist | libmotmot/src/paxos_acceptor.c:197-227 | What a participant has committed it keeps, with the same value, for the rest of the run. |
| Agreement.DecreeSafety | libmotmot/src/paxos_proposer.c:189-304 | In every reachable state a decree equals every value that was or could still be chosen in a lower ballot, unless its instance has been chosen in a higher one. |
| Agreement.DecreeSafetyExactly | libmotmot/src/paxos_proposer.c:229-241 | In every reachable state a decree is safe if and only if its instance was not safely chosen above it, or was chosen with the value decreed, or nothing is choosable below it. |
| Agreement.NothingPastTheEnd | libmotmot/src/paxos_proposer.c:267-277 | Of an instance that an established proposer's log does not list, no value was or could still be chosen in any lower ballot. |
| StaleLabels.UnsafeDecreeIsReached | libmotmot/src/paxos_acceptor.c:220-226 | A run, step by step from the initial state and with everyone following only those ranked above itself, after which a completed prepare has decreed another value than a majority voted for in a lower ballot: the exception to decree safety is needed. |
| Counters.CountersAreQuorums | libmotmot/src/paxos_proposer.c:245-251 | The promise count of a prepare is one more than the size of a set of others each of which has taken exactly that ballot, which for another's ballot is to promise it; the vote count of an open decree is the size of a set of participants that voted for it. |
| Agreement.StepKeepsInv | libmotmot/src/paxos_acceptor.c:26-227 | Every step of the agreement model, whichever of its handlers it runs, acceptor's or proposer's, keeps the inductive invariant. |
| Agreement.RunInv | libmotmot/src/paxos.c:53-120 | The invariant holds in every state of every run that starts from a shared first join. |
| Handover.LatestProposerKnows | libmotmot/src/paxos_proposer.c:267-304 | The latest proposer to complete a prepare holds, with the same value, every instance anybody has committed. |
| Voting.ChosenUnique | libmotmot/src/paxos_acceptor.c:97-165 | Two majorities never vote for different values in one instance, whatever their ballots. |
| Voting.MajorityChooses | libmotmot/src/paxos_acceptor.c:147-154 | A majority that includes accepts without relabelling still chooses the value under honest labels somewhere. |
| Voting.LicensedIsSafe | libmotmot/src/paxos_proposer.c:229-241 | Section 2.2 of "Paxos Made Simple" with stale labels: what a quorum's highest reported vote licenses is safe, or the instance was chosen above. |
| Voting.SafeExactly | libmotmot/src/paxos_acceptor.c:220-226 | In a lawful history a decree is unsafe exactly if its instance was chosen above it with another value while some value is choosable below. |
| Voting.VotingKeepsLawful | libmotmot/src/paxos_acceptor.c:112-114 | Promises and votes for decrees of the promised ballot keep a history lawful. |
| Voting.DecreeingKeepsLawful | libmotmot/src/paxos_proposer.c:253-304 | Decrees licensed by the promises, with the decreer's own votes, keep a history lawful. |
| Quorums.QuorumsMeet | libmotmot/src/paxos_util.c:61-65 | Two majorities of one acceptor list share a member. |
| Quorums.QuorumsMeetAcrossOneChange | libmotmot/src/paxos_util.c:61-65 | Majorities of two acceptor lists that differ by one learned join or part share a member, for lists of any size. |
| Types.BallotsOrdered | libmotmot/src/types/primitives.c:40-46 | The comparison is antisymmetric, zero only on equal ballots and transitive; the generation decides before the id, and the lower id is higher. |
| PreservationCommit.AcceptFindsDecree | libmotmot/src/paxos_proposer.c:360-368 | An accept that reaches its proposer finds it established, in that ballot, and finds the instance: the assertion cannot fail. |
| PreservationPromise.MergeKeepsInv | libmotmot/src/paxos_proposer.c:189-245 | Merging a promise keeps the invariant: the log now accounts for the promiser's votes too. |
| PreservationComplete.CompleteKeepsInv | libmotmot/src/paxos_proposer.c:253-308 | Completing a prepare, every decree licensed by the promises counted, keeps the invariant. |
| PreservationVote.AckDecreeKeepsInv | libmotmot/src/paxos_acceptor.c:97-165 | Voting for a decree, with or without relabelling, keeps the invariant. |
| PreservationDecree.RequestKeepsInv | libmotmot/src/paxos_proposer.c:326-349 | A new decree, and the immediate commit of a lone participant, keep the invariant. |
| Preservation.AckPrepareKeepsInv | libmotmot/src/paxos_acceptor.c:26-88 | Promising, with the votes reported, keeps the invariant; each acceptor promises a ballot once. |
| Replies.DecreeAnswered | libmotmot/src/paxos_acceptor.c:98-166 | An acceptor in the decree's ballot that takes the decreer for its proposer votes exactly for what it does not list, or lists undecided under a ballot no higher, and then holds exactly the value under that ballot, all else unchanged; on an undecided entry it is silent if and only if that has a higher ballot. |
| Replies.DecreeAnsweredTwice | libmotmot/src/paxos_acceptor.c:155-162 | The same decree again is answered again, and leaves the same log. |
| Replies.DecreeReplaces | libmotmot/src/paxos_acceptor.c:155-162 | Another value under the same ballot takes the place of the first, and is voted for. |
| Replies.PrepareAnswered | libmotmot/src/paxos_acceptor.c:26-88 | An acceptor promises exactly a higher ballot of the participant it takes for the proposer, and reports its own entries from the asked instance on, and the one before if it has none there. |
| Replies.PromiseAnswered | libmotmot/src/paxos_proposer.c:168-308 | An awaited promise counts once; the one that makes a majority establishes the preparer in its ballot and asks everyone else for exactly the instances still open. |
| Replies.ReportTaken | libmotmot/src/paxos_proposer.c:189-243 | A reported entry is taken over if and only if ours is missing, or undecided under a lower ballot. |
| Replies.AcceptAnswered | libmotmot/src/paxos_proposer.c:358-402 | A vote counts once; the one that makes a majority of an open instance commits it, and exactly that one tells everyone else. |
| Replies.CommitAnswered | libmotmot/src/paxos_learn.c:35-64 | A commit at or past the hole changes no value; it asks for the data exactly when data is needed and not at hand, and otherwise makes the instance ready. |
| Replies.CommitLearns | libmotmot/src/paxos_learn.c:66-134 | If it is the hole that has become ready, the hole moves to the first instance that is not, and the values in between are learned in order; else nothing is learned. |
| Replies.DecreeSucceeds | libmotmot/src/paxos_proposer.c:327-402 | A decree is committed by its proposer exactly as soon as the acceptors willing to vote for it make a majority with the proposer, and then by each of them that is told. |
| Replies.PromisesAddUp | libmotmot/src/paxos_proposer.c:245-308 | A preparer is established in its ballot exactly from the promise on that makes a majority, whatever the promises report. |
| Promises.MergeAllIsHighest | libmotmot/src/paxos_proposer.c:189-243 | Merging any promises yields pointwise the vote of the highest ballot; committed entries stay and no instance is lost. |
| Promises.RedecreeFills | libmotmot/src/paxos_proposer.c:257-304 | The re-decree leaves no gap from the hole to the old end, puts nulls with fresh request ids at former gaps only, leaves committed entries alone and every open one under the new ballot with one vote. |
| Promises.DrainAssignsInOrder | libmotmot/src/paxos_proposer.c:310-315 | Draining the deferred decrees gives them the next consecutive numbers in queue order, in the new ballot, and changes no other value. |
| Promises.DrainAsksForAll | libmotmot/src/paxos_proposer.c:310-315 | Draining asks everyone else for exactly the deferred values, each under its number and the new ballot. |
| Promises.CompletionLeavesNoGap | libmotmot/src/paxos_proposer.c:257-315 | After completion and drain the log is contiguous from the hole through the last deferred decree. |
| Learning.CommitOrderIrrelevant | libmotmot/src/paxos_learn.c:93-131 | With all requests cached, the learn log and the hole do not depend on the order or repetition in which the same commits arrive. |
| Learning.LearnedIsAvailable | libmotmot/src/paxos_learn.c:121-127 | Every value the learning loop reaches is unlearned and its request is cached, so the lookup cannot fail. |
| Truncation.HoleIsLeast | libmotmot/src/paxos_learn.c:87-107 | Between the handlers of every run of the sync system, every member's hole is the least number from its base on not both committed and cached, and exactly what lies below it is learned. |
| Soundness.CommitSound | libmotmot/src/paxos_learn.c:35-134 | A commit keeps the learn invariant whether or not its request is at hand, and never finds its instance below the hole. |
| Soundness.TruncateSound | libmotmot/src/paxos_sync.c:170-191 | With distinct request ids, truncating drops no request still to be learned and keeps `istart`. |
| Soundness.MergeSound | libmotmot/src/paxos_proposer.c:189-243 | Merging a promise disturbs nothing learned and leaves the hole where it was. |
| Session.Session.Start | libmotmot/src/paxos.c:53-120 | A new session holds its own join as a learned instance 1 and is an established proposer. |
| Session.Session.Welcome | libmotmot/src/paxos_greet.c:126-228 | A newcomer takes exactly the contiguous commits from the base as learned and finds its hole after them. |
| Session.Session.Commit | libmotmot/src/paxos_learn.c:35-134 | Commits and learns as `Node.CommitInstance` does; an acceptor retries exactly when the hole is missing or uncommitted, and a commit below the hole fails once its data is at hand. |
| Session.Session.BeginPrepare | libmotmot/src/paxos_proposer.c:61-134 | Quits if too few are live or a prepare is in progress; otherwise prepares in a fresh ballot of its own from the hole, with the given parts queued. |
| Session.Session.AckPrepare | libmotmot/src/paxos_acceptor.c:26-88 | Promises a higher ballot of the believed proposer; the announced count is right exactly when the base is not past the asked start. |
| Session.Session.AckPromise | libmotmot/src/paxos_proposer.c:168-318 | Merge, completion and drain together do what `Node.AckPromise` followed by `DecreeAll` says. |
| Session.Session.Decree | libmotmot/src/paxos_proposer.c:327-349 | Enters a value under the next number with our vote, and commits it at once if alone. |
| Session.Session.AckDecree | libmotmot/src/paxos_acceptor.c:98-166 | Rejects the part of a reachable acceptor and fails on one unlisted; otherwise accepts with relabelling, accepts without it if committed, or stays silent. |
| Session.Session.AckAccept | libmotmot/src/paxos_proposer.c:358-382 | Counts a vote and commits at a majority, once. |
| Session.Session.AckCommit | libmotmot/src/paxos_acceptor.c:197-227 | Replaces the value, keeps the label, and commits, below the base as well; an already committed instance is left alone, and the invariant is kept from the base on. |
| Session.Session.AckRecommit | libmotmot/src/paxos_retry.c:86-112 | As a commit, but the retrier's ballot is taken over. |
| Session.Session.AckRetry | libmotmot/src/paxos_retry.c:45-59 | Answers with the value exactly if it is committed. |
| Session.Session.Request | libmotmot/src/paxos_request.c:51-114 | Caches the request if it carries data and tells everyone, or else only the proposer; a proposer decrees it or, while preparing, queues it last. |
| Session.Session.AckRequest | libmotmot/src/paxos_request.c:122-180 | Caches and decrees another's request; a proposer decrees a kill of one who names a lower-ranked proposer, and fails if it is unlisted; anyone else refuses one who names it. |
| Session.Session.AckResend | libmotmot/src/paxos_request.c:285-317 | Late data commits its instance exactly if it still waits. |
| Session.Session.Truncate | libmotmot/src/paxos_sync.c:170-191 | The list becomes exactly its part from any base on; if the base is learned and request ids are distinct it starts there, is not empty, and the invariant is kept. |
| Session.Session.ProposerSync | libmotmot/src/paxos_sync.c:47-96 | Starts a round only when prepared, with all live and something new learned; a round in progress is given up after thirty skips. |
| Session.Session.AckLast | libmotmot/src/paxos_sync.c:141-233 | The last reply of a round truncates to the least last learn of all, ours included; one of the current number outside a round, or a result below the base, is fatal. |
| InstanceList.Find | libmotmot/src/types/session_local.c:33-34 | The early-exit backward search finds an instance exactly if it is listed. |
| InstanceList.Insert | libmotmot/src/types/session_local.c:33-34 | The sorted insert adds exactly a number not listed, and otherwise changes nothing. |
| InstanceList.GreatestAtMost | libmotmot/src/paxos_proposer.c:139-154 | The cursor search returns the last instance not above the number, or none if the cursor is already above it. |
| InstanceList.PackReport | libmotmot/src/paxos_acceptor.c:65-81 | The announced count equals the number packed exactly when the list starts at or below the asked number, and what is packed is then the report. |
| Loops.MergeLoop | libmotmot/src/paxos_proposer.c:189-243 | The one-cursor merge of a sorted report is the pointwise merge, and succeeds exactly if the report does not begin below the cursor. |
| Loops.RedecreeLoop | libmotmot/src/paxos_proposer.c:257-304 | The loop over numbers and list together ends, rewrites exactly the open instances, and broadcasts exactly their decrees. |
| Loops.LearnRunLoop | libmotmot/src/paxos_learn.c:96-131 | Learns, in order and once each, exactly the ready run from the hole, and leaves `istart` at the hole or just before it. |
| Loops.TruncateLoop | libmotmot/src/paxos_sync.c:170-191 | Removes exactly the instances below the base and their requests. |
| Loops.WelcomeLoop | libmotmot/src/paxos_greet.c:197-225 | Finds the first number from the base that is not committed, and marks what precedes it learned. |
| LinkedList.List.InsertAfter | libmotmot/src/containers/list.h:77-86 | Splices in after an item, keeping links inverse and the count exact. |
| LinkedList.List.InsertBefore | libmotmot/src/containers/list.h:88-97 | Splices in before an item, keeping links inverse and the count exact. |
| LinkedList.List.InsertHead | libmotmot/src/containers/list.h:99-108 | Puts an item first. |
| LinkedList.List.InsertTail | libmotmot/src/containers/list.h:110-119 | Puts an item last. |
| LinkedList.List.Remove | libmotmot/src/containers/list.h:121-133 | Unlinks exactly the given item. |
| LinkedList.List.WalkForward | libmotmot/src/containers/list.h:40-43 | The forward walk visits exactly the items in order. |
| LinkedList.List.WalkBackward | libmotmot/src/containers/list.h:45-48 | The backward walk is the reverse of the forward walk. |
| LinkedList.List.FindForward | libmotmot/src/containers/list_factory.h:82-103 | The early-exit search agrees with membership of the key, forwards. |
| LinkedList.List.FindBackward | libmotmot/src/containers/list_factory.h:82-103 | The early-exit search agrees with membership of the key, backwards. |
| LinkedList.List.Insert | libmotmot/src/containers/list_factory.h:116-135 | The sorted insert keeps keys strictly increasing and returns the item already listed instead of a duplicate. |
| Truncation.TruncationSafety | libmotmot/src/paxos_sync.c:141-251 | In every reachable state every log starts at its base and is whole up to its hole, and no base, nor any truncation in flight, is past the last contiguous learn of any member. |
| Truncation.StartSurvives | libmotmot/src/paxos_sync.c:170-191 | The instance `istart` names is never truncated. |
| Truncation.LateMessagesFind | libmotmot/src/paxos_proposer.c:367-369 | A vote or retry reaching the proposer names a listed instance, a reply of the current sync finds it in progress, and what reaches an acceptor lies above its base. |
| Truncation.StopsExactly | libmotmot/src/paxos_acceptor.c:122-129 | In a step of any run, an acceptor fails if and only if it is asked in its ballot for the part of someone it does not list, and any member if and only if the first value it learns that is not harmless is a chat from someone it no longer lists; members go on unless that, or their own or their proposer's part, stops them. No stale reply, late message or missing instance does. |
| InheritedParts.MissingAcceptorIsReached | libmotmot/src/paxos_acceptor.c:122-129 | A run of the agreement model leads to a first state of the sync model in which an acceptor fails on the repeated decree of a part it has learned. |
| UnlistedChats.UnlistedChatIsReached | libmotmot/src/paxos_learn.c:156-159 | A run from a group just started after which the proposer has failed on learning a chat from someone it has parted. |
| Listing.FirstDecides | libmotmot/src/paxos_learn.c:150-241 | Of values learned in a row, the first that fails, or parts us or our proposer, decides; without one we go on. |
| Listing.ListedAfter | libmotmot/src/paxos_learn.c:166-239 | Listed after learning some values is exactly who was listed or joined among them and has not been parted since. |
| SyncLearning.StepLearns | libmotmot/src/paxos_learn.c:96-131 | What any member learns in a step is the values of the instances its hole has moved over, one for each and in order. |
| SyncLearning.HandledLearns | libmotmot/src/paxos_learn.c:35-70 | A message makes an acceptor learn if and only if it commits the hole, uncommitted so far, and its data is at hand. |
| Truncation.PromiseScanStops | libmotmot/src/paxos_acceptor.c:65-81 | Should any member prepare next, the backward scan of any other's list stops inside it. |
| Truncation.MembersAgree | libmotmot/src/paxos_retry.c:86-112 | Under one proposer members agree on every committed instance, recommits included. |
| SyncSafety.RoundHears | libmotmot/src/paxos_sync.c:141-163 | A round's count is the number of distinct members heard, and its minimum bounds every member's last learn when it ends. |
| Rounds.RoundEnds | libmotmot/src/paxos_sync.c:141-233 | In the step of any run that ends a round, everyone has replied to that round, the least last learn of all, ours included, becomes base and sync point, and everyone is told it. |
| Rounds.SyncPointIsBase | libmotmot/src/paxos_sync.c:200-220 | In every state of a run after a round has ended, the sync point is the proposer's base and the base everyone was last told. |
| Rounds.NextRound | libmotmot/src/paxos_sync.c:63-95 | With no round on after one has ended, a tick changes and sends nothing if and only if the proposer has learned nothing past the base; otherwise it asks everyone for their last learn. |
| Rounds.RepliesAddUp | libmotmot/src/paxos_sync.c:141-163 | A round ends exactly with the reply of the last member still to answer, with the least last learn. |
| Rounds.RoundIsAwaited | libmotmot/src/paxos_sync.c:70-78 | A waiting round survives twenty-nine ticks with what it has heard, and is replaced at the thirtieth. |
| Rounds.SyncAnswered | libmotmot/src/paxos_sync.c:104-135 | A sync is answered, with the last learn, exactly in the ballot the acceptor holds. |
| Rounds.PartAnswered | libmotmot/src/paxos_acceptor.c:119-166 | Asked for the part of someone in its ballot, an acceptor that is connected to that one takes no other note of it; one that lists it unconnected votes for what is free; one that does not list it stops. |
| Rounds.ListAnswered | libmotmot/src/paxos_learn.c:166-239 | Whom an acceptor lists after a message: whom it listed or has learned to have joined, and has not learned to be parted since. |
| SyncSafety.StepKeepsInv | libmotmot/src/paxos.c:208-367 | Every step of the sync system keeps its invariant, and whom it stops is told by the lists of acceptors alone. |
| SyncPreservation.TakeOK | libmotmot/src/paxos.c:296-367 | Whatever message an acceptor takes off its channel it keeps its invariant; it survives if and only if it lists the acceptor whose part it is asked for in its ballot, if any, and survives what it learns. |
| Handover.StartedSynchronizes | libmotmot/src/paxos.c:53-120 | A group that has just started meets what the sync results assume. |
| Leadership.EventSane | libmotmot/src/paxos_reconnect.c:70-186 | Every event, without exception, leaves a session listed, believing in nobody below itself, and preparing only as proposer; a prepare never finds another in progress, and an assertion fails if and only if a redirect, refusal or reject names someone who cannot be reconnected to. |
| Leadership.EventInOrder | libmotmot/src/paxos_reconnect.c:154-186 | An event keeps the proposer the least id among ourselves and the connected if and only if it is neither a proposer's reconnection to itself, nor a hello from ourselves, nor a connection to a superior without deferring to it. |
| Leadership.EventAccounted | libmotmot/src/paxos_util.c:35-47 | An event keeps the live count exact if and only if it is neither a proposer's join with a deferred hello, nor its reconnection to itself, nor a hello from ourselves where we were not connected to ourselves. |
| Leadership.MiscountIsReached | libmotmot/src/paxos_learn.c:172-192 | A run in which an acceptor hears a newcomer's hello before learning the join, succeeds the proposer, and then counts the newcomer twice. |
| Leadership.SelfRejoinIsReached | libmotmot/src/paxos_reconnect.c:442-450 | A run after which an established proposer holds a connection to itself and its live count is wrong, and its hello to itself changes nothing. |
| Leadership.SuperiorRejoinIsReached | libmotmot/src/paxos_reconnect.c:442-447 | A run after which an established proposer is connected to one who outranks it. |
| Leadership.SuperiorWelcomeIsReached | libmotmot/src/paxos_greet.c:235-249 | A run after which a newcomer is connected to one who outranks the proposer it believes in. |
| Leadership.LostAcceptorsAreParted | libmotmot/src/paxos.c:163-201 | In every state of every run of events, a proposer has decreed or queued the part of everyone it cannot reach, however and whenever they were lost; only for one who outranks it may that be a kill. |
| Leadership.OnlySuperiorsAreKilled | libmotmot/src/paxos_proposer.c:95-121 | Over every run of events, each kill a participant has queued or decreed on losing or succeeding someone names one who outranks it. |
| Reactions.DropAnswered | libmotmot/src/paxos.c:163-201 | A proposer that loses an acceptor, whatever its rank, decrees or queues its part under the next request id; anyone else that loses its proposer takes the first it can reach, and prepares or leaves if that is itself; nothing else changes. |
| Reactions.JoinAnswered | libmotmot/src/paxos_learn.c:166-197 | Everyone lists a newcomer last; who kept its hello counts it; a proposer connects to it, and decrees its part exactly if that fails. |
| Reactions.RedirectAnswered | libmotmot/src/paxos_reconnect.c:94-186 | At every redirect of our prepare, others still to answer or not, we defer if and only if the death-adjusted redirects reach a majority and the superior is reached, prepare again or leave if and only if they do and it is not, or all have answered and neither side has a majority, and otherwise count one redirect more. |
| Reactions.RefusalAnswered | libmotmot/src/paxos_reconnect.c:237-335 | A refused acceptor defers to the superior named if and only if it is above its proposer and reached, and drops what it had queued. |
| Reactions.RejoinAnswered | libmotmot/src/paxos_reconnect.c:430-450 | A proposer that reaches the one it could not part is connected to it from then on, and changes nothing else. |
| Reactions.HelloAnswered | libmotmot/src/paxos_greet.c:282-365 | Which connection survives a hello, when its sender becomes the proposer, and when its ballot is taken over. |
| Reactions.CountAnswered | libmotmot/src/paxos_proposer.c:245-315 | A promise of the prepared ballot counts once, and the one that makes a majority takes the ballot and decrees the queue in order. |
| Reactions.RequestsAreNumbered | libmotmot/src/paxos_util.c:118-140 | Over every run of events, all a participant has decreed and queued for membership is under request ids of its own, each used once, in increasing order. |
| Leadership.StableProposership | libmotmot/src/paxos_proposer.c:40-59 | Once a proposer has prepared it remains the proposer, in that ballot, until its session ends, over every run of events. |
| Leadership.LearnJoinCount | libmotmot/src/paxos_learn.c:166-197 | Learning a join keeps the live count exact if and only if it is not a proposer's learning of a join whose hello was deferred. |
| Leadership.NextOutbids | libmotmot/src/paxos_proposer.c:81-83 | A prepare begun now is in a ballot above the one held if and only if the generation held is covered by the highest seen, or is the next one and held from somebody who ranks below us. |
| Leadership.EventCovered | libmotmot/src/paxos_greet.c:358-361 | An event leaves the generation held covered by the highest seen if and only if it is not a hello of the proposer, or of one who becomes it, under a generation above it. |
| Leadership.UnderbidIsReached | libmotmot/src/paxos_greet.c:337-361 | A run from a session in order after which a participant is preparing in a ballot below the one it holds. |
| Leadership.RedirectTrichotomy | libmotmot/src/paxos_reconnect.c:19-19 | When every live acceptor has answered once, and whatever the live count, exactly one of promise majority, death-adjusted redirect majority and an even split holds. |
| Leadership.LastAnswerDecides | libmotmot/src/paxos_reconnect.c:105-186 | The last answer to an undecided prepare makes us prepare again, or quit if too few are live, exactly on an even split or when the superior cannot be reached; otherwise we defer to it. |
| Leadership.LearnPartInOrder | libmotmot/src/paxos_learn.c:199-239 | Learning a part keeps the proposer the least id among ourselves and the connected. |
| Leadership.DropInOrder | libmotmot/src/paxos.c:163-201 | A lost connection keeps the proposer the least id among ourselves and the connected. |
| Leadership.PartsAreOfUnreachable | libmotmot/src/paxos_proposer.c:110-120 | A new preparer queues exactly one decree per acceptor it cannot reach, in list order with request ids in sequence: a kill for those who outrank it, a part for the rest. |
| Leadership.HelloInOrder | libmotmot/src/paxos_greet.c:282-365 | A hello keeps the proposer the least id among ourselves and the connected, an established proposer included, if and only if it is not from ourselves. |
| Roster.Roster.Drop | libmotmot/src/paxos.c:163-201 | The loop over the acceptors does what `Membership.Drop` says. |
| Roster.Roster.Hello | libmotmot/src/paxos_greet.c:282-365 | Does what `Membership.Hello` says, inserting a deferred hello in order. |
| Roster.Roster.Redirect | libmotmot/src/paxos_reconnect.c:70-186 | Does what `Membership.Redirect` says, through the continuation. |
| Roster.Roster.Refuse | libmotmot/src/paxos_reconnect.c:237-335 | Does what `Membership.Refuse` says, through the continuation. |
| Roster.Roster.LearnJoin | libmotmot/src/paxos_learn.c:166-197 | Does what `Membership.LearnJoin` says. |
| Roster.Roster.LearnPart | libmotmot/src/paxos_learn.c:199-239 | Does what `Membership.LearnPart` says. |
| Roster.Roster.Prepare | libmotmot/src/paxos_proposer.c:61-121 | Leaves if too few are live; otherwise takes a fresh ballot and queues a part or kill for each unreachable acceptor in list order. |
| Roster.Roster.ResetProposer | libmotmot/src/paxos_util.c:36-47 | The walk takes the first reachable acceptor. |
| Roster.Roster.Rejoin | libmotmot/src/paxos_reconnect.c:430-461 | Does what `Membership.Rejoin` says: connects to the acceptor we could not part without deferring to it. |
| Roster.Roster.CountPromise | libmotmot/src/paxos_proposer.c:245-315 | Completes at a majority with the queue released. |
| Coupling.BeginPrepare | libmotmot/src/paxos_proposer.c:61-134 | Preparing keeps a session and its roster in agreement on proposer, ballot, prepare, request numbers, queue and members. |
| Coupling.CountPromise | libmotmot/src/paxos_proposer.c:168-318 | Counting a promise keeps them in agreement, the nulls' request numbers and the drained queue included, or stops both. |
| Coupling.DeferTo | libmotmot/src/paxos_reconnect.c:154-180 | Deferring to a superior keeps them in agreement. |
| LearnEffects.LearnActing | libmotmot/src/paxos_learn.c:96-131 | The learning loop ends although learning a join may append a part: it stops at the same hole, and what it appended lies uncommitted past the old end. |
| LearnEffects.ActByList | libmotmot/src/paxos_learn.c:138-244 | For a follower or an established proposer, what learning a value does to the session, whether it fails, ends or turns to another proposer and whom it leaves listed, is what the list of acceptors alone tells. |
| LearnEffects.ActDecrees | libmotmot/src/paxos_learn.c:187-192 | One learned value enters at most one decree, and then our own vote is no majority, so the commit does not recurse. |

## Left out

- DecreeSafety: holds with its exception only; `StaleLabels.UnsafeDecreeIsReached` is the run and `Agreement.DecreeSafetyExactly` the exact condition.
- Agreement, TotalOrder, CommitsPersist, StepKeepsInv, RunInv, CountersAreQuorums: over runs without rejects, retries and recommits; `Answers.SafeAgreement` has agreement with them, and its exceptions.
- LatestProposerKnows: assumes that no prepare above the proposer's has completed, without which others may commit past it.
- MergeLoop: the merge is of reports already unpacked and sorted; the code assumes that order too.
- AckDecree, AckCommit, AckRecommit: below the base they do what the handlers say but leave the session's invariant; `Truncation.LateMessagesFind` has nothing below the base arrive.
- Truncate, AckLast: keep the session's invariant if distinct instances carry distinct request ids, as requesters number them.
- StopsExactly: the channels and the majorities are those of fixed members; learned joins and parts change whom a member lists, not whom it counts or is joined to, and the proposer does not act on a reject.
- TruncationSafety: runs start where a proposer has just been established, with nobody's base past anybody's last learn; that is what the previous proposer's runs guarantee, and connections stay up.
- Loss of 32-bit wrap-around in ids, instance numbers and generations.
- SafeAgreement: whether a rejected part names someone still listed is `Leadership.EventSane`'s concern. Its two exceptions are kinds of step, each with a run that disagrees; not every run with such a step does.
- Hellos (libmotmot/src/paxos_greet.c:337-362) in the agreement model, other than the proposer's to one it could not part: only a hello of the receiver's own proposer touches its ballot, and others say hello to those who rank above them or, as newcomers, to those who have joined before.
- Rejects in the synchronization model: the acceptor's side only.
- Agreement while the acceptor list changes: the code does not bound how far members' lists differ. Only the overlap across one change is proved.
- A newcomer's acceptor list: commits past its join are marked learned without being acted on, so it need not match the group's.
- Session and Roster are one struct in the code. `Coupling.dfy` keeps them in agreement through preparing, promising, deferring and completing; the learning loop that couples them otherwise is LearnEffects.
- The session's lists are sequences in `Session.dfy` and `Roster.dfy`; the links and the aliasing between lists and cursors are modelled in `LinkedList.dfy` only.
- Asynchronous connection continuations, several sessions in one process, and the force-kill paths with the fall-through at libmotmot/src/paxos.c:258-266.
- Liveness: that a prepare, a retrieve or a sync completes.
- Socket buffering, msgpack encoding, hashing, printing, the command-line client, the discovery server and the chat plugin.
