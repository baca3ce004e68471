# Ticket pipeline: a verified model

The pipeline answers Zendesk tickets at least once: a poller reads Zendesk into Postgres and publishes jobs to RabbitMQ,
workers generate a reply per job and post it, and a web admin edits the rules and the catalogue they work with. The
libraries around it are thin; what can go wrong lies in the protocol between its parts. This project models that
protocol in Dafny and proves what it keeps. `dafny verify dfyconfig.toml` checks everything.

Each protocol is a state machine: `Apply(state, event)` is one step (an event that is not enabled changes nothing) and
`Exec` a run. Theorems are about all runs: any interleaving, crash, rollback or failed request is just another event.
Code that updates fields in place is a class whose methods are proved to do what the steps of the machine do, one by one
or, where a method's statements interleave with others', as a sequence (`JobQueue.ProcessedOnce`,
`PollingRuns.UndisturbedPoll`, `ReplyLedger.StepsArePostReply`, `FilterCache.StepsAreGetFilter`).

| file | what it models |
|---|---|
| `Routing.dfy` | topic-exchange routing (section 3.1.3.3 of AMQP 0-9-1), keys, bindings, the topology of one job type and brand |
| `JobQueue.dfy`, `RetryExhaustion.dfy`, `ConcurrentConsumers.dfy` | retries and dead-lettering, with crashes, partial publishes and rolled-back handlers; runs that reach the retry bound; what can be handled at once |
| `Locks.dfy` | lease locks over skewed clocks cut to whole seconds |
| `Poller.dfy`, `PolledJobs.dfy` | one polling cycle; the jobs it publishes |
| `PollingRuns.dfy`, `PolledRuns.dfy`, `PollingRefinement.dfy` | all runs of cycles; what committed and rolled-back cycles leave; incremental polling as one full scan |
| `ZendeskPaging.dfy` | the cursor-paged ticket export the poller reads |
| `ReplyPosting.dfy`, `HandlerEndings.dfy`, `ReplyLedger.dfy` | reply attempts, recorded posts, the follow-up gate, handler transactions; how each handler ends; the order of posts and the replies left on Zendesk |
| `RuleFilter.dfy`, `RuleMeaning.dfy` | filter rules compiled and evaluated; what each rule means in its own fields |
| `FilterCache.dfy`, `BrandRules.dfy` | compiled filters cached per brand and stamp; which rules a brand's filter comes from |
| `TelegramLimits.dfy`, `DedupFilters.dfy` | the two log limiters |
| `Catalogue.dfy`, `ReportedFields.dfy`, `SyncProgress.dfy` | the listing upsert; what a report leaves of each field; progress of a catalogue sync |
| `JsonBlock.dfy`, `Text.dfy` | the JSON extractor, over Python's `strip` |
| `Sums.dfy`, `Counting.dfy`, `Decimal.dfy`, `Wrappers.dfy` | sums and counts over sequences, numbers in decimal, a value that may be missing |

## What the proofs found

Where an expected property is false, the code is modelled as it is and the exact condition is proved.

- A brand id of 0 counts as a missing header, so a failed job is routed to `unknown` and lost: some run loses a message of
  a job type and brand if and only if the brand id is 0 (`JobQueue.LosesIff`).
- A publish whose confirmation is lost is repeated, so one call can leave up to three copies; every bound counts accepted
  copies, and a `publish` that returns false has left copies exactly if an attempt was accepted without confirmation
  (`JobQueue.RepliesTell`).
- The retry bound of 4 * (accepted copies + interruptions) is tight: a crash between sending a retry and acknowledging
  the original starts a second life of the message with four attempts of its own (`RetryExhaustion.BoundReached`).
- A job is published before its cycle commits, so each rolled-back cycle can publish a comment's follow-up again, and
  some run does so every time (`PolledRuns.PublishBoundReached`).
- Lease exclusion holds in all runs if and only if holder names differ and sections end within ttl - 2 * skew - 1 seconds
  of their clock read (`Locks.ExclusionIff`). The one second is the clock's truncation.
- With stamps that are never reused, a filter-cache hit need not equal the rules committed at its version check: when
  another call of the process fills the entry between the caller's read of the stamp and its look-up, the hit is newer,
  and any later filter can be served this way (`FilterCache.NewerHit`). Hits are exact in all runs if and only if stamps
  tell the filters apart and the compiled filter never changes (`FilterCache.HitsExactIff`). A hit is exact whenever no
  call of the same process stores a filter of the brand between check and look-up, also when the entry's own two reads
  straddled a commit (`FilterCache.QuietHitIsExact`, `FilterCache.NeverReusedQuietHit`). In every interleaving, hits and
  reloads alike return the filter of rules committed at some moment during the call, if and only if the stamps tell the
  filters apart (`FilterCache.CoherentIff`). Stamps are whole seconds: two changes in one second can leave a stale filter
  in force (`FilterCache.SameSecondIsStale`), and a brand that is not supported is never restamped
  (`FilterCache.UnsupportedBrandIff`).
- The record filter admits exactly min(arrivals, maximum) per window if and only if the maximum is positive
  (`DedupFilters.WindowExactIff`); any closed interval as long as the window admits at most 2 * maximum - 1, which is
  reached (`DedupFilters.ClosedWindow`, `DedupFilters.ClosedWindowReached`).
- The Telegram worker puts a held-back text into the bounded queue that only it empties: once the queue has filled up
  behind it, it never sends again. Some run gets there if and only if the queue is bounded (`TelegramLimits.StuckIff`),
  and with one clock and texts enough even within one moment (`TelegramLimits.StuckAtOnceIff`); short of that it can
  always drain (`TelegramLimits.DrainsIff`).
- A marketplace listed twice sends a progress entry from completed back to running and leaves another pending for good;
  both happen in some run if and only if the list has a repetition (`SyncProgress.ForwardIff`, `SyncProgress.NoneOpenIff`).
- A listing reported for the first time is stored with its white space, any other is stripped; hence the catalogue theorems
  speak of values up to surrounding white space, and of exact values from the second merge on.

Where code and documentation disagree, the code is followed: `publish` routes by brand id, not by the brand's name
(`src/jobs/rabbitmq_queue.py:140-148`); `iter_updated_tickets` keeps a ticket updated at the very moment it is asked for
and raises no HTTP error (`src/libs/zendesk_client/client.py:170-181`).

## Model

| member | source | states |
|---|---|---|
| Routing.WildcardFreeMatch | src/jobs/rabbitmq_queue.py:476-485 | On a topic exchange, a binding key without wildcards matches exactly the routing key equal to it. |
| Routing.HashMatches | src/jobs/rabbitmq_queue.py:476-485 | On a topic exchange, a hash stands for any number of words, none included. |
| Routing.KeyWordsInjective | src/jobs/rabbitmq_queue.py:546-582 | No two different bindings that declarations can make on one exchange share a routing key, for all integer brand ids. |
| Routing.TopologyDeclared | src/jobs/rabbitmq_queue.py:498-582 | Declaring a pair keeps the topology whole, adds that pair and no other, and changes nothing when repeated. |
| Routing.DeclareBrandTopology | src/jobs/rabbitmq_queue.py:498-582 | The declaring loop makes the main, three retry and dead queues of one pair, and nothing for another pair. |
| Routing.RoutePublish | src/jobs/rabbitmq_queue.py:163-184 | A published job reaches exactly its own main queue if that pair was declared, otherwise no queue. |
| Routing.RouteNamed | src/jobs/models.py:20-24 | The four publish keys as written, job value and brand id, reach their own main queues exactly when declared. |
| Routing.RouteRetry | src/jobs/rabbitmq_queue.py:723-741 | A retry key reaches exactly the pair's own retry queue of that number if the brand id is not 0, otherwise none. |
| Routing.RouteDead | src/jobs/rabbitmq_queue.py:774-794 | A dead-letter key reaches exactly the pair's own dead queue if the brand id is not 0, otherwise none. |
| Routing.UnknownBrandUnbound | src/jobs/rabbitmq_queue.py:724-731 | The fallback brand word is bound nowhere, whatever has been declared. |
| JobQueue.SendAttempts | src/jobs/rabbitmq_queue.py:167-217 | The publish loop leaves one copy per attempt the broker accepted, confirmed or not, and stops at the first confirmation. |
| JobQueue.RepliesTell | src/jobs/rabbitmq_queue.py:159-217 | True is returned only if a copy was accepted; after false, copies were left if and only if some attempt was accepted without confirmation. |
| JobQueue.RabbitJobQueue.constructor | src/jobs/rabbitmq_queue.py:64-84 | A queue client starts with nothing declared or published. |
| JobQueue.RabbitJobQueue.SetupBrandTopology | src/jobs/rabbitmq_queue.py:86-115 | Declares the queues of every job type given for the one brand, keeps the topology whole, and declares no other pair. |
| JobQueue.RabbitJobQueue.Publish | src/jobs/rabbitmq_queue.py:136-217 | Publishing is the machine's publish step, for every outcome of its three attempts. |
| JobQueue.RabbitJobQueue.Acknowledge | src/jobs/rabbitmq_queue.py:664-682 | Acknowledging ends a successful delivery as done and a copied one as moved. |
| JobQueue.RabbitJobQueue.PublishCopy | src/jobs/rabbitmq_queue.py:733-741 | A copy goes to every queue its key is routed to while the original stays unacknowledged. |
| JobQueue.RabbitJobQueue.NackToRetry | src/jobs/rabbitmq_queue.py:696-742 | A retry is a copy sent, then the original acknowledged, in that order. |
| JobQueue.RabbitJobQueue.SendToDead | src/jobs/rabbitmq_queue.py:744-794 | Dead-lettering sends the copy and does not acknowledge. |
| JobQueue.RabbitJobQueue.CallHandler | src/jobs/rabbitmq_queue.py:653-661 | The handler runs once: its copy ends succeeded or failed, its end is recorded, nothing else changes; the result is true exactly if it returned true, so an exception counts as false. |
| JobQueue.RabbitJobQueue.ProcessMessage | src/jobs/rabbitmq_queue.py:591-694 | Processing one delivery is exactly its sequence of machine steps: parse, run, send, acknowledge. |
| JobQueue.ProcessedOnce | src/jobs/rabbitmq_queue.py:664-694 | A processed delivery is done, or is moved with exactly one successor in the pair's own retry or dead queue, its attempt counted up; for brand id 0 there is no successor. |
| JobQueue.LocalEffect | src/jobs/rabbitmq_queue.py:591-794 | Under the declared topology, every step moves its copy as intended and sends one copy to the right queue, or none for brand id 0. |
| JobQueue.PublishEffect | src/jobs/rabbitmq_queue.py:163-193 | A publish adds as many equal copies with attempt 0 to the pair's main queue as were accepted, or none if the pair is not declared. |
| JobQueue.ApplyValid | src/jobs/rabbitmq_queue.py:498-794 | Every step keeps the invariant: placement by attempt, one delivery at a time per consumer queue, a well-formed topology. |
| JobQueue.RetryBound | src/jobs/rabbitmq_queue.py:653-694 | In every run, handler invocations of a message number at most 4 * (accepted copies + k), where k counts the crashes that interrupted its own handling, which are at most all crashes. |
| JobQueue.Conservation | src/jobs/rabbitmq_queue.py:669-742 | A message with a non-zero brand id is never lost: its live places number at least its accepted copies and at most those plus the interruptions of its handling. |
| JobQueue.PlacedByAttempt | src/jobs/rabbitmq_queue.py:669-742 | Copies stay in queues of their own pair; in retry queue i the attempt is i, in the dead queue 4, or 0 if unparseable; none vanishes. |
| JobQueue.FailureLosesIffBrandZero | src/jobs/rabbitmq_queue.py:723-742 | A failed invocation costs its message a place if and only if the brand id is 0. |
| JobQueue.LosesIff | src/jobs/rabbitmq_queue.py:723-742 | Some run leaves a message of a job type and brand in fewer places than copies were accepted, if and only if the brand id is 0. |
| JobQueue.PostsPerJob | src/jobs/rabbitmq_queue.py:653-667 | Completed posts of a message number at most its accepted copies plus interruptions plus the handlers rolled back after posting. |
| JobQueue.CommittedPostIsLast | src/jobs/rabbitmq_queue.py:663-667 | After a committed post of a message accepted once, whose handling no crash of the run interrupts, its handler is never invoked again. |
| RetryExhaustion.FailedRound | src/jobs/rabbitmq_queue.py:669-742 | A waiting copy whose handler fails ends moved, with exactly one successor that counts one attempt more, in the next retry queue or, after the third retry, in the dead queue. |
| RetryExhaustion.RetryRound | src/jobs/rabbitmq_queue.py:557-574 | An expired retry is back in the main queue of its job type and brand, and its handler runs once more. |
| RetryExhaustion.CrashedRound | src/jobs/rabbitmq_queue.py:653-694 | A crash after the successor was sent and before the acknowledgement leaves the copy waiting again, beside its successor. |
| RetryExhaustion.BoundReached | src/jobs/rabbitmq_queue.py:17-17 | The bound is reached: for every job type, brand other than 0 and number k of crashes, some run accepts a message once, is interrupted k times in its handling, invokes its handler exactly 4 * (1 + k) times, and ends with 1 + k copies in its dead queue at attempt 4 and no other copy queued. |
| RetryExhaustion.AttemptsWereMade | src/jobs/rabbitmq_queue.py:653-694 | In every run, a parseable copy counts no more attempts than its message's handler was invoked; in the dead queue that is four at least. |
| ConcurrentConsumers.OneHandles | src/jobs/rabbitmq_queue.py:336-353 | A consumer may hold a delivery that it does not handle yet while it handles another. |
| ConcurrentConsumers.OverlapIff | src/jobs/rabbitmq_queue.py:336-353 | Two messages can be in handling at the same time in some run if and only if their consumers differ in process, job type or brand. |
| ConcurrentConsumers.AtMostThree | src/jobs/rabbitmq_queue.py:159-217 | One publish call leaves at most three copies, and three unconfirmed attempts leave exactly three. |
| Locks.LocksRepository.AcquireLock | src/db/repositories/locks.py:28-54 | A lease is taken exactly when none is held by the reader's clock; else the holder is named and nothing changes. |
| Locks.LocksRepository.ReleaseLock | src/db/repositories/locks.py:56-64 | A release removes only the caller's own row of that name. |
| Locks.ReleaseSparesOthers | src/db/repositories/locks.py:56-64 | A release leaves other names and other holders' leases alone, and repeating it changes nothing. |
| Locks.LeaseKeptInside | src/zendesk/poller.py:341-379 | While a process is in its section in time, the lock row stays its own: no late or failed acquirer's release removes it. |
| Locks.LongSectionsOverlap | src/db/repositories/locks.py:35-54 | If sections may last longer than ttl - 2 * skew - 1, some run has two processes inside. |
| Locks.SharedHolderOverlaps | src/db/repositories/locks.py:56-64 | If two processes share a holder name, some run has both inside, because the loser's release frees the winner's lease. |
| Locks.ExclusionIff | src/db/repositories/locks.py:28-64 | Mutual exclusion in all runs, if and only if holders are distinct and sections end within ttl - 2 * skew - 1 of their clock read. |
| Locks.PollerLease | src/zendesk/poller.py:341-368 | The poller's 180-second lease keeps cycles of up to 179 - 2 * skew seconds apart. |
| Locks.HandOver | src/db/repositories/locks.py:28-64 | A lock left and released by its owner can be taken by another process at once, for a full lease. |
| ReplyPosting.Session.Create | src/db/repositories/reply_attempts.py:140-164 | A new attempt gets a fresh id. |
| ReplyPosting.Session.Mark | src/db/repositories/reply_attempts.py:166-191 | Marking changes the status of that attempt only. |
| ReplyPosting.Session.RecordOurPost | src/db/repositories/our_posts.py:22-50 | A post is inserted unless its key is taken, and the result tells which. |
| ReplyPosting.Session.DeleteOurPost | src/db/repositories/our_posts.py:52-55 | The compensating delete removes that key only. |
| ReplyPosting.Session.PostComment | src/workers/reply_posting.py:135-152 | A failed request may still have left the comment; success means it is there. |
| ReplyPosting.Session.PostReply | src/workers/reply_posting.py:47-115 | One reply leaves one new attempt with its final status, a recorded post exactly when posted, and at most one comment. |
| ReplyPosting.RunValid | src/workers/reply_posting.py:47-115 | Every run of interleaved, committed and rolled-back handlers under one steady clock keeps the invariant of the tables and open transactions. |
| ReplyPosting.CommittedAttempts | src/db/repositories/our_posts.py:22-55 | In every reachable state no committed attempt is unfinished, and posted attempts and recorded posts match one to one by key. |
| ReplyPosting.FollowupsNeverFirst | src/workers/followup_reply.py:132-149 | At every moment, under one clock that does not go back, some initial-reply post of the ticket is as early as any of its recorded posts. |
| ReplyPosting.OpeningCommentNeverAnswered | src/workers/followup_reply.py:140-149 | A follow-up job for a comment no later than its ticket's creation never passes its gate. |
| ReplyPosting.HandlerContract | src/workers/initial_reply.py:79-97 | A handler whose post committed reported true, and one that rolled back reported failure: what the job queue's bounds assume. |
| ReplyPosting.ObservingSticky | src/workers/followup_reply.py:89-96 | Once a ticket is unobserved, until it is set again, follow-up handlers that start later end with true and post nothing. |
| ReplyLedger.FirstPostIsInitial | src/workers/followup_reply.py:132-149 | In every run, whatever the clocks say, the first committed post of a ticket is by an initial-reply job. |
| ReplyLedger.RepliesAccounted | src/workers/reply_posting.py:87-115 | In every run, the replies of a key on Zendesk are exactly the one on record or awaiting its commit, plus one per refused call that left it all the same and per rollback after an accepted call. |
| ReplyLedger.StepsArePostReply | src/workers/reply_posting.py:47-115 | Taken apart into separate interleavable steps and committed, a reply has exactly the net effect of the method, on attempts, posts and Zendesk. |
| HandlerEndings.InitialGate | src/workers/initial_reply.py:79-97 | An initial-reply handler goes on to reply if and only if the ticket is not a service ticket; otherwise it ends with true. |
| HandlerEndings.ServiceTicket | src/workers/initial_reply.py:80-81 | A service ticket is acknowledged without an attempt, and its ticket row is unobserved, nothing else changed. |
| HandlerEndings.InitialNeverIgnored | src/workers/initial_reply.py:79-97 | In any run under any clock, an initial-reply handler that commits leaves an attempt of its ticket, or else the ticket unobserved and a true result. |
| HandlerEndings.FollowupGate | src/workers/followup_reply.py:89-149 | A follow-up handler ends with false exactly if its ticket is observed and the comment has no event row; it replies exactly if, with a row, some post of the ticket is older than the comment; in all other cases it ends with true. |
| HandlerEndings.EndedFollowup | src/workers/followup_reply.py:91-111 | A follow-up that ends at its checks writes nothing. |
| HandlerEndings.ReplyResult | src/workers/reply_posting.py:56-115 | Once replying, the result is true exactly for a reply that is not empty and is posted before, not to be sent, or accepted. |
| HandlerEndings.ReplyRows | src/workers/reply_posting.py:56-115 | It commits one attempt with the status that outcome stands for, a post exactly if that is posted, and touches no ticket or event row. |
| HandlerEndings.EndedAttempt | src/workers/reply_posting.py:56-115 | In every reachable state, a handler that ended after an attempt reports true exactly for posted or duplicate, so a refused or empty reply is retried. |
| HandlerEndings.AttemptsReferToTickets | src/db/repositories/reply_attempts.py:140-164 | In every run, an attempt is only ever written for a ticket whose row is stored. |
| HandlerEndings.RolledBackHandler | src/workers/initial_reply.py:79-97 | Whatever a handler has done, its rollback leaves the tables as they were and touches no other handler. |
| HandlerEndings.ObservingDecides | src/workers/followup_reply.py:89-96 | Of a follow-up that could be answered, whether its ticket is observed alone decides if it goes on. |
| HandlerEndings.AnsweredTwice | src/workers/followup_reply.py:89-123 | Answers do come: for every ticket, later comment and two different replies, some run commits first the initial and then the follow-up reply as posted. |
| Poller.Poller.UpsertTicket | src/db/repositories/tickets.py:82-133 | Changes that ticket row only, reports whether it is new, and leaves it observed exactly if it is new or was observed before. |
| Poller.Poller.BootstrapIfNeeded | src/zendesk/poller.py:101-117 | A missing checkpoint is set five minutes before the clock; the cycle reads from the two checkpoints. |
| Poller.Poller.ProcessOpenTickets | src/zendesk/poller.py:119-138 | The loop over open tickets is the machine's scan: rows commit one by one, one initial job per new row. |
| Poller.Poller.HandleItem | src/zendesk/poller.py:280-304 | One event is inserted once, announced only if it was new, and the ticket row refreshed. |
| Poller.Poller.HandleItems | src/zendesk/poller.py:280-304 | All events of a visited ticket, in order. |
| Poller.Poller.VisitTicket | src/zendesk/poller.py:164-192 | An unknown ticket is skipped, an unobserved one only refreshed, another's status change and newer comments are listed. |
| Poller.Poller.ProcessEvents | src/zendesk/poller.py:271-305 | The events loop is the machine's second phase. |
| Poller.Poller.PollOnce | src/zendesk/poller.py:307-332 | A whole cycle, from reading the checkpoints on, leaves the tables, writes and jobs that the machine's steps leave. |
| PollingRuns.UndisturbedCycle | src/zendesk/poller.py:307-332 | Some number of machine steps completes any cycle with exactly the result the loops compute. |
| PollingRuns.UndisturbedPoll | src/zendesk/poller.py:307-332 | From a start event on, some number of steps has exactly the result of that method. |
| PollingRuns.PublishCounts | src/zendesk/poller.py:125-134 | One initial-reply publish per ticket ever; per comment, at most one follow-up or directive publish plus one per rolled-back cycle. |
| PollingRuns.JobsNameStoredTickets | src/zendesk/poller.py:67-98 | Every published job names a ticket whose row is committed. |
| PollingRuns.ObservingSticky | src/zendesk/poller.py:174-180 | Once a ticket is unobserved and not being visited, until it is set again, no event is inserted and no job published for it. |
| PollingRuns.CheckpointsNeverDecrease | src/zendesk/poller.py:316-332 | Neither committed checkpoint ever moves back. |
| PolledJobs.InitialReplies | src/zendesk/poller.py:101-138 | A cycle publishes exactly one initial reply for each new or open ticket of the brand updated since the tickets checkpoint (five minutes back if none) that was not stored before, and none for another. |
| PolledJobs.CommentJobs | src/zendesk/poller.py:213-304 | For a comment made since the events checkpoint with unknown key: its event is stored if the ticket is observed or new; a customer's public comment has exactly one follow-up published if the ticket was stored and observed before, none if it is first stored in this cycle; an agent's private comment to the robot has one directive. No other follow-up or directive is published. |
| PolledJobs.ClosedJobs | src/zendesk/poller.py:141-211 | A cycle publishes one closing for a ticket exactly if it is now solved or closed, stored with another status, observed, updated since the events checkpoint, and the change was unknown. |
| PolledRuns.CommittedTickets | src/zendesk/poller.py:316-332 | A committed cycle keeps the jobs and rows it made and adds its events; the tickets checkpoint becomes the latest update of an active ticket of the brand, or stays at the point it read from. |
| PolledRuns.CommittedEvents | src/zendesk/poller.py:279-332 | The events checkpoint becomes no earlier than any comment the cycle had to handle, and is the point it read from or the time of an event of a ticket observed afterwards. |
| PolledRuns.RolledBack | src/zendesk/poller.py:391-408 | Of a cycle that rolls back at its end, the published jobs and the ticket rows stay and nothing else. |
| PolledRuns.PublishBoundReached | src/zendesk/poller.py:271-304 | For every number of rollbacks, some run publishes the follow-up of one comment once more than that before its event is committed, so the bound of `PollingRuns.PublishCounts` is tight. |
| PolledRuns.RollbacksCounted | src/zendesk/poller.py:391-408 | The rollbacks counted in that bound are the aborts of the run. |
| PolledRuns.StoredByOthers | src/workers/followup_reply.py:202-221 | A comment whose event another process stores first is never announced by the poller, whatever follows. |
| PolledRuns.MarkedUnobserved | src/workers/initial_reply.py:142-149 | After a worker marks a ticket that is not being visited, nothing is inserted or published for it until it is observed again, whatever happens. |
| PolledRuns.EventsKept | src/zendesk/poller.py:279-304 | In every run, a committed event stays in the table with the time it was stored with. |
| PollingRefinement.ItemsDue | src/zendesk/poller.py:153-192 | A visit to a stored, observed ticket lists every comment newer than the events checkpoint. |
| PollingRefinement.RunInv | src/zendesk/poller.py:271-332 | Through every run, committed events are those a scan of the last snapshot yields or another writer inserted, and open cycles lose none. |
| PollingRefinement.PollingIsOneScan | src/zendesk/poller.py:119-332 | Of tracked tickets' comments, the table holds exactly what one full scan of the last committed snapshot finds since the bootstrap, and what others put in. |
| ZendeskPaging.IterIncrementalTickets | src/libs/zendesk_client/client.py:281-311 | For every service, also one that never ends its stream, the loop has after so many requests yielded the non-empty pages up to the end of the stream or the first error. |
| ZendeskPaging.IterUpdatedTickets | src/libs/zendesk_client/client.py:160-196 | The tickets of those pages that validate and pass the filter, in order, and whether the stream has ended. |
| ZendeskPaging.MoreRequests | src/libs/zendesk_client/client.py:296-311 | Further requests only add to what was yielded, and add nothing once the stream has ended. |
| ZendeskPaging.CompleteStream | src/libs/zendesk_client/client.py:160-196 | However the service cuts its list into pages, the result is that list filtered: nothing lost, repeated or reordered. |
| ZendeskPaging.WantedTickets | src/libs/zendesk_client/client.py:160-311 | From a service that answers the start time with the first page and each cursor with the next, the reader takes exactly the tickets at certain rising positions: those that validate, of the brand and statuses asked for if any, updated at the time or later. |
| ZendeskPaging.CutShortIsPrefix | src/libs/zendesk_client/client.py:309-311 | If some requests fail, the result is a prefix of the complete one. |
| RuleFilter.AddPattern | src/tickets_filter/config.py:43-130 | A pattern is compiled and added once per pattern and channel; a bad one raises. |
| RuleFilter.ProcessRules | src/tickets_filter/config.py:173-259 | The loop over shared sets, lists and dictionaries builds the configuration of the rule list, or fails with it. |
| RuleFilter.CompiledIff | src/tickets_filter/config.py:239-259 | Compiling succeeds if and only if every live pattern rule compiles. |
| RuleFilter.CompiledWords | src/tickets_filter/config.py:34-66 | A word is in a compiled set or list exactly if a live rule of that kind gives it. |
| RuleFilter.CompiledPatterns | src/tickets_filter/config.py:43-130 | A pattern is in a compiled list exactly if a live rule of that kind gives it. |
| RuleFilter.SenderFires | src/tickets_filter/filter.py:103-130 | The sender rule fires exactly if an address, domain or hint rule speaks, or the sender's name gives it away. |
| RuleFilter.SpamSubjectFires | src/tickets_filter/filter.py:202-237 | The marketing rule fires exactly if a spam-subject rule speaks, which only a personal mailbox allows. |
| RuleFilter.PrefixTagFires | src/tickets_filter/helpers.py:16-21 | The tag-prefix scan fires exactly if some prefix rule speaks. |
| RuleFilter.CompiledIsRules | src/tickets_filter/filter.py:258-311 | Classifying with the compiled configuration gives the flag and rule name that reading the raw rule list gives. |
| RuleFilter.SameLiveRules | src/tickets_filter/config.py:173-236 | Lists that agree up to order, repetition, and inactive, blank or platform-hint rules compile alike and give the same verdict. |
| RuleFilter.PermutedRules | src/tickets_filter/config.py:173-236 | Permuting the rules changes neither compiling nor the verdict, read directly or by the compiled classifier. |
| RuleFilter.ServiceRulesOnlyAdd | src/tickets_filter/filter.py:258-311 | Adding a rule of a service kind never turns a service ticket into a customer's. |
| RuleMeaning.HitsIsSpeaks | src/tickets_filter/config.py:27-130 | A compiled rule of each of the eleven kinds hits a ticket exactly when the rule's own fields and the ticket's own text say so. |
| RuleMeaning.RulesDecide | src/tickets_filter/filter.py:103-311 | For every list that compiles: which tickets are service, and which rule name wins, from what the rules' own fields say of the ticket. |
| RuleMeaning.DetailOfException | src/tickets_filter/filter.py:165-200 | The detail of a decision by exception is the prefix and the own pattern of a rule of the list that speaks about the ticket. |
| RuleMeaning.DetailOfPattern | src/tickets_filter/filter.py:132-256 | So is the detail of a decision by a subject or spam pattern. |
| RuleMeaning.DetailOfSender | src/tickets_filter/filter.py:103-163 | The detail of a decision by sender or tag tells which kind of rule spoke first, with the address, domain or name it spoke about. |
| RuleMeaning.CompilesIff | src/tickets_filter/config.py:43-130 | If escaped words compile, a list compiles if and only if the trimmed value of every live regex pattern rule does; without such rules it always compiles. |
| RuleMeaning.RegexCompilesIff | src/tickets_filter/config.py:49-54 | One live regex rule compiles exactly if its trimmed value does, unescaped. |
| RuleMeaning.RegexRule | src/tickets_filter/config.py:43-130 | A live regex rule alone decides a ticket exactly as its own trimmed value searches the text of its kind, its channel fitting; dots match line breaks in bodies only. |
| RuleMeaning.PlainRule | src/tickets_filter/config.py:43-130 | If searching an escaped word finds it wherever it occurs up to case, a live plain rule alone decides a ticket exactly if its channel fits and the text contains its value. |
| RuleMeaning.DeadRule | src/tickets_filter/config.py:247-253 | An inactive or blank rule may be left out anywhere without changing the configuration. |
| RuleMeaning.DomainIs | src/tickets_filter/helpers.py:12-13 | The domain is what follows the first at-sign. |
| RuleMeaning.PersonalIs | src/tickets_filter/filter.py:217-225 | The sender is at a mailbox provider exactly if the domain ends with one of five names. |
| FilterCache.TicketsFilterCache.constructor | src/tickets_filter/cache.py:31-34 | The cache starts empty. |
| FilterCache.TicketsFilterCache.GetFilter | src/tickets_filter/cache.py:36-67 | An entry is used exactly if its stamp equals the one read; else the rules then read are compiled and stored under that stamp, unless compiling fails. |
| FilterCache.TicketsFilterCache.Clear | src/tickets_filter/cache.py:69-70 | Clearing empties it. |
| FilterCache.StepsAreGetFilter | src/tickets_filter/cache.py:36-67 | The four interleavable steps of a call, with commits between its reads, give that method's result and entries. |
| FilterCache.HitIsCurrent | src/tickets_filter/cache.py:41-45 | A hit is the filter of rules committed between the stamp's read and the look-up, even if the fill straddled a commit. |
| FilterCache.NewerHit | src/tickets_filter/cache.py:41-45 | For every version check and every later commit whose rules compile, some run makes that call return the later filter by a hit. |
| FilterCache.HitsExactIff | src/tickets_filter/cache.py:36-67 | All hits of all runs equal the rules at their version checks, if and only if stamps tell filters apart and the compiled filter never changes. |
| FilterCache.QuietHitIsExact | src/tickets_filter/cache.py:41-58 | A hit equals the rules committed at its version check, even after a straddled fill, if no call of the process stores a filter of the brand in between. |
| FilterCache.NeverReusedQuietHit | src/web_admin/routes/filter_rules.py:206-212 | Never-reused stamps give that exactness for every supported brand. |
| FilterCache.NeverReusedHitsExactIff | src/web_admin/routes/filter_rules.py:206-212 | With never-reused stamps, all hits of all runs are exact if and only if the compiled filter never changes. |
| FilterCache.ExecValid | src/tickets_filter/cache.py:36-67 | Every interleaving of calls, clears and commits keeps the caches and calls consistent with the history. |
| FilterCache.CoherentIff | src/tickets_filter/cache.py:36-67 | In every interleaving every result is the filter of rules committed during its call, if and only if stamps tell filters apart. |
| FilterCache.NeverReusedIsCoherent | src/web_admin/routes/filter_rules.py:206-212 | Rule changes with never-reused stamps keep a supported brand coherent in every process. |
| FilterCache.SameSecondIsStale | src/datetime_utils.py:4-5 | Two changes in one second that leave different filters allow a run that serves the first after the second. |
| FilterCache.UnsupportedBrandIff | src/web_admin/routes/filter_rules.py:208-211 | For an unsupported brand, coherence in all runs holds if and only if no filter that compiled ever changes. |
| BrandRules.BrandWords | src/tickets_filter/cache.py:47-52 | The words of a brand's filter are exactly those of the live committed rules of their kind with no brand or this one. |
| BrandRules.BrandPatterns | src/tickets_filter/cache.py:47-52 | So are its patterns, escaped unless the rule is a regex, for the rule's channel. |
| BrandRules.BrandCompilesIff | src/tickets_filter/cache.py:47-52 | If escaped words compile, a brand has a filter exactly when the live regex pattern rules with no brand or this one compile. |
| BrandRules.ForeignRule | src/tickets_filter/cache.py:47-51 | Adding or removing an inactive rule or one of another brand leaves the brand's filter the same. |
| BrandRules.ForeignEdit | src/tickets_filter/cache.py:47-51 | So does editing such a rule. |
| BrandRules.MissLoadsOwnRules | src/tickets_filter/cache.py:43-58 | A call that finds no entry under the stamp it read returns, and keeps under that stamp, the filter of the brand's own rules among the rows it loaded. |
| TelegramLimits.TelegramHandler.constructor | src/logs/telegram.py:17-36 | A handler starts with nothing queued or remembered. |
| TelegramLimits.TelegramHandler.Emit | src/logs/telegram.py:38-52 | A text is enqueued exactly if its key was not enqueued within the window and the queue has room. |
| TelegramLimits.TelegramHandler.Work | src/logs/telegram.py:54-75 | One round of the worker: hold back at the limit, else post, and record the reading if the post did not raise. |
| TelegramLimits.TelegramHandler.Requeue | src/logs/telegram.py:62-65 | A held-back text goes to the tail, and waits while the queue is full. |
| TelegramLimits.RepeatsSpacedOut | src/logs/telegram.py:41-48 | Any two enqueues of one key are at least the window apart, whatever the clock does. |
| TelegramLimits.EnqueuedIff | src/logs/telegram.py:41-50 | In every run, a text is enqueued if and only if there is room and every enqueue of its key so far (for a new key, the epoch) is a window back. |
| TelegramLimits.QueueBounded | src/logs/telegram.py:29-29 | The queue never exceeds its size, and at most one text is held back. |
| TelegramLimits.SlidingMinute | src/logs/telegram.py:57-73 | With a clock that does not go back, no half-open minute of any run holds more recorded sends than the limit. |
| TelegramLimits.PostsWheneverAllowed | src/logs/telegram.py:60-73 | A free worker posts exactly when the last minute holds fewer recorded sends than the limit. |
| TelegramLimits.StuckForever | src/logs/telegram.py:62-65 | Once a text is held back and the queue is full, no event changes anything any more. |
| TelegramLimits.StuckIff | src/logs/telegram.py:29-65 | Some run from the start blocks the worker for good if and only if the queue is bounded. |
| TelegramLimits.StuckAtOnceIff | src/logs/telegram.py:38-65 | The same with a single clock, even within one moment, given texts of enough different keys. |
| TelegramLimits.Drains | src/logs/telegram.py:57-73 | From any state that is not stuck, some further run sends every text queued or held back. |
| TelegramLimits.DrainsIff | src/logs/telegram.py:62-65 | With a positive limit, the handler can still get rid of all its texts if and only if it is not stuck. |
| DedupFilters.DedupFilter.constructor | src/logs/filters.py:29-33 | The filter starts with no counters. |
| DedupFilters.DedupFilter.Filter | src/logs/filters.py:35-44 | One record updates its key's counter only, and passes as the counter or a new window allows. |
| DedupFilters.ExecCounts | src/logs/filters.py:35-44 | For a positive maximum, counters equal arrivals and each window admits exactly min(arrivals, maximum). |
| DedupFilters.NoneAdmitsOne | src/logs/filters.py:39-41 | With a maximum of none, a run whose first window admits nothing of its one record and whose next window admits its one record. |
| DedupFilters.WindowExactIff | src/logs/filters.py:35-44 | Exactly min(arrivals, maximum) per window and key in all runs, if and only if the maximum is positive. |
| DedupFilters.ClosedWindow | src/logs/filters.py:35-44 | A closed interval as long as the window admits at most 2 * maximum - 1 records of a key. |
| DedupFilters.ClosedWindowReached | src/logs/filters.py:35-44 | For every positive maximum and window, some run fills that bound. |
| Text.StripIs | src/ai/utils.py:27-27 | Stripping gives back a core without white space at its ends, whatever white space surrounds it. |
| Catalogue.MerchantListingRepository.UpsertMany | src/db/repositories/merchant_listing.py:86-158 | The loop over the dictionary and the removal of unseen keys give the specified table; an empty report changes nothing. |
| Catalogue.ReportKeys | src/db/repositories/merchant_listing.py:114-156 | Of the brand and marketplace, exactly the listings remain whose asin and sku some row of the report has; every other listing is untouched. |
| Catalogue.ReportListing | src/db/repositories/merchant_listing.py:116-150 | Each field becomes the last non-blank value reported for its key, else the old one, up to white space; exactly so unless new and reported once. |
| ReportedFields.ReportedName | src/db/repositories/merchant_listing.py:48-51 | Up to white space, the name is that of the last row of the asin and sku that gives one, else the old one, or empty for a new listing. |
| ReportedFields.ReportedOptional | src/db/repositories/merchant_listing.py:54-57 | The same for description and channel, a blank one being none. |
| ReportedFields.ReportedOnce | src/db/repositories/merchant_listing.py:120-136 | A new listing that one row reports is stored as reported, white space and blanks included. |
| Catalogue.FoldIsLatest | src/db/repositories/merchant_listing.py:48-57 | Merging row by row equals picking the last value that is not blank. |
| Catalogue.ReportTwice | src/db/repositories/merchant_listing.py:86-158 | The same report again only strips what it left. |
| Catalogue.ReportThrice | src/db/repositories/merchant_listing.py:86-158 | A third time nothing changes at all. |
| SyncProgress.CatalogSyncRunState.constructor | src/web_admin/catalog_sync_manager.py:135-148 | A run starts with every marketplace pending. |
| SyncProgress.CatalogSyncRunState.CountCompleted | src/web_admin/catalog_sync_manager.py:49-55 | The count of entries with a terminal status. |
| SyncProgress.CatalogSyncRunState.OnMarketplaceStarted | src/web_admin/catalog_sync_manager.py:190-197 | The first entry of the marketplace is set running, no other changes. |
| SyncProgress.CatalogSyncRunState.OnMarketplaceComplete | src/web_admin/catalog_sync_manager.py:200-210 | The first entry of the marketplace takes the outcome, no other changes. |
| SyncProgress.CatalogSyncRunState.FinalizeState | src/web_admin/catalog_sync_manager.py:213-220 | The run failed exactly if some outcome did, and its error then tells how many; entries stay. |
| SyncProgress.CatalogSyncRunState.FailState | src/web_admin/catalog_sync_manager.py:223-233 | The run failed, and every pending or running entry failed with it. |
| SyncProgress.CatalogSyncManager.constructor | src/web_admin/catalog_sync_manager.py:86-89 | No runs at first. |
| SyncProgress.CatalogSyncManager.Start | src/web_admin/catalog_sync_manager.py:102-162 | A run starts exactly if none is running for the brand and its lease can be taken, and takes it; it lists the marketplaces asked for, or the European ones, by name; nothing else changes. |
| SyncProgress.CatalogSyncManager.EndRun | src/web_admin/catalog_sync_manager.py:174-187 | However a run ends, its state is settled accordingly and its own lease, and no other, released. |
| SyncProgress.SelectedAsAsked | src/web_admin/catalog_sync_manager.py:114-117 | A run lists each marketplace as often as asked, so it has a repetition exactly if the request has one. |
| SyncProgress.ProgressForward | src/web_admin/catalog_sync_manager.py:190-210 | For distinct marketplaces, statuses go pending, running, terminal, and the completed count neither falls nor passes the total. |
| SyncProgress.RepeatedMarketGoesBack | src/web_admin/catalog_sync_manager.py:192-195 | A marketplace listed twice can go from completed back to running. |
| SyncProgress.ForwardIff | src/web_admin/catalog_sync_manager.py:190-210 | Statuses move forward in all runs, if and only if no marketplace is listed twice. |
| SyncProgress.ExecConsistent | src/workflows/catalog_sync.py:62-82 | In every interleaving of distinct marketplaces, entries show their tasks' progress and outcomes are recorded once each. |
| SyncProgress.FinishedRun | src/web_admin/catalog_sync_manager.py:164-233 | However a run of distinct marketplaces ends, nothing is left open and the run failed if and only if some marketplace did. |
| SyncProgress.ExceptionClosesAll | src/web_admin/catalog_sync_manager.py:183-184 | An exception leaves nothing open, even with repetitions. |
| SyncProgress.LaterEntryStaysPending | src/web_admin/catalog_sync_manager.py:202-208 | The later entry of a repeated marketplace stays pending through every run without an exception. |
| SyncProgress.NoneOpenIff | src/web_admin/catalog_sync_manager.py:164-233 | Finished runs leave nothing open in all cases, if and only if no marketplace is listed twice. |
| JsonBlock.Extracted | src/ai/utils.py:27-50 | There is a result exactly if, past a fence's first line, an opening brace has a closing one after it; it is the widest such slice. |
| JsonBlock.ExtractedSlice | src/ai/utils.py:42-50 | A result is a contiguous slice of the answer from an opening to a closing brace. |
| JsonBlock.ExtractTwice | src/ai/utils.py:14-50 | Extracting from a result gives it back. |
| JsonBlock.RecoveredFromProse | src/ai/utils.py:42-46 | In unfenced text an object is recovered if and only if no opening brace precedes and no closing one follows it. |
| JsonBlock.RecoveredFromFence | src/ai/utils.py:30-46 | In a fenced block, whatever its info string, an object is recovered under the same condition. |

## Left out

- Connections, reconnects, QoS and delivery order within a queue: any queued copy may be delivered next.
- How long a retry queue holds a message: any queued retry may expire at any time.
- Headers written by foreign producers: only messages from `publish` are in the queues, and a queued body may be unparseable.
- Hashes of texts and posts: a post is identified by ticket and body, as if hashing were injective; the Telegram handler's hash is arbitrary.
- Commits that took effect although they raised: a handler or cycle either committed or rolled back.
- Database errors inside a transaction, and rows the session has cached from earlier in it.
- Attachments, search texts and search vectors, timestamps of rows, log records.
- The text of replies and classifications by the model: arbitrary inputs; so is every Zendesk answer.
- A ticket's events from workers and web refreshes: inserts by others, which the polling theorems name as such.
- PollingRefinement.PollingIsOneScan: assumes complete, consistent snapshots and that tracked tickets are stored and observed when visited; a cut-short stream is the subject of `ZendeskPaging.CutShortIsPrefix`.
- Waiting on row locks: a handler inserting a key held by another open transaction takes its step later.
- PolledJobs.CommentJobs: assumes that the snapshot shows a comment in one version only, and nobody writing meanwhile; counts over all runs are `PollingRuns.PublishCounts`.
- PolledJobs.ClosedJobs: assumes that the snapshot shows the ticket in one state only.
- RuleFilter.ServiceRulesOnlyAdd: both rule lists must compile, since a list that does not compile classifies nothing.
- Lower-casing and regular expressions: uninterpreted; Python's `strip` is modelled character by character.
- A Telegram post's duration: a send is recorded at the clock reading before it, as the code does; failed posts are not counted.
- Cancelled sync runs, and the per-marketplace lock's skipped outcome beyond its being a terminal status.
- ReplyPosting.FollowupsNeverFirst: assumes one clock that does not go back; the order of commits needs none (`ReplyLedger.FirstPostIsInitial`).
- The second clock reading of a cycle that sets both missing checkpoints: one reading serves both.
- Web admin pages, sessions and settings, prompts, migrations, full-text search and the agent-directive worker.
