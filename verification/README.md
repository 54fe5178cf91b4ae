# Message export service: a verified model

The service exports chat messages. A caller submits a list of channels and a time range; a worker
pages through a point-in-time snapshot of the search index, filters the messages, cuts them into
compressed parts in object storage, and records the outcome in two tables; the caller polls, and may
cancel. This project models that service in Dafny and proves what it promises. All properties are
stated for every input, every run or every reachable state.

## How the model is laid out

The **export pipeline** is sequential and kept in the form of the source: classes whose methods update
their fields, nested loops, cursors, counters and early returns.

- `Types`, `Store` - the rows, and each statement of the store as a function on two tables; the class
  `MySQLStore` performs them and adds the ways a call can end: acknowledged, performed but reported as
  an error, or not performed.
- `Payload`, `Sorting`, `Search`, `Rollover`, `Framing`, `Keys`, `TaskIds` - the pure pieces.
- `Export` - the specification, a few lines: sort the channels, take from each the first
  min(length, channel cap, remaining task budget) hits, keep their lines, cut them greedily into parts.
  `ExportProperties` proves what that specification guarantees.
- `Remote` - search index, object storage and task context as an adversary: any call may fail, the
  context may be cancelled between any two steps, and the index may even lie (`honest` is false).
- `Writer`, `Executor`, `Pipeline`, `Gate`, `Submit`, `Cancel`, `Poll` - the imperative code, proved
  against the specification functions.

The **task protocol** is concurrent and modelled as a transition system in `Protocol`: submitters, the
gate, the bounded queue, workers with the cancel registry, cancellers, pollers, the store and a shutdown.
One step is one atomic action of one goroutine; every store call may fail, with or without effect.
`Invariant` gathers everything known about one task in a view and says once, per program point, what may
be true of it. `TaskSteps` and `SystemSteps` show that every step keeps it. `Safety` draws the
conclusions over runs, `Cancellation` says exactly what a cancel may answer and when its status lasts,
`Draining` shows that the system comes to rest and what rest means, and `Witness` builds runs that show
which comforting statements are false. A call under a context that is done does not start: that is how
the database, search and storage clients treat the context they are handed.

`Service` puts both halves together, `Simulation` shows that the imperative worker, submission, cancel and
poll agree with those of the protocol whichever of their calls fail, `Boundaries` says how many parts there are and when a channel is split
or the byte limit passed, `Promises` when rows come in the promised order and each message comes once, and
`Cleanup` what the deletion that follows a cancel leaves behind.

JSON marshalling, gzip with its inverse, SHA-256 and link signing are parameters. Lossless compression
and newline-free JSON lines are assumptions only where a download is decoded.

## Where code and documents disagree

The model follows the code.

- `UpdateStatus` and `Finalize` do not look at the status they replace, so `cancelled` does not absorb,
  against the status machine in the service's API document. `Safety.TerminalLeftIff` gives the exact writes,
  `Cancellation.WindowOverRuns` when over a run they can happen, `Cancellation.CancelFailsIff` the exact program
  points, `Witness.CancelledCanBePublished` a run.
- A cancel may answer `running`, against the comment at internal/store/mysql.go:26-27:
  the conditional update and the read after it are two statements. `Cancellation.RereadTellsRunningIff`
  gives the exact condition, `Witness.CancelTellsRunning` a run.
- A channel may span several parts, which the API document rules out; a part never mixes channels.
  `Boundaries.ChannelsWholeIff` gives the exact condition, `Boundaries.ChannelSpansParts` an input.
- A part may exceed the byte limit, by less than one line; the API document gives the limit as strict.
  `Boundaries.WithinLimitIff` gives the exact condition, `Boundaries.PartPassesLimit` an input.
- The rows of a part are ordered by (messageId, subSeq), not by message_seq as the API document says.
  `Promises.RowsBySeqIff` gives the exact condition part by part, `Promises.EveryLimitBySeqIff` the one that can
  be told from the snapshot, `Promises.RowsNotBySeq` an input.
- A channel requested twice is counted twice and exported twice. `Promises.TakenOnceIff` gives the exact
  condition, `Promises.AskedTwice` an input.
- `actual_seen` of a warning is the cap, because reading stops there; the API document says it is the number of
  hits before truncation. `Promises.WarningsUnderreport` shows that every warning there is falls short of it.
- The time prefix of a task id holds 40 bits and wraps about every 34.8 years; the comment at
  internal/submit/submit.go:175 says it lasts until 2100.
- The estimate that `Submit` puts into the row is not stored: the insert writes the literal 0.

## Model

| member | source | states |
|---|---|---|
| Store.MySQLStore.Create | internal/store/mysql.go:68-92 | a new row is stored with count 0 whatever estimate came in; an existing id is an error and changes nothing; an error report may hide a performed insert |
| Store.MySQLStore.Get | internal/store/mysql.go:94-105 | an acknowledged read returns the row, or nothing exactly when there is none |
| Store.MySQLStore.UpdateStatus | internal/store/mysql.go:143-151 | writes the status of any existing row, whatever it was, and nothing else |
| Store.MySQLStore.Finalize | internal/store/mysql.go:153-171 | writes the five result columns of any existing row, terminal or not, and nothing else |
| Store.MySQLStore.AppendPart | internal/store/mysql.go:173-191 | upserts one row of the parts table under its number |
| Store.MySQLStore.GetParts | internal/store/mysql.go:193-218 | returns all rows of the task in part_seq order |
| Store.MySQLStore.CancelCAS | internal/store/mysql.go:220-239 | an update that switches exactly a queued or running row, and is a switch to the caller exactly when acknowledged; when it hits no row, a separate read that tells the status the row has by then, terminal or not |
| Store.SwitchMeaning | internal/store/mysql.go:222-225 | the switch changes a row if and only if it is the named one and queued or running, and then its status and nothing else |
| Store.UpsertMeaning | internal/store/mysql.go:178-187 | after an upsert the index is ascending, the number holds the new row, every other number its old one |
| Store.UpsertIdempotent | internal/store/mysql.go:178-187 | repeating an append changes nothing |
| Store.UpsertAllDense | internal/store/mysql.go:173-196 | appending parts 0, 1, 2, ... one by one to a task without parts stores exactly that list |
| Rollover.SplitIsGreedy | internal/result/writer.go:121-135 | the rollover cuts the lines written into a greedy partition: non-empty parts, all but the last full, none full before its last line; together exactly the lines written |
| Rollover.GreedyIsUnique | internal/result/writer.go:130-135 | a greedy partition of given lines is unique, so the previous row fixes every part boundary |
| Rollover.PartSize | internal/result/writer.go:127-131 | a part has at most max(1, maxRows) rows, fewer than maxByte bytes before its last line, and so exceeds maxByte by less than one line |
| Rollover.FullParts | internal/result/writer.go:130-135 | in one channel visit at most one part is short of both limits |
| Rollover.OnePartIff | internal/result/writer.go:130-135 | a visit yields at most one part if and only if its lines without the last reach neither limit |
| Rollover.WithinBytesIff | internal/result/writer.go:124-131 | no part of a visit passes the byte limit if and only if every line fits into the room the byte counter leaves when it is written |
| Framing.RawLength | internal/result/writer.go:119-128 | the byte counter equals the decompressed size of the part |
| Framing.LineFeeds | internal/result/writer.go:119 | each line is followed by exactly one byte 10 |
| Framing.DecodeLines | internal/result/writer.go:199-205 | the splitting loop yields the non-empty pieces between newlines |
| Framing.PiecesOfRaw | internal/result/writer.go:108-128 | splitting a part's bytes on newline gives back exactly its lines, in order (JSON lines hold no raw newline, section 7 of RFC 8259) |
| Keys.KeyIsolation | internal/result/s3.go:74-92 | for slash-free segments a task prefix covers a part key exactly when day, caller and id are those of the part, under any environment prefix |
| Keys.KeyInjective | internal/result/s3.go:74-86 | different part numbers give different keys, also past 999 |
| Keys.KeyLayout | internal/result/s3.go:74-86 | cut at its slashes, a part key is the pieces of the trimmed environment prefix, if there is one, then root, day, caller, task and file name |
| Keys.TrimMeaning | internal/result/s3.go:80-86 | of the environment prefix exactly the slashes at both ends are dropped |
| Keys.PaddedDigits | internal/result/s3.go:74-76 | the number in a file name reads back, with three digits below 1000 and no leading zero from there on |
| TaskIds.NewTaskID | internal/submit/submit.go:172-187 | the two loops produce the prefix, 8 time digits and 16 random digits |
| TaskIds.IdShape | internal/submit/submit.go:167-187 | an id is `ost_` and 24 digits or capital letters without I, L, O and U, the first eight of which read back as the time modulo 2^40 |
| TaskIds.PrefixRoundTrip | internal/submit/submit.go:174-179 | the time digits read back as the milliseconds modulo 2^40 |
| TaskIds.PrefixOrder | internal/submit/submit.go:174-179 | prefixes sort by time exactly as far as both times lie in one window of 2^40 ms |
| TaskIds.PrefixWraps | internal/submit/submit.go:175 | at the end of every window (about 34.8 years) the next millisecond sorts before the last |
| Payload.ExtractPayload | internal/result/payload.go:20-62 | keeps exactly types 1 and 14; which text is exported, and when the raw payload stands in |
| Payload.PayloadForms | internal/result/payload.go:20-62 | for every text, the payloads spelled out field by field under which it is exported, and forms that are skipped |
| Export.LineFields | internal/result/writer.go:103-118 | a message without text has no line; any other has the line with its sequence number, sender, channel, time and text each in the field of that name, if that marshals |
| Sorting.SortSorted | internal/executor/executor.go:213-217 | channels are visited in ascending order |
| Sorting.LeqMeaning | internal/executor/executor.go:217 | the order is that of a prefix before its extensions, and else of the first character that differs |
| Sorting.SortIgnoresOrder | internal/executor/executor.go:213-217 | the visiting order depends only on which channels were asked for, and how often |
| Search.SelectMeaning | internal/osclient/osclient.go:104-116 | a hit is selected if and only if it is that of a document which is not virtual, has the channel id asked for, and a timestamp in the range, both ends included |
| Search.SnapshotMeaning | internal/osclient/osclient.go:202-205 | a snapshot is ordered, column by column, from the highest message id down and within one id from the highest sub-sequence number down, and the sort values are these two columns |
| Search.SelectDescending | internal/osclient/osclient.go:197-206 | the hits of a query come strictly descending by (messageId, subSeq) |
| Search.PagingHasNoGap | internal/osclient/osclient.go:202-210 | pages fetched by following the last sort value are, together, a prefix of the hits without gap or repeat, and all of them once a page is short |
| Remote.Services.Search | internal/osclient/osclient.go:197-229 | a page request fails or, against an honest index, answers the page after the cursor; one begun under a cancelled context is counted as late |
| Writer.PartWriter.Flush | internal/result/writer.go:140-174 | uploads the open lines as the next part under a fresh key and records it; an empty buffer leaves no part |
| Writer.PartWriter.StartChannel | internal/result/writer.go:90-98 | closes the part of the previous channel, so that no part mixes channels |
| Writer.PartWriter.Write | internal/result/writer.go:102-137 | adds the message's line to the open part and rolls over when either limit is reached; a skipped message changes nothing |
| Writer.PartWriter.Finish | internal/result/writer.go:177-186 | returns the metadata of all parts and the number of their rows |
| Executor.Worker.Enqueue | internal/executor/executor.go:76-84 | appends to the queue unless it is full |
| Executor.Worker.CancelTask | internal/executor/executor.go:89-96 | cancels the context registered for the task and no other |
| Executor.Worker.FetchPage | internal/executor/executor.go:269-286 | no search starts under a context found cancelled; the page is the one after the hits taken |
| Executor.Worker.WritePage | internal/executor/executor.go:290-312 | hits are written in order until the task cap or the channel cap stops in front of a hit; neither cap is exceeded |
| Executor.Worker.TakePage | internal/executor/executor.go:287-316 | a page is taken whole or ends the channel, and then with the hits and flags of the specification |
| Executor.Worker.DrainChannel | internal/executor/executor.go:265-318 | against any index it ends after at most min(cap, budget) / pageSize + 1 searches within both caps; against an honest one it takes exactly the first min(length, cap, budget) hits, with exact truncation flags, in exactly seen / pageSize + 1 searches |
| Pipeline.Runner.VisitChannel | internal/executor/executor.go:220-244 | one turn of the channel loop writes the lines of the specified visit and reports its warning with the specified numbers; under a context already done it fails before anything is uploaded |
| Pipeline.Runner.VisitChannels | internal/executor/executor.go:219-245 | the loop makes the visits of the specification, in order, up to a total cut |
| Pipeline.Runner.StoreParts | internal/executor/executor.go:251-255 | stores the parts one by one up to the first write that reports an error; the tables hold exactly those performed, one reported as failed but performed included |
| Pipeline.Runner.Run | internal/executor/executor.go:196-261 | the run fails exactly when a call failed or a context check stopped it, and a run stopped before its part rows writes none; otherwise it stores the part rows of the specification as far as the writes go, and returns exactly its plan when all went, with every object uploaded; no search starts before one point in time is open |
| Pipeline.Runner.Process | internal/executor/executor.go:140-193 | on every path the task is unregistered, one slot given back and no other task touched; and for every way its store calls can end, what becomes of the row: untouched unless an open row was read; marked failed when the mark reports an error; else the verdict, which is a success exactly when nothing stopped the run, `cancelled` exactly when something did and the context is done, and `internal_error` otherwise, and is in the row unless that last write was not performed |
| Simulation.ProcessExports | internal/executor/executor.go:158-178 | a process with nothing failing leaves exactly the tables of an export: marked, all parts of the specified plan stored, concluded |
| ExportProperties.CompletedIffNothingDropped | internal/executor/executor.go:257-260 | a successful run is completed exactly when the caps dropped no hit, and partial otherwise |
| ExportProperties.TotalCutEndsRun | internal/executor/executor.go:238-244 | total_truncated occurs at most once, on the last channel visited, and only it leaves channels unvisited |
| ExportProperties.WarningNumbers | internal/executor/executor.go:232-243 | actual_seen of a warning is the cap that caused it |
| ExportProperties.TruncationExact | internal/executor/executor.go:219-245 | both of the above for a whole run |
| ExportProperties.AdmissionMakesTotalCapDead | internal/submit/submit.go:82-98 | if the snapshot has the counts that admission summed, duplicates included, the total cap never fires and the run completes exactly when every channel is within its cap |
| ExportProperties.RequestOrderIrrelevant | internal/executor/executor.go:213-220 | permuting the requested channels changes neither rows, part boundaries, warnings nor counts |
| ExportProperties.PartsInOrder | internal/store/mysql.go:194-196 | parts come in non-decreasing channel order, none empty, each holding consecutive hits of one channel, strictly descending by (messageId, subSeq) |
| ExportProperties.PartsConserveLines | internal/executor/executor.go:219-250 | the lines of all parts in order are the lines of the hits taken: none lost, repeated or moved |
| ExportProperties.PlanWellFormed | internal/result/writer.go:177-186 | parts are numbered from 0 without a gap and the reported count is the number of exported lines |
| ExportProperties.DownloadIsExport | internal/result/writer.go:149-170 | a client that fetches, decompresses and splits the parts reads exactly the lines of the capped, filtered channel prefixes |
| ExportProperties.PartsDescribeObjects | internal/result/writer.go:149-170 | size, checksum, message count and channel of every part are those of the object stored under its key |
| Promises.DownloadTells | internal/result/writer.go:102-170 | line by line, what a client downloads holds sequence number, sender, channel, time and text of each exported hit in its field, and each is the hit of a non-virtual document of a requested channel in the requested range |
| Boundaries.PartCount | internal/result/writer.go:121-174 | parts of a run <= channel visits that export anything + count / maxRows + bytes / maxByte |
| Boundaries.ChannelsWholeIff | internal/result/writer.go:130-135 | no channel of a run spans parts if and only if the lines of every visit fit into one part and no channel is exported by two visits |
| Boundaries.ChannelSpansParts | internal/result/writer.go:131-135 | an input whose one channel has two parts, for every codec that exports its two messages |
| Boundaries.WithinLimitIff | internal/result/writer.go:127-131 | no part of a run passes the byte limit if and only if every line of every visit fits into what the counter leaves |
| Boundaries.PartPassesLimit | internal/result/writer.go:127-131 | for every JSON codec that exports two messages, a byte limit that their part passes |
| Promises.RowsBySeqIff | internal/osclient/osclient.go:202-206 | the rows of every part of a run fall by message_seq if and only if, within each part, of any two messages the one with the lower (messageId, subSeq) has the lower message_seq |
| Promises.EveryLimitBySeqIff | internal/osclient/osclient.go:202-206 | they do so under all part limits if and only if the exported hits of each channel visit agree in that way, which can be told from the snapshot |
| Promises.RowsNotBySeq | internal/osclient/osclient.go:202-206 | two messages whose part does not fall by message_seq, for every codec that exports both |
| Promises.TakenOnceIff | internal/executor/executor.go:213-220 | no message is taken twice in a run if and only if no channel gives hits to two visits |
| Promises.AskedTwice | internal/executor/executor.go:213-220 | a request that names its channel twice takes its messages twice |
| Promises.WarningsUnderreport | internal/executor/executor.go:232-243 | actual_seen of every warning of every run is less than the number of hits before truncation, of the channel or of the whole request |
| Cleanup.ExportOutlivesCleanupIff | internal/result/s3.go:143-161 | after a complete cleanup under a task prefix the objects of an export are all still there if and only if it has no parts or the prefix names another day, caller or task |
| Gate.Semaphore.Acquire | internal/executor/gate.go:25-46 | takes one of the free slots; refuses only when the caller has gone, or there is none and the call does not wait, or its timer has fired |
| Gate.Semaphore.Release | internal/executor/gate.go:49-54 | gives one slot back; on an empty gate it changes nothing |
| Submit.Submitter.CountAll | internal/submit/submit.go:82-90 | the sum of the per-channel counts, each occurrence of a channel counted |
| Submit.Submitter.Submit | internal/submit/submit.go:74-134 | refuses as its validation says, when a count fails, or as too large exactly when the counts pass the limit, all before anything is touched; then for want of a slot only when the gate refused; whatever other parties do between its acquire, create and enqueue, an accepted task holds one more slot, a row inserted under a new id and the last place in the queue, and every refusal gives the slot back; undisturbed, the tables are exactly those of the writes it made, and the queue turns nothing away while it has room |
| Submit.ValidateMeaning | internal/submit/submit.go:137-169 | which requests pass, and which of the three reasons the others are given: one to thirty named channels, a range in seconds whose ends are in order and at most 31 days apart |
| Cancel.Canceller.Cancel | internal/cancel/cancel.go:55-100 | with other parties between any two steps: answers cancelled after an acknowledged switch, else the status found terminal at first, else whatever the row has at the last read; only an acknowledged switch signals, and only the context registered at that moment; a terminal row is left alone; other callers' tasks look absent; with nobody interfering, an open task of the caller's is switched, signalled and answered cancelled unless a call failed |
| Poll.Handler.Render | internal/handler/handler.go:140-150 | one answer per part, in order, with a link to the part's own object; fails at the first link that cannot be signed |
| Poll.Handler.HandleGet | internal/handler/handler.go:116-167 | the owner sees the status, the count and parts of a published task only, the error of a failed one only; the row is as first read, the parts as last read, with other parties writing in between; others see no task |
| TaskSteps.WorkViews | internal/executor/executor.go:140-193 | a worker's step changes one task only and keeps what is known of every task at every program point |
| TaskSteps.Raised | internal/cancel/cancel.go:80-83 | contexts may be cancelled at every point of a task's life, and after the switch a signal that cancelled the worker's context, or found no entry to cancel, keeps what is known of the task |
| SystemSteps.RowStays | internal/store/mysql.go:143-239 | rows and parts change only by the named writes of workers, rejecting submitters and cancels; no row disappears |
| SystemSteps.InvStep | internal/executor/executor.go:127-193 | every step of every party keeps the invariant that ties gate, queue, program points, registry, marks and rows together |
| SystemSteps.InvOverRuns | internal/executor/executor.go:127-193 | the invariant holds in every state of every run |
| Safety.ReleaseNeverEmpty | internal/executor/gate.go:49-54 | every release in the system finds a token: the default branch is dead |
| Safety.SlotConservation | internal/executor/gate.go:25-54 | at every point of every run: slots taken = slots given back + gate; gate = submitters holding one + queue + busy workers <= capacity |
| Safety.SlotReturnedOnce | internal/executor/executor.go:140-193 | in every run a worker has given the slot of a task back once if the task is over and never otherwise, on whatever path it left |
| Safety.ReadBeforeSwitch | internal/executor/executor.go:148-156 | a worker goes on after its read exactly when the read succeeded and no cancel had switched the row |
| Safety.TerminalLeftIff | internal/store/mysql.go:143-171 | a terminal status is left by a step if and only if it is cancelled, and then by a cancel's conditional update, and the step is a worker's mark or failure mark that its context does not stop, its final write of another status, or the write of a submitter turned away by the queue |
| Safety.FinalForever | internal/store/mysql.go:153-171 | completed, partial and failed are never left in any run, and row and parts stay as they are |
| Safety.SettledForever | internal/executor/executor.go:145-156 | a terminal row nobody is between reading and writing is frozen for the rest of the run |
| Safety.LeftMeansSettled | internal/executor/executor.go:150-180 | once the worker has left a task whose read (of an open row) and last write succeeded, the status is terminal and frozen |
| Safety.PublicationSafety | internal/handler/handler.go:116-155 | in every reachable state a published task has all parts of a run for its own request, numbered from 0, with the right count and warnings, and so has every answer a poll assembled from its two reads |
| Safety.CancelNeverLost | internal/executor/executor.go:145-156 | in every reachable state a cancel that switched and signalled will be read, or has cancelled the worker's context, or has no worker left; at most one search per task starts under a cancelled context |
| Safety.NoticedActs | internal/executor/executor.go:148-174 | what the noticed cancel does to the worker's next step, however its call turns out: skip, fail every call under the task's context, or turn a failure into cancelled |
| Safety.FirstInFirstOut | internal/executor/executor.go:76-84 | in every run the ids enqueued are the ids taken followed by the queue |
| Safety.EnqueuedOnce | internal/submit/submit.go:108-121 | no id is enqueued twice, and every enqueued id is in the store |
| Safety.QueueNeverFull | internal/submit/submit.go:101-130 | with a queue not smaller than the gate no submitter is ever turned away by the queue |
| Safety.CancelIsIdempotent | internal/cancel/cancel.go:55-78 | a cancel arriving once the task is terminal and outside the window never switches or signals, and answers the owner with the one status the row keeps |
| Safety.OwnersOnly | internal/handler/handler.go:121-125 | in every reachable state, rows shown to polls and statuses told to cancels are of tasks of the caller who asked, and parts are shown exactly of published rows |
| Safety.ScopeForever | internal/store/mysql.go:143-171 | caller, channels and range of a row never change in any run |
| Safety.AsSubmitted | internal/submit/submit.go:109-119 | from its insert on a row asks for what its submitter held, whatever runs in between |
| Safety.WorkersStay | internal/executor/executor.go:113-137 | in every run the number of workers stays, and one exits only after a shutdown |
| Cancellation.AnswersAre | internal/cancel/cancel.go:72-78 | in every reachable state an answer names a terminal status, or running for a task that some cancel has switched |
| Cancellation.RereadTellsRunningIff | internal/store/mysql.go:230-238 | a cancel that lost the race to switch answers a status that is not terminal if and only if, between its update and its read, a worker marked the task running over another cancel's switch and no step after that wrote it a verdict, a failure mark or another switch |
| Cancellation.WindowOverRuns | internal/store/mysql.go:143-171 | in every run a worker's write that replaces a terminal status replaces a cancelled that some conditional update wrote between that worker's read and this write, with the task in its hands all the time |
| Cancellation.CancelFailsIff | internal/executor/executor.go:158-178 | over every continuation, for an accepted task that is cancelled, told so or not, signalled or not: whether it can still be published, and whether it can lose its cancelled at all, is told exactly by the point where its worker stands, whether that worker's context is done and whether the system is shutting down |
| Draining.InternalSmaller | internal/executor/executor.go:127-193 | every step the system takes by itself makes a well-founded measure smaller, however its calls turn out |
| Draining.DrainingTerminates | internal/executor/executor.go:265-318 | without new requests no infinite run exists, from any state |
| Draining.RestIsDrained | internal/executor/executor.go:127-193 | at rest with a live worker: gate 0, queue and registry empty, every accepted task processed, terminal and frozen unless its worker's read of an open row or last write failed |
| Draining.NoFailureNoOrphan | internal/executor/executor.go:148-180 | if all calls of the workers succeed and nothing shuts them down, no task is left without a last word |
| Draining.RestAfterShutdown | internal/executor/executor.go:127-137 | after a shutdown only tasks left in the queue hold slots |
| Witness.CancelledCanBePublished | internal/executor/executor.go:162-180 | under every configuration some run tells the owner the task is cancelled, signals its worker, and publishes it all the same, because all parts were stored by then |
| Witness.CancelTellsRunning | internal/store/mysql.go:230-238 | under every configuration some run answers a cancel with running |
| Witness.QueueFillsIff | internal/submit/submit.go:121-130 | some run turns a submitter away at the queue if and only if the queue is smaller than the gate |
| Witness.CancelledCanFail | internal/submit/submit.go:121-133 | with such a queue a cancel can be answered cancelled and the row end up failed; the id is that of a submission not answered yet, so its caller has not been given it |
| Service.ServiceConfigOk | internal/executor/executor.go:196-261 | the plans of the specification meet what the protocol assumes of a run |
| Service.PollsShowExports | internal/handler/handler.go:132-155 | end to end: whatever runs in between, the parts shown to a poll are the export its row asks for, read from one point in time, with the right count, warnings and status; from any bucket that holds their objects they download to its lines |
| Simulation.WorkerExports | internal/executor/executor.go:140-193 | a protocol worker nobody disturbs ends idle with slot and registry entry returned and the tables of an export of its plan |
| Simulation.WorkerRuns | internal/executor/executor.go:158-178 | a protocol worker whose part writes, last write and context turn out in any given way ends idle with exactly the corresponding parts stored and verdict written |
| Simulation.ProcessIsARun | internal/executor/executor.go:140-193 | whatever fails, every outcome of the imperative process against an honest index is the outcome of a protocol run from the same state: same rows and parts, gate and registry; only the words about a run that stopped may differ |
| Simulation.SubmitterEnds | internal/submit/submit.go:101-134 | a submitter of the protocol that is given a slot, and whose writes turn out in any given way, answers, and leaves gate, queue and rows, as the imperative submission promises for these ways |
| Simulation.SubmitIsARun | internal/submit/submit.go:93-134 | a submission that asks for a slot with nobody interfering, accepted or not and whichever calls fail, is a run of a submitter to the same answer, gate, queue and rows |
| Simulation.CancellerEnds | internal/cancel/cancel.go:55-100 | a canceller of the protocol nobody overtakes, whatever becomes of its calls, answers as the imperative cancel does, leaves the same rows, and after a switch has signalled the registered context |
| Simulation.CancelIsARun | internal/cancel/cancel.go:55-100 | a cancel with nobody interfering, whichever calls fail, is a run of that canceller to the same answer, rows and registry, with the same context cancelled |
| Simulation.PollIsARun | internal/handler/handler.go:116-167 | a poll with nobody interfering, whichever reads fail, is a run of a poller, and sends exactly what that poller is shown |
| Simulation.AcceptedJob | internal/submit/submit.go:108-119 | the inserted row asks the worker for the caller, channels and range of the request, is queued and empty whatever the estimate, and no other row changes |
| Simulation.VerdictShown | internal/handler/handler.go:132-163 | what a poll sends once a verdict is in the row: code and message of a failure, count and warnings of a success, neither for a cancelled task |

## Left out

- Pipeline.Runner.Run: the text of a stopped run's error message is pinned as one of six, not to the call that stopped it; that a failure carries no messages and warnings is.
- Pipeline.Runner.VisitChannel: on a failure its message is pinned as one of the same six.
- Pipeline.Runner.Process: against an index that lies, promises nothing about which parts and messages a success counts.
- Gate.Semaphore.Acquire: does not model the passing of time; a wait that is served later is a later call.
- Service.PollsShowExports: does not promise that the objects are in the bucket. `Pipeline.Runner.Run` puts them there, but the bucket is not part of the protocol's state, and a cancel that switched the row deletes the objects under its prefix: a task cancelled and published all the same (`Witness.CancelledCanBePublished`) keeps its row and loses them, exactly as `Cleanup.ExportOutlivesCleanupIff` says.
- Remote.Services.Upload: multipart upload, checksums and retries are inside one call that may fail.
- HTTP routing, authentication, request ids, health checks and JSON encoding of responses: plumbing around the modelled handlers.
- Metrics and audit events: write-only.
- Configuration, migrations, connection handling and the sleeps of the shutdown sequence: the model has one step that cancels the parent context.
- `ListStuck`, `ListExpired`, `Delete` and expiry: no running code calls them.
- `DeletePrefix` on cancel: its errors are ignored by the code, and it deletes what one listing returns, which the storage service may cut short; `Cleanup` describes one that ran to its end.
- `ClosePIT`: its result is ignored by the code and nothing depends on it.
- Clock columns of the rows, and the day in a part key beyond its being a parameter.
- Widths of integers: counts and sizes are unbounded, except where a payload type is read from a number literal.
- Strings are sequences of characters, compared character by character; the source compares bytes, which is the same order for valid UTF-8.
- The loop bodies of `drainChannel`, `run` and `process` are split into methods of their own so that each can carry its contract.
- The buffered writer's buffer is a value replaced on every write rather than an object of its own.
- In `Protocol` a write takes effect at its own step or not at all. A statement in flight when its context ends may still be executed by the server afterwards, even after the worker's last write; such a late write is not modelled, and `Safety.FinalForever` and `Safety.SettledForever` rest on its absence.
- In `Protocol` a run's page and part writing is one program point per search and per stored part row; that the work between them produces the plan is the contract of `Pipeline.Runner.Run`, and `Simulation` ties process, submission, cancel and poll to their protocol steps under every failure of their own calls, but only while no other party changes rows, gate, queue or registry in between.
