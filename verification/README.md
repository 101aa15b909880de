# Streaming server: verified models

Dafny models of the algorithms and protocols at the heart of the streaming server, and proofs about
them. One module stands for one component:

- `Ints`: 32-bit integers. `Options`: optional values.
- `Schedule`, `ScheduleCases`: the scheduled playlist. Which item plays now, until when, the programme
  chained out of those answers, and the timer armed from it.
- `StatsModel`, `StatsLaw`, `StatsRun`: the statistics post-processor. `StatsModel` folds events on values;
  `StatsLaw` says by positions in the log what is pending and which rows are written, and the fold agrees;
  `StatsRun` has the objects (database connection, per-server statistics, processor) with transactions,
  roll-backs and checkpoints, and is proved to refine one uninterrupted pass over the log.
- `TimeShift`, `TimeShiftLaw`, `TimeShiftCases`: rotating buffers, clients parked in them and handed from one
  to the next. `TimeShiftLaw` says of the steps of a run what is taken in and sent.
- `FeatureTypes`, `Alignment`, `TopK`, `FeatureCodec`, `FeatureMatch`: the alignment distance in its flat
  array, the bounded extreme-value arrays, the binary format, and the matching of picture sequences.
- `TimeRange`: playing a time range out of files.
- `HoleFill`: filling the holes of a remote recording from local files.
- `Flavours`: flavours, their upstream sources and their clients.
- `PartGrouping`: grouping part files into media files.

Code that updates fields or arrays is modelled by methods, each proved against a specification function
or relation; the theorems are about those. Every lemma turns automatic induction off, so that each proof is
the recursion that is written out. `dafny verify dfyconfig.toml` checks everything.

## What the code does differently from what it seems to promise

Each with its exact condition and a concrete input.

- The documentation of the schedule says that the reported end is after now; it can be now
  (`Schedule.EndIsNowExactly`, `ScheduleCases.EndIsNowHappens`). The switch time can depend on the order
  of a hash map (`Schedule.SwitchOrderIndependence`, `ScheduleCases.SwitchDependsOnOrder`), and the playing
  id is kept in 32 bits, so another item can play (`Schedule.PlaysChosenExactly`,
  `ScheduleCases.WrongItemPlays`).
- A statistics event with no part set is dated by the clock, so replaying it after a roll-back may write
  another row (`StatsModel.ClockFreeExactly`, `StatsModel.RestartWithoutDate`). A batch whose checkpoint
  did not follow its commit, or whose commit was carried out while its answer was lost, is written twice
  (`StatsRun.Supervise`, `StatsRun.NoRepeatsExactly`).
- A client of the time-shift buffer that was sent the end of the stream plays on once it resumes, and until
  then is sent the end of the stream again and again (`TimeShift.OnlyResumingRevives`,
  `TimeShift.EosRepeatsExactly`, `TimeShiftCases.MediaAfterEos`); while it is there nothing is evicted
  (`TimeShift.LazyClientHoldsBuffers`).
- A client that asks for a delay is to start on a key frame, but at the end of a passive buffer it is handed
  to the first tag of the next one, whatever that is (`TimeShift.FirstTagIsKeyExactly`,
  `TimeShiftCases.FirstTagIsPlain`).
- The penalty is added inside the absolute value in column 0 (`Alignment.ColumnZeroExactly`); the distance
  is therefore not symmetric in general (`Alignment.DistanceNotSymmetric`).
- The two thresholds of a feature let through more coefficients than fit as soon as there are more than half
  its size on both sides of 0, and the last in order, however extreme, are dropped (`TopK.SelectedExactly`,
  `TopK.BothSidesLose`, `TopK.HighestAreLost`).
- The area of a feature is a 32-bit product, so a large square may have none
  (`FeatureTypes.FeatureData.AreaIsSameSign`, `FeatureTypes.AreaCanWrap`).
- A feature set writes its count in 32 bits (`FeatureCodec.SetRoundTripExactly`,
  `FeatureCodec.NoneIsLoaded`). A feature asks for 24 bytes before it reads a header of 28
  (`FeatureCodec.TruncatedData`), and a set that has not fully arrived loses its size field
  (`FeatureCodec.TruncatedSet`).
- `Seek` in a time range subtracts neither the gaps between files nor the one before the first file
  (`TimeRange.SeekInstantExactly`, `TimeRange.SeekSkipsGap`, `TimeRange.SeekIntoFirstGap`), and the tags of
  a first file behind a gap go out early by it (`TimeRange.TagTimeExactly`). A range inside one file that
  begins in the gap before it is played past its end (`TimeRange.PlaysTheRange`,
  `TimeRange.OvershootHappens`). `GetAllTimeSpans` never reports the last span, nor one that begins at 0
  (`TimeRange.AllButLastSpan`, `TimeRange.SpanAtZeroIsLost`).
- A nested remote file can make a recorded time look like a hole (`HoleFill.HolesAreUnrecordedExactly`,
  `HoleFill.NestedFileIsHole`).
- A composition that runs out of files is named as ending where its last part begins
  (`PartGrouping.OutputEndsExactly`, `PartGrouping.OldPartCoversNothing`).

## Assumptions

- Schedule: `PrevHappening` and `NextFutureHappening` are the latest start at or before and the earliest
  start after an instant; durations are between one second and the longest event, which is 365 times 86000
  seconds as in the code; an item without a duration lasts 20 seconds as in the code, where the header says
  a year; no item has the id -1. The run of calls in `AlwaysOnProgramme` is that of the timer; an end of stream
  in between is a call of its own.
- Statistics: a checkpoint exists before the first run; a failed row save loses the connection, so its
  transaction never commits, while a commit that fails may have been carried out. Success or failure of
  every SQL and file operation is arbitrary, and so is the clock. Closing all statistics after the
  connection is lost goes on to the next row in the model, where the code would use a query that is gone;
  in both nothing is committed, as when the process is killed inside a transaction.
- Time shift: steps are atomic; the stream time of a tag is a parameter, and for `TimesExactly` none is -1,
  which the code keeps for a time not set; the buffer size is not negative; a request is added once while it
  is there.
- Features: real numbers for doubles, without rounding. In the codec a double is an opaque value of eight
  bytes.
- Time range: the upstream element plays a file from the origin for as long as the limit says; files are
  disjoint and ascending; the unseen index look-up returns the first file that ends
  after the start; refreshed listings extend the old one.
- Hole filling: times are whole seconds, as in the file names; local files are sorted by begin.
- Flavours: paths are joined by one slash; a 32-bit mask is the set of its bits; the deletion loop walks over a snapshot of the readers.
- Part grouping: the listing is sorted; the run theorems are about parsable, distinct, time-ordered names
  and an output length that is not negative.

## Model

| member | source | states |
|---|---|---|
| `Ints.Int32IsCongruent` | extra_library/schedule/schedule_policy.cc:540 | The 32-bit value fits and differs from the number by a multiple of 2^32. |
| `Schedule.ScheduleTiling` | extra_library/schedule/schedule_policy.cc:475-496 | For every playlist, start time and entry i >= 1: the entry is what plays 100 ms after the end of its predecessor; the predecessor ends at or before the switch to it, and at most 100 ms earlier; a default-media entry begins and switches exactly at that end; entries move forward in time. Ties on the start time included. |
| `Schedule.GoToNextNeverWaits` | extra_library/schedule/schedule_policy.cc:498-559 | The early return is unreachable, the timer delay is at least 100 ms, and the only CHECK that can fire is the look-up of the chosen id, exactly when its 32-bit truncation names no item. What is played is stated by PlaysChosenExactly. |
| `Schedule.PlaysChosenExactly` | extra_library/schedule/schedule_policy.cc:498-559 | When an item has to be switched to, the winner of the selection is kept as playing, from now on, and its own media is switched to at once, if and only if its id fits 32 bits. |
| `Schedule.MediaOfFirst` | extra_library/schedule/schedule_policy.cc:540-546 | The media looked up by an id is that of the first item with the id, so with distinct ids that of the item itself. |
| `Schedule.LeavesAloneExactly` | extra_library/schedule/schedule_policy.cc:521-548 | No media is switched to if and only if the chosen item is playing already or nothing is chosen, or, at the end of a stream, nothing is chosen and there is no default media; the default media is switched to exactly at such an end, and not at once. |
| `ScheduleCases.WrongItemPlays` | extra_library/schedule/schedule_policy.cc:498-559 | A valid playlist with the ids 5 and 0x1_0000_0005: the second is chosen, no CHECK fires and the media of the first is played. |
| `Schedule.GoToNextNeverAborts` | extra_library/schedule/schedule_policy.cc:498-559 | With ids that fit 32 bits no CHECK fires, and a non-empty playlist always has a next item. |
| `Schedule.CallTiming` | extra_library/schedule/schedule_policy.cc:498-559 | The next call is due at least 100 ms after this one, not before the end of what this one has chosen and at most 100 ms after it. |
| `Schedule.CallSetsAlarm` | extra_library/schedule/schedule_policy.cc:498-559 | A call sets the alarm for exactly that time. |
| `Schedule.CallKeepsChosen` | extra_library/schedule/schedule_policy.cc:498-559 | After a call the playing item is the one chosen, or the one before if nothing is to play. |
| `Schedule.TimerFollowsProgramme` | extra_library/schedule/schedule_policy.cc:475-559 | In a run of calls, each made by the alarm of the one before: from 100 ms after a call until the next one the item chosen is the one that is to play, except within 100 ms after its end. |
| `Schedule.AlwaysOnProgramme` | extra_library/schedule/schedule_policy.cc:475-559 | At any instant from the first call on, with ids that fit 32 bits, the playing item is the one that is to play, unless nothing was chosen or it is within 100 ms after a call or after the end of what was chosen. |
| `Schedule.WinnerStability` | extra_library/schedule/schedule_policy.cc:340-473 | From the query until the reported end the answer stays the same item, with the same begin and end. |
| `Schedule.EndIsTight` | extra_library/schedule/schedule_policy.cc:442-473 | One millisecond past the reported end another occurrence is playing, so the end is not merely a safe bound. |
| `Schedule.CurrentSpec` | extra_library/schedule/schedule_policy.cc:351-397 | begin <= switch <= now <= end; the chosen begin is the latest among occurrences in progress, the first of these in iteration order wins, and the switch is not before the end of any finished occurrence that began after it. |
| `Schedule.InProgressExactly` | extra_library/schedule/schedule_policy.cc:351-370 | An item is in progress exactly from its latest start on for as many seconds as it has, or for 20 if it has no duration, and not 31390000 seconds or more after its start. |
| `Schedule.SwitchIsLatest` | extra_library/schedule/schedule_policy.cc:371-386 | In any iteration order the switch time is exactly the latest of the chosen begin and the ends of the finished occurrences that started after all those in progress met before. |
| `Schedule.EndIsNowExactly` | extra_library/schedule/schedule_policy.cc:442-473 | The reported end is never before now, and it is now if and only if the winner ends now. |
| `ScheduleCases.EndIsNowHappens` | extra_library/schedule/schedule_policy.cc:351-397 | A single item of ten seconds, asked about at its last millisecond, is reported to end now. |
| `Schedule.BeginIsOrderFree` | extra_library/schedule/schedule_policy.cc:351-370 | Whether anything plays, and its begin, are the same for every iteration order of the map. |
| `Schedule.SwitchOrderIndependence` | extra_library/schedule/schedule_policy.cc:371-386 | All iteration orders report the order-free switch time if and only if no finished occurrence straddles the chosen begin. |
| `ScheduleCases.SwitchDependsOnOrder` | extra_library/schedule/schedule_policy.cc:371-386 | A valid playlist of two items with a straddler: its two orders report switch times ten seconds apart. |
| `Schedule.FutureSpec` | extra_library/schedule/schedule_policy.cc:399-441 | The reported future start is the first start of any item after now, within the horizon; otherwise the invalid id and the horizon itself. |
| `Schedule.StartedAfter` | extra_library/schedule/schedule_policy.cc:351-397 | An occurrence less than a second old keeps something playing that began no earlier than it. |
| `Schedule.HandOver` | extra_library/schedule/schedule_policy.cc:475-496 | 100 ms after an entry ends, the item then current was switched to at or after that end. |
| `Schedule.HandOverInSilence` | extra_library/schedule/schedule_policy.cc:371-397 | The case behind the tiling: nothing starts around the hand-over, the winner runs out and an older item resumes. |
| `Schedule.TieLeavesItsEnd` | extra_library/schedule/schedule_policy.cc:371-397 | On a tie of start times, the finished winner still raises the switch time of the other one. |
| `Schedule.LookupAdvances` | extra_library/schedule/schedule_policy.cc:475-496 | Each entry is looked up no earlier than the start of the programme and ends no earlier than its look-up. |
| `Schedule.SchedulePlaylistPolicy.constructor` | extra_library/schedule/schedule_policy.cc:28-69 | Keeps exactly the first item of each id. |
| `Schedule.KeptSpec` | extra_library/schedule/schedule_policy.cc:60-69 | The items kept have different ids, each stands in the playlist with no item of its id before it, and every id is kept. |
| `Schedule.SchedulePlaylistPolicy.GetCurrentItemAtTime` | extra_library/schedule/schedule_policy.cc:340-397 | The selection loop computes the specification fold about which the lemmas above are. |
| `Schedule.SchedulePlaylistPolicy.GetFutureItemAtTime` | extra_library/schedule/schedule_policy.cc:399-441 | Likewise for the next start. |
| `Schedule.SchedulePlaylistPolicy.GetItemAtTime` | extra_library/schedule/schedule_policy.cc:442-473 | Likewise for the combination of both. |
| `Schedule.SchedulePlaylistPolicy.GetScheduleAtTime` | extra_library/schedule/schedule_policy.cc:475-496 | The chained programme has the requested length and its entries are those of the tiling theorem. |
| `Schedule.SchedulePlaylistPolicy.GoToNext` | extra_library/schedule/schedule_policy.cc:498-559 | Outcome and whole new state are those of the specification about which the two GoToNext lemmas are. |
| `StatsRun.Supervise` | stats/stats_post_processor.cc:808-963 | Over any number of processes, each of which may be stopped, abort on a failed check, be killed inside a transaction or die between commit and checkpoint, each with its own number of polls, with any pattern of SQL failures, commits that are carried out while their answer is lost included, and any clock: the rows committed are those of one uninterrupted run up to the last checkpoint plus one extra copy of a batch for exactly every death before saving and every commit whose answer was lost; each batch starts at what its process had saved by then; no checkpoint revises an earlier one. |
| `StatsRun.Live` | stats/stats_post_processor.cc:808-963 | The same for one process: how it ended, what it left on disk, and the batches it committed without a checkpoint, one for each lost answer and one more if it died before saving. |
| `StatsRun.StatsPostProcessor.Run` | stats/stats_post_processor.cc:808-963 | At every head of the outer loop the disk is that of the uninterrupted run plus the batches committed without a checkpoint so far, one for each lost answer; if the process dies before saving, one more. |
| `StatsRun.StatsPostProcessor.Round` | stats/stats_post_processor.cc:856-955 | One round of the outer loop: connect, read, commit or roll back, checkpoint, with the disk after each of its endings; a lost answer always ends in a roll-back. |
| `StatsRun.StatsPostProcessor.CountedRound` | stats/stats_post_processor.cc:856-955 | One round adds a batch to those committed without a checkpoint exactly when the answer of its commit was lost or it died before saving. |
| `StatsRun.StatsPostProcessor.ProcessRecords` | stats/stats_post_processor.cc:870-923 | While the connection holds, memory and open transaction hold what the uninterrupted run makes of the records read; nothing is committed. |
| `StatsRun.StatsPostProcessor.NextRecord` | stats/stats_post_processor.cc:870-923 | The same for one record, undecodable ones included. |
| `StatsRun.StatsPostProcessor.Finish` | stats/stats_post_processor.cc:925-947 | Ends the transaction; on commit either the checkpoint follows or exactly the rows of the batch will be repeated, and they will also be after a failed commit that was carried out. |
| `StatsRun.StatsPostProcessor.AfterFailure` | stats/stats_post_processor.cc:925-947 | A failed commit that was not carried out leaves the disk alone; one that was leaves exactly the rows of the batch to be repeated. |
| `StatsRun.StatsPostProcessor.Checkpointed` | stats/stats_post_processor.cc:930-947 | A commit followed by a save repeats and loses nothing; one not followed by a save repeats exactly the rows of that batch. |
| `StatsRun.StatsPostProcessor.Load` | stats/stats_post_processor.cc:641-698 | Going back to the checkpoint puts the memory in step with the uninterrupted run, without touching the database. |
| `StatsRun.StatsPostProcessor.Save` | stats/stats_post_processor.cc:571-640 | The checkpoint holds the log position and lists every pending begin, or is unchanged on failure. |
| `StatsRun.StatsPostProcessor.AddStat` | stats/stats_post_processor.cc:481-512 | One event on the heap of server objects follows the model of the event as long as the connection holds, also when the server is created or erased. |
| `StatsRun.ServerStats.AddStat` | stats/stats_post_processor.cc:175-327 | The same for one server object. |
| `StatsRun.ServerStats.CompleteAllStats` | stats/stats_post_processor.cc:380-413 | A restarted instance writes one crash row for every recorded media begin and forgets all its begins. |
| `StatsRun.ServerStats.CompleteMediaStat` | stats/stats_post_processor.cc:354-379 | Writes the media row if the content is recorded; fails only if the connection is lost. |
| `StatsRun.Saver.Save` | stats/mysql_stats_saver_complete.cc:194-243 | A row joins the open transaction, or the connection and the transaction are gone. |
| `StatsRun.Saver.EndTransaction` | stats/mysql_stats_saver.cc:75-87 | Commits exactly the rows of the transaction; a commit that fails may have been carried out all the same, its answer lost; aborts exactly when there is no transaction. |
| `StatsRun.InitialCheckpoint` | stats/stats_post_processor.cc:571-640 | An empty checkpoint at the start of the log over an empty table is such a disk state. |
| `StatsRun.NoRepeatsExactly` | stats/stats_post_processor.cc:925-947 | No row is written twice if and only if no batch committed without a checkpoint had rows. |
| `StatsRun.BatchAdded` | stats/stats_post_processor.cc:925-947 | One more batch without a checkpoint starts at what is saved and adds exactly its rows. |
| `StatsRun.OnDiskWithoutClock` | stats/stats_post_processor.cc:808-963 | If every record is replayable where the run meets it, the disk is that of the uninterrupted run whatever the clock read. |
| `StatsRun.CommitSaved` | stats/stats_post_processor.cc:925-947 | Commit and checkpoint together: the disk equals the uninterrupted run at the new position. |
| `StatsRun.CommitUnsaved` | stats/stats_post_processor.cc:925-947 | Commit without checkpoint: the disk equals the uninterrupted run at the old position plus the rows of one batch. |
| `StatsRun.BatchRepeats` | stats/stats_post_processor.cc:808-963 | The rows up to a later position are the rows up to an earlier one plus the rows of the batch between. |
| `StatsRun.LogStep` | stats/stats_post_processor.cc:481-512 | A memory equal up to empty servers stays in step with the uninterrupted run under any record, at the time it is processed. |
| `StatsRun.AdvancedOne` | stats/stats_post_processor.cc:870-923 | One record inside a transaction keeps memory and transaction in step. |
| `StatsModel.CheckpointRoundTrip` | stats/stats_post_processor.cc:571-698 | Reloading any listing of the pending begins rebuilds exactly the servers that have something pending. |
| `StatsModel.LoadIsSilent` | stats/stats_post_processor.cc:686-695 | Reloading never fails and never writes a row. |
| `StatsModel.EventsRespectCore` | stats/stats_post_processor.cc:481-512 | States equal up to servers with nothing pending stay so and write the same rows under every later sequence of events, each at its own time. |
| `StatsModel.StepRespectsCore` | stats/stats_post_processor.cc:481-512 | The same for one event, with the same result. |
| `StatsModel.EmptyServerIsForgettable` | stats/stats_post_processor.cc:175-327 | An event does to an empty server what it does to a new one. |
| `StatsModel.ReplayableExactly` | stats/stats_post_processor.cc:176-221 | What an event writes is independent of the clock if and only if it is dated, or changes no known instance, or closes no recorded media begin. |
| `StatsModel.ClockFreeExactly` | stats/stats_post_processor.cc:176-221 | The rows of a run are independent of the clock if and only if every record is replayable where the run meets it. |
| `StatsModel.RestartWithoutDate` | stats/stats_post_processor.cc:176-221 | A log of two records whose rows depend on the clock. |
| `StatsModel.NewServerIsNeverErased` | stats/stats_post_processor.cc:481-512 | A server just created is never erased through the look-up that did not find it. |
| `StatsModel.KeyedStays` | stats/stats_post_processor.cc:175-327 | Every begin stays filed under its own id. |
| `StatsModel.ReloadOne` | stats/stats_post_processor.cc:686-695 | Re-adding one pending begin writes nothing and keeps what is already there. |
| `StatsModel.ListedIsPart` | stats/stats_post_processor.cc:571-640 | A begin that is pending is part of what has been reloaded once the whole listing is. |
| `StatsModel.RowsGrow` | stats/stats_post_processor.cc:870-923 | A longer run has written everything a shorter one has. |
| `StatsLaw.PendingExactly` | stats/stats_post_processor.cc:221-327 | After any part of a log a connection, stream or media begin is pending if and only if a record opened it and no later record of its server ended it, began another under its id, or came from another instance. |
| `StatsLaw.RowsExactly` | stats/stats_post_processor.cc:221-413 | One more record writes a row exactly once if it ends the open media begin of the row, by its media end or as the first record of another instance, and the content is recorded; otherwise not at all. |
| `StatsLaw.RowsAreCounted` | stats/stats_post_processor.cc:221-413 | Over a whole log every row has been written as often as there are records that end its begin in this way. |
| `StatsLaw.MediaEndWritesRow` | stats/stats_post_processor.cc:308-322 | A media end behind its begin, with neither ended, begun anew nor restarted in between, adds exactly the row of begin and end if the content is recorded and nothing otherwise; then the begin is pending no more. |
| `StatsLaw.RestartWritesRows` | stats/stats_post_processor.cc:380-413 | A record of another instance adds one crash row for every open media begin that is recorded, of the date of that record. |
| `StatsLaw.RestartEndsAll` | stats/stats_post_processor.cc:213-222 | Behind such a record nothing is open but what the record itself opens. |
| `StatsLaw.DateIs` | stats/stats_post_processor.cc:176-188 | An event is dated by its first part in the order of the code, and by the clock if it has none. |
| `StatsLaw.SucceedsExactly` | stats/stats_post_processor.cc:229-327 | An event succeeds if and only if it opens something or ends something pending of its own instance. |
| `StatsLaw.KnownExactly` | stats/stats_post_processor.cc:481-512 | After an event its server is known, as the instance of the event, if and only if the event failed or something is pending there; every other server is as it was. |
| `TimeShift.Delivery` | extra_library/time_shift/time_shift_element.cc:181-598 | In every run whose tags come in time: no check fails; the media tags a client is sent before end of stream are one contiguous, in-order slice of the tags taken in, each under the media info in force for it, at times that start at 0 and do not go back within one buffer; the request maps agree; only the last buffer is active; a client that is not paused is armed or has had everything (unless left in a closed buffer). |
| `TimeShift.EveryRun` | extra_library/time_shift/time_shift_element.cc:181-611 | A run goes on if and only if every tag it meets passes the two stream-time checks of the buffer that takes it, and then the invariant holds. |
| `TimeShift.StepKeeps` | extra_library/time_shift/time_shift_element.cc:181-611 | A step ends the process only if it is a tag that fails a stream-time check; every other step keeps the invariant, and PlayFinished always finds a next buffer. |
| `TimeShift.HistoryGrows` | extra_library/time_shift/time_shift_element.cc:379-393 | Nothing sent or taken in is revised, and a client keeps its first tag through every hand-over. |
| `TimeShiftLaw.TakenExactly` | extra_library/time_shift/time_shift_element.cc:197-230 | In every run the tags taken in are the media tags of its steps, each once and in order, each under the info of the last media info step before it, made pausable, not seekable and of no duration, or under none. |
| `TimeShiftLaw.TimesExactly` | extra_library/time_shift/time_shift_element.cc:213-222 | In every run a buffered tag has the stream time at which it came less that of the first tag of its buffer. |
| `TimeShiftLaw.PlaySends` | extra_library/time_shift/time_shift_element.cc:379-393 | A client is sent the tags of its buffer from its index on, each once and at its time from the first, with the start of the source and the media info before the first one only, up to the tag on which it pauses or the last. |
| `TimeShiftLaw.FiresExactly` | extra_library/time_shift/time_shift_element.cc:379-393 | After an alarm the client stays with what playing made of it if it paused or the buffer is active, and is otherwise new at the start of the next buffer with everything it was sent. |
| `TimeShiftLaw.StepIsLocal` | extra_library/time_shift/time_shift_element.cc:65-80 | An alarm, a pause, a new request or a removal changes nothing for any other client: buffer, controller, events and first tag stay. |
| `TimeShiftLaw.PauseExactly` | extra_library/time_shift/time_shift_element.cc:65-80 | Pausing counts up and stops the alarm, resuming counts down and starts it exactly at 0, and nothing else changes for the client. |
| `TimeShiftLaw.RemovalExactly` | extra_library/time_shift/time_shift_element.cc:478-495 | A removed client is gone, and its buffer with it if and only if that is closed and the client was its last. |
| `TimeShiftLaw.RotatesExactly` | extra_library/time_shift/time_shift_element.cc:564-592 | A rotation buffer by buffer: the first one is emptied and its clients stopped, with an end of stream to them and nobody else, exactly when the others hold more than twice the buffer size, and dropped if it has no client; the last one gets no more tags and its clients are armed unless paused; an empty one follows. |
| `TimeShiftLaw.ReceivedExactly` | extra_library/time_shift/time_shift_element.cc:564-592 | A stored tag is preceded by a rotation exactly if it is a media info or the last buffer is longer than the buffer size. |
| `TimeShiftLaw.InTimeExactly` | extra_library/time_shift/time_shift_element.cc:211-219 | Which stream times a media tag may have: any in a new buffer, the one the buffer began with if it is its first, and otherwise less than a second after the tag before it and not before it. |
| `TimeShiftLaw.AppendsExactly` | extra_library/time_shift/time_shift_element.cc:197-230 | A media tag goes to the end of the last buffer and arms its clients unless they are paused; a media info only replaces that of the buffer. |
| `TimeShift.CatchesUp` | extra_library/time_shift/time_shift_element.cc:379-393 | An unpaused client whose alarm goes off once in each buffer from its own to the last has been sent every tag up to the latest. |
| `TimeShift.MapsAgree` | extra_library/time_shift/time_shift_element.cc:271-310 | The element maps a request to a buffer exactly when that buffer, and no other, maps it to a controller. |
| `TimeShift.NoCheckFails` | extra_library/time_shift/time_shift_element.cc:600-611 | A client that reaches the end of a passive buffer always has a next buffer. |
| `TimeShift.TwoBuffersStay` | extra_library/time_shift/time_shift_element.cc:579-591 | The only other buffer of a new one is never evicted, so the buffer to be notified exists. |
| `TimeShift.FireKeeps` | extra_library/time_shift/time_shift_element.cc:379-393 | An alarm run keeps the invariant, whether the client pauses, waits at the live edge or is handed over. |
| `TimeShift.PlayKeeps` | extra_library/time_shift/time_shift_element.cc:379-393 | The sending loop keeps the slice and ends only at a pause or at the end of the buffer. |
| `TimeShift.PlayFinishedKeeps` | extra_library/time_shift/time_shift_element.cc:600-611 | A hand-over to the start of the next buffer loses and repeats no tag. |
| `TimeShift.RotateKeeps` | extra_library/time_shift/time_shift_element.cc:564-592 | Starting a buffer, evicting the first and waking the clients of the previous one keep the invariant. |
| `TimeShift.AppendKeeps` | extra_library/time_shift/time_shift_element.cc:197-230 | A tag appended to the active buffer extends what was taken in and arms every unpaused client there. |
| `TimeShift.AddKeeps` | extra_library/time_shift/time_shift_element.cc:439-477 | A new client starts an empty slice at the tag it was placed on. |
| `TimeShift.RemoveKeeps` | extra_library/time_shift/time_shift_element.cc:478-495 | Removing a client, and the closed buffer it was the last to hold, keeps the invariant. |
| `TimeShift.PauseKeeps` | extra_library/time_shift/time_shift_element.cc:65-80 | Pausing and resuming keep the invariant; the count reaching zero arms the alarm. |
| `TimeShift.ServedFromMemory` | extra_library/time_shift/time_shift_element.cc:446-461 | A request is served from memory exactly when its delay is shorter than all that is buffered. |
| `TimeShift.FindSlotExactly` | extra_library/time_shift/time_shift_element.cc:446-461 | The buffer found, the delay left in it and the buffers after it make up the delay asked for. |
| `TimeShift.FirstIndex` | extra_library/time_shift/time_shift_element.cc:284-296 | The first tag at or after the position, on a key frame if asked, or the end of the buffer. |
| `TimeShift.StartsAtDelay` | extra_library/time_shift/time_shift_element.cc:446-461 | A client that asks for a delay is placed on the first key frame not before that moment, in the buffer that holds the moment, or behind the last tag of that buffer if it holds none. |
| `TimeShift.FirstTagIsKeyExactly` | extra_library/time_shift/time_shift_element.cc:276-308 | However the run goes on, the first tag such a client is sent is a key frame if and only if its buffer held one from the moment on or the first tag after that buffer is one. |
| `TimeShift.FirstTagSent` | extra_library/time_shift/time_shift_element.cc:379-393 | The first media tag a client is sent is the one it was placed on, through every hand-over. |
| `TimeShift.RunGrows` | extra_library/time_shift/time_shift_element.cc:379-393 | Over whole runs nothing sent or taken in is revised and the first tag of a client stays, also once it is removed. |
| `TimeShift.NextBufferBegins` | extra_library/time_shift/time_shift_element.cc:600-611 | The first tag after a passive buffer is the first of the next buffer. |
| `TimeShiftCases.FirstTagIsPlain` | extra_library/time_shift/time_shift_element.cc:276-308 | A run of six steps from the initial state after which the first media tag sent is no key frame. |
| `TimeShift.EnoughStaysBuffered` | extra_library/time_shift/time_shift_element.cc:564-588 | A rotation leaves everything buffered, or more than twice the buffer size. |
| `TimeShift.LazyClientHoldsBuffers` | extra_library/time_shift/time_shift_element.cc:581-588 | A rotation adds a buffer if and only if a client is left in the first buffer or there is no need to make room. |
| `TimeShift.LazyClientIsRevived` | extra_library/time_shift/time_shift_element.cc:311-326 | A paused client left in a closed buffer was sent end of stream, yet is handed to the next buffer once it resumes. |
| `TimeShift.RevivedClientIsPlayed` | extra_library/time_shift/time_shift_element.cc:379-393 | Its next alarm sends it the media of that buffer, if there is any. |
| `TimeShift.OnlyResumingRevives` | extra_library/time_shift/time_shift_element.cc:65-80 | The only step that arms such a client is its own resuming, and only from a pause count of 1. |
| `TimeShift.EosRepeatsExactly` | extra_library/time_shift/time_shift_element.cc:581-588 | A rotation sends such a client another end of stream if and only if it has to make room. |
| `TimeShiftCases.MediaAfterEos` | extra_library/time_shift/time_shift_element.cc:550-598 | A run of ten steps from the initial state after which the client was sent media behind an end of stream. |
| `TimeShift.RunController` | extra_library/time_shift/time_shift_element.cc:379-393 | The loop sends what the specification of playing says. |
| `TimeShift.SearchBuffers` | extra_library/time_shift/time_shift_element.cc:446-461 | The backward search finds the slot of the specification. |
| `TimeShift.GetFirstIndex` | extra_library/time_shift/time_shift_element.cc:284-296 | The loop finds the first startable tag. |
| `TimeShift.FindBuffer` | extra_library/time_shift/time_shift_element.cc:602-605 | The search finds the position of the buffer. |
| `TimeShift.GetBufferedMs` | extra_library/time_shift/time_shift_element.cc:541-548 | The total of the buffer sizes. |
| `TimeShift.TimeShiftElement.ProcessTag` | extra_library/time_shift/time_shift_element.cc:550-598 | The whole new state after a tag, rotation included, is that of the step about which the lemmas are, for tags that come in time; any other tag ends the process, and no tag breaks the invariant. |
| `TimeShift.TimeShiftElement.Run` | extra_library/time_shift/time_shift_element.cc:379-393 | The same for a client alarm; the check in PlayFinished does not fail. |
| `TimeShift.TimeShiftElement.Pause` | extra_library/time_shift/time_shift_element.cc:65-80 | The same for pausing and resuming. |
| `TimeShift.TimeShiftElement.AddRequest` | extra_library/time_shift/time_shift_element.cc:439-477 | The same for a new request; memory is used exactly when the delay is shorter than what is buffered. |
| `TimeShift.TimeShiftElement.RemoveRequest` | extra_library/time_shift/time_shift_element.cc:478-495 | The same for a removed request, which every known request can be. |
| `TimeShift.TimeShiftElement.PlayFinished` | extra_library/time_shift/time_shift_element.cc:600-611 | The client leaves its buffer and gets a fresh controller at the start of the next. |
| `TimeShift.TimeShiftElement.StartNextBuffer` | extra_library/time_shift/time_shift_element.cc:564-592 | New buffer, eviction test, close and wake-up in the order of the code. |
| `TimeShift.TimeShiftElement.CloseFirst` | extra_library/time_shift/time_shift_element.cc:311-326 | Closing sends end of stream to every client left, clears the media and drops the buffer if nobody is left. |
| `Alignment.ShortestPathDistance` | features/decoding/feature_data.cc:259-308 | Per channel a distance that times the feature size is the cost of the cheapest path, and last the sum of the squares of the three; not a number for empty features; features of different shape are refused and nothing is written. |
| `Alignment.OverIsDistance` | features/decoding/feature_data.cc:302 | The cheapest cost over the feature size is a distance that added up as often as the size is that cost. |
| `Alignment.MultipleIsProduct` | features/decoding/feature_data.cc:302 | Added up so often is multiplied by the size. |
| `Alignment.TotalIs` | features/decoding/feature_data.cc:303-305 | The sum accumulated over the channels is that of the products of the three distances with themselves. |
| `Alignment.DistanceAtMostMean` | features/decoding/feature_data.cc:259-308 | For a non-negative penalty the distance of a channel is not negative and at most the mean of the absolute differences. |
| `Alignment.CheapestIsBoundaryMin` | features/decoding/feature_data.cc:259-308 | The cost of the cheapest path is the least boundary value, and no other number. |
| `Alignment.EmptyLeastIsZero` | features/decoding/feature_data.cc:259-308 | The boundary minimum of empty features is 0, so the division by the feature size is 0 by 0 and never infinite. |
| `Alignment.FillTable` | features/decoding/feature_data.cc:270-304 | The flat array holds the cost table at i*(n+1)+j, and the minimum returned is that of the whole last row and last column. |
| `Alignment.FillRow` | features/decoding/feature_data.cc:281-303 | One row of the table through the moving pointer, with the running minimum. |
| `Alignment.FillCell` | features/decoding/feature_data.cc:281-303 | One cell from its three neighbours in the flat array. |
| `Alignment.CellIsLowerBound` | features/decoding/feature_data.cc:270-304 | No monotone alignment path to a cell costs less than the cell. |
| `Alignment.CellIsAttained` | features/decoding/feature_data.cc:270-304 | Some path costs exactly what the cell holds. |
| `Alignment.DistanceIsCheapestPath` | features/decoding/feature_data.cc:270-304 | The distance is the cost of the cheapest path that uses up either feature. |
| `Alignment.FilledTable` | features/decoding/feature_data.cc:270-304 | The cell (i, j) of the filled array is at index i*(n+1)+j. |
| `Alignment.DistanceNonNegative` | features/decoding/feature_data.cc:259-308 | Non-negative for a non-negative penalty. |
| `Alignment.DistanceToSelfIsZero` | features/decoding/feature_data.cc:259-308 | Zero between a feature and itself. |
| `Alignment.DistanceAtMostAbsDifference` | features/decoding/feature_data.cc:259-308 | At most the sum of absolute differences. |
| `Alignment.DistanceSymmetric` | features/decoding/feature_data.cc:259-308 | Symmetric when neither feature has a negative sample, or there is no penalty. |
| `Alignment.DistanceNotSymmetric` | features/decoding/feature_data.cc:285-286 | A pair of features with distance 0 one way and 2 the other. |
| `Alignment.ColumnZeroExactly` | features/decoding/feature_data.cc:285-286 | The misplaced parenthesis leaves the whole table as intended if and only if no sample of the second feature is negative or there is no penalty. |
| `Alignment.ColumnFallsBehind` | features/decoding/feature_data.cc:285-286 | After a negative sample every later cell of column 0 is too small. |
| `Alignment.CellAtMostPlain` | features/decoding/feature_data.cc:285-286 | The table is never above the intended one. |
| `Alignment.PlainTranspose` | features/decoding/feature_data.cc:281-303 | The intended table of the swapped features is the transposed one. |
| `TopK.ExtractChannel` | features/decoding/feature_data.cc:158-197 | For every coefficient array the feature is the zero-filled, in-order selection by the two thresholds, each the (mid_size+1)-th of the sorted coefficients and mid_size+1 zeros. |
| `TopK.Thresholds` | features/decoding/feature_data.cc:158-189 | The two bounded arrays end with those thresholds. |
| `TopK.BoundedInsert` | features/decoding/feature_data.cc:162-189 | The guarded insertion keeps the first elements of the ordered insertion. |
| `TopK.Bubble` | features/decoding/feature_data.cc:162-189 | The inner loop is an ordered insertion. |
| `TopK.Select` | features/decoding/feature_data.cc:191-197 | The selection of coefficients at or beyond a threshold, cut or filled to the feature size. |
| `TopK.SelectedAre` | features/decoding/feature_data.cc:191-197 | Selected is every coefficient at or beyond a threshold, as often as it is there, and no other. |
| `TopK.SelectedInOrder` | features/decoding/feature_data.cc:191-197 | The selection keeps the order of the coefficients. |
| `TopK.SelectedExactly` | features/decoding/feature_data.cc:158-197 | In any arrangement, all coefficients are selected when at most half the feature size of them lie on either side of 0, and otherwise exactly those that reach a threshold: at least 2 * mid_size + 2 when more than that lie on both sides. |
| `TopK.ThresholdSigns` | features/decoding/feature_data.cc:158-189 | The lower threshold is at most 0 and the upper one at least 0; each is away from 0 if and only if more than mid_size coefficients are on its side. |
| `TopK.ThresholdReached` | features/decoding/feature_data.cc:158-189 | A threshold that is not 0 is reached by more than mid_size coefficients. |
| `TopK.NothingLostExactly` | features/decoding/feature_data.cc:191-197 | The feature holds everything selected, in order, if and only if that fits its size. |
| `TopK.BothSidesLose` | features/decoding/feature_data.cc:158-197 | With more than half the feature size of coefficients on both sides of 0, more are selected than fit and the last ones in order are lost. |
| `TopK.HighestAreLost` | features/decoding/feature_data.cc:158-197 | Of -2, -1, 1, 2 a feature of size 2 keeps -2 and -1 and none of the highest. |
| `TopK.KeepsOneMore` | features/decoding/feature_data.cc:162-189 | After one more coefficient the array holds the first elements of the sort of everything seen. |
| `TopK.TakeOfSortIsExtreme` | features/decoding/feature_data.cc:162-189 | What is kept is ordered, taken from the pool, and nothing left out precedes it. |
| `TopK.SortSorts` | features/decoding/feature_data.cc:162-189 | The reference sort is ordered and a permutation. |
| `TopK.TakeInsert` | features/decoding/feature_data.cc:162-189 | The first k elements after an insertion depend only on the first k before. |
| `FeatureCodec.SetRoundTripExactly` | features/decoding/feature_data.cc:479-516 | Loading a saved set followed by any tail gives READ_OK, the same set, and exactly the tail, if and only if there are fewer than 2^32 features. |
| `FeatureCodec.NoneIsLoaded` | features/decoding/feature_data.cc:479-516 | A set of 2^32 features loads as READ_OK with none. |
| `FeatureCodec.SetRoundTrip` | features/decoding/feature_data.cc:479-516 | In every case it gives READ_OK, the first (count mod 2^32) features, and never trips the check on READ_NO_DATA. |
| `FeatureCodec.TruncatedSet` | features/decoding/feature_data.cc:479-488 | A saved set cut after n bytes is reported as not there if and only if n is below what its size field tells, and from the fifth byte on the size field is gone from the stream. |
| `FeatureCodec.FeaturesRoundTrip` | features/decoding/feature_data.cc:491-513 | Reading n of the written features leaves the others and the tail. |
| `FeatureCodec.DataRoundTrip` | features/decoding/feature_data.cc:346-413 | A saved feature followed by any tail loads as itself and leaves the tail; one without an area forgets its other fields. |
| `FeatureCodec.TruncatedData` | features/decoding/feature_data.cc:346-376 | Of a saved feature cut after n bytes: read past the end if and only if 25 <= n <= 28, READ_NO_DATA otherwise; and what is left in the stream in each case. |
| `FeatureCodec.HeaderRoundTrip` | features/decoding/feature_data.cc:346-413 | The seven header fields, negative ones included, come back from 28 bytes. |
| `FeatureCodec.ChannelsRoundTrip` | features/decoding/feature_data.cc:346-413 | The channel vectors come back and leave the tail. |
| `FeatureCodec.Int32RoundTrip` | features/decoding/feature_data.cc:346-413 | Two's complement in four bytes. |
| `FeatureCodec.Int64RoundTrip` | features/decoding/feature_data.cc:479-516 | Two's complement in eight bytes. |
| `FeatureCodec.CountRoundTrip` | features/decoding/feature_data.cc:479-516 | A count comes back modulo 2^32. |
| `FeatureCodec.Enc32IsBigEndian` | features/decoding/feature_data.cc:390-413 | The four bytes of a number, the most significant first, a negative one as 2^32 more. |
| `FeatureCodec.Enc64IsBigEndian` | features/decoding/feature_data.cc:479-516 | The same for the eight bytes of a time. |
| `FeatureCodec.HeaderLayout` | features/decoding/feature_data.cc:397-404 | Which field stands where in the 28 bytes of the header. |
| `FeatureCodec.DataLayout` | features/decoding/feature_data.cc:390-413 | A feature with an area is a byte 1, the header and the vectors of the three channels in order, 29 + 24 * size bytes in all. |
| `FeatureCodec.FeatureLayout` | features/decoding/feature_data.cc:510-513 | Feature k stands behind those before it, its time first. |
| `FeatureCodec.SetLayout` | features/decoding/feature_data.cc:505-516 | A set is the number of bytes that follow, width, height, the number of features, and the features. |
| `FeatureCodec.LoadExactly` | features/decoding/feature_data.cc:346-388 | For any stream that holds a header, by the numbers in its bytes: when it is refused, when it is not there yet, both giving it back whole, and when it is loaded, with how much is read. |
| `FeatureCodec.LoadEndsAt` | features/decoding/feature_data.cc:491-502 | From any stream features are read up to the first that cannot be: the process aborts if its record is not all there, and other failures are passed on. |
| `FeatureCodec.WriteData` | features/decoding/feature_data.cc:390-413 | Appends the encoding to the stream. |
| `FeatureCodec.ReadData` | features/decoding/feature_data.cc:346-388 | Status, value and remaining stream are those of the decoder, for every stream: errors, restored marker and header fields whose products wrap at 32 bits included. |
| `FeatureCodec.FeatureSet.Save` | features/decoding/feature_data.cc:505-516 | Appends the encoding of the set. |
| `FeatureCodec.FeatureSet.Load` | features/decoding/feature_data.cc:479-503 | Status, object and remaining stream are those of the decoder. |
| `FeatureTypes.FeatureData.AreaIsSameSign` | features/decoding/feature_data.cc:368-369 | The 32-bit test of the area passes exactly when width and height have the same sign, as long as their product fits. |
| `FeatureTypes.TimesIsProduct` | features/decoding/feature_data.cc:368 | The product taken before the truncation to 32 bits is that of width and height. |
| `FeatureCodec.WantedExactly` | features/decoding/feature_data.cc:373-376 | The size asked for is computed in 32 bits: it is that of the channels if and only if it fits. |
| `FeatureTypes.AreaCanWrap` | features/decoding/feature_data.cc:35-41 | The code sees no area in a square of 65536. |
| `FeatureMatch.CompletedMatchIsChain` | features/decoding/feature_data.cc:432-477 | In every call sequence a completed match ends a consecutive BEGIN, CONT, ..., COMPLETED chain with strictly increasing features up to the last and non-decreasing timestamps, whose frames span no more time than the stored features. |
| `FeatureMatch.InProgressIsChain` | features/decoding/feature_data.cc:432-477 | A match in progress is the end of such a chain. |
| `FeatureMatch.BeginsExactly` | features/decoding/feature_data.cc:435-457 | With no match in progress a frame begins one if and only if it matches the first feature. |
| `FeatureMatch.ContinuesExactly` | features/decoding/feature_data.cc:458-477 | A match in progress goes on if and only if the frame matches the first feature not overtaken by the time that passed; it is broken if the frame does not, and given up if there is no such feature. |
| `FeatureMatch.InProgressExactly` | features/decoding/feature_data.cc:435-443 | The next frame starts anew if and only if the result was neither BEGIN nor CONT or time goes back. |
| `FeatureMatch.ReplayIsRecognised` | features/decoding/feature_data.cc:432-477 | A replay of the stored sequence, each frame at its time and like its feature, is answered BEGIN, CONT, ..., COMPLETED. |
| `FeatureMatch.ExtendChain` | features/decoding/feature_data.cc:432-477 | A continuing call extends the chain by one link. |
| `FeatureMatch.CandidateSpec` | features/decoding/feature_data.cc:458-463 | The candidate is the first feature not overtaken by the time that has passed. |
| `FeatureMatch.SkippedAreOverdue` | features/decoding/feature_data.cc:458-467 | Only features older than the elapsed time are skipped. |
| `FeatureMatch.FeatureSet.MatchNext` | features/decoding/feature_data.cc:432-477 | Result and new state are those of the step about which the chains are proved. |
| `TimeRange.RangeCoverage` | extra_library/time_range/time_range_element.cc:736-829 | For sorted disjoint files and start <= end the segments ascend from offset 0 without overlap and cover exactly the instants held by files plus the gap before the first file. |
| `TimeRange.NothingToPlay` | extra_library/time_range/time_range_element.cc:756-780 | When nothing is set, no file holds any instant of the range. |
| `TimeRange.NegativeDurationExactly` | extra_library/time_range/time_range_element.cc:736-829 | No duration is negative if and only if start <= end. |
| `TimeRange.DurationIsMeasure` | extra_library/time_range/time_range_element.cc:219-225 | The summed durations are the number of milliseconds to be played. |
| `TimeRange.RefreshExtends` | extra_library/time_range/time_range_element.cc:238-258 | Files that appear behind the old ones only add segments behind the old ones. |
| `TimeRange.LimitExactly` | extra_library/time_range/time_range_element.cc:791-822 | The last file has no limit if and only if it ends before the range does, or with it as the only one; otherwise the limit is the duration of the last segment. |
| `TimeRange.PlaysTheRange` | extra_library/time_range/time_range_element.cc:736-829 | An instant is played, from the origin of its file and within its limit, if and only if it is in the range and some file holds it; but a range within one file that begins in the gap before it is played past its end, by that gap or to the end of the file. |
| `TimeRange.OvershootHappens` | extra_library/time_range/time_range_element.cc:784-792 | One file at [10, 30) and the range [0, 20): the file is played to 30. |
| `TimeRange.SeekPosition` | extra_library/time_range/time_range_element.cc:138-172 | Seek selects the one segment holding the position, and none exactly when no segment does; local position plus offset exceeds the request by exactly the gaps between the segments before it. |
| `TimeRange.SeekInstantExactly` | extra_library/time_range/time_range_element.cc:138-172 | For sorted files, start <= end and any position that is to be played: the instant played after a seek is the instant asked for, plus the gaps between the segments skipped, plus, in the first file, the gap before it; it is the one asked for if and only if there is neither. |
| `TimeRange.TagTimeExactly` | extra_library/time_range/time_range_element.cc:390 | The output time of a tag is the time of its instant in the range if and only if it is not of the first file or the range does not begin in a gap; otherwise it is early by that gap. |
| `TimeRange.SegmentPlaysFile` | extra_library/time_range/time_range_element.cc:259-294 | Segment k plays file k from the first that ends after the start, at the offset of its begin in the range; the first one from the later of its begin and the start. |
| `TimeRange.SeekIntoFirstGap` | extra_library/time_range/time_range_element.cc:138-172 | One file at [10, 20) and the range [0, 30): a seek to 15 plays the instant 25. |
| `TimeRange.SeekSkipsGap` | extra_library/time_range/time_range_element.cc:138-172 | Two sorted files with a gap of 5: a seek to 20 plays from 25. |
| `TimeRange.FirstEndingAfterSpec` | extra_library/time_range/time_range_element.cc:756-767 | The first file that ends after the start. |
| `TimeRange.RestCovers` | extra_library/time_range/time_range_element.cc:801-824 | The segments after the first cover exactly what their files hold of the range. |
| `TimeRange.TimeRangeRequest.SetRangeFiles` | extra_library/time_range/time_range_element.cc:736-829 | The loop sets the list, first origin and last limit of the specification, or leaves them alone. |
| `TimeRange.TimeRangeRequest.PlayNext` | extra_library/time_range/time_range_element.cc:238-258 | The next segment is asked for from its start, with origin and limit as it is the first or the last; at the end the list is refreshed first, the old list stays a prefix, and end of stream is sent exactly when nothing was added. |
| `TimeRange.TimeRangeRequest.Seek` | extra_library/time_range/time_range_element.cc:138-172 | Illegal, out of range, within the current segment, or elsewhere with the index switched and that file asked for at the local position, as the position falls. |
| `TimeRange.TimeRangeRequest.IssueRequest` | extra_library/time_range/time_range_element.cc:259-294 | What is asked upstream: origin only for the first file, limit only for the last. |
| `TimeRange.GetAllTimeSpans` | extra_library/time_range/time_range_element.cc:613-638 | The spans closed by the walk; for sorted files that begin at or after 0 these are all joined spans but the last, a file that begins at 0 being passed over. |
| `TimeRange.AllButLastSpan` | extra_library/time_range/time_range_element.cc:613-638 | Relates the walk, with its 0 for "no span yet", to the joined spans. |
| `TimeRange.SpansHold` | extra_library/time_range/time_range_element.cc:613-638 | The joined spans hold exactly what the files hold. |
| `TimeRange.SpansAreApart` | extra_library/time_range/time_range_element.cc:613-638 | Between two joined spans there is a gap. |
| `TimeRange.SpanAtZeroIsLost` | extra_library/time_range/time_range_element.cc:622-627 | Three separate files of which the first, at 0, and the last are not reported. |
| `HoleFill.RemoteGapsAreRestored` | whisperproc/scripts/whisperproc_fillup.py:22-113 | Every second of a remote gap of more than five seconds that a local file holds is restored by the piece the whole script cuts out of that file, nested files or not. |
| `HoleFill.HoleIsRestored` | whisperproc/scripts/whisperproc_util.py:75-95 | Every second of a hole that a local file holds is in the piece cut out of that file, which is among the pieces. |
| `HoleFill.BreakLosesNothing` | whisperproc/scripts/whisperproc_util.py:82-90 | For files sorted by begin the early end of the loop loses no piece. |
| `HoleFill.BreakNeedsSorting` | whisperproc/scripts/whisperproc_util.py:82-90 | Without the sorting it would. |
| `HoleFill.PieceFits` | whisperproc/scripts/whisperproc_util.py:54-81 | The whole file is sent if and only if the portion lacks less than two seconds at either end; otherwise a piece is cut at the end of the portion, and at its begin unless that is less than two seconds in. It holds its whole portion, stays inside its file and is named after the portion. |
| `HoleFill.FillersComeFromOverlaps` | whisperproc/scripts/whisperproc_util.py:75-95 | Every piece comes from a file that overlaps the hole. |
| `HoleFill.PiecesAreThePairs` | whisperproc/scripts/whisperproc_util.py:75-95 | Over the whole script there is exactly one piece for each hole and local file that overlap, hole by hole and file by file. |
| `HoleFill.HolesAscend` | whisperproc/scripts/whisperproc_fillup.py:49-58 | Every hole is longer than five seconds and ends before the next one begins. |
| `HoleFill.HolesAreGaps` | whisperproc/scripts/whisperproc_fillup.py:22-58 | The holes between the joined intervals are exactly the gaps of more than five seconds between consecutive files. |
| `HoleFill.HolesAreUnrecordedExactly` | whisperproc/scripts/whisperproc_fillup.py:22-58 | No hole contains a recorded second if and only if no file reaches past the file just before a gap. |
| `HoleFill.NestedFileIsHole` | whisperproc/scripts/whisperproc_fillup.py:22-58 | Three files, one inside another: a recorded second lies in a hole. |
| `HoleFill.RemoteGapIsHole` | whisperproc/scripts/whisperproc_fillup.py:22-58 | Every unrecorded time of more than five seconds between files lies in a hole. |
| `HoleFill.FindHoleFiller` | whisperproc/scripts/whisperproc_util.py:82-95 | The loop collects the pieces of the specification. |
| `HoleFill.GetRanges` | whisperproc/scripts/whisperproc_fillup.py:22-47 | The loop joins the files as specified, unparsable names skipped. |
| `HoleFill.GetHoles` | whisperproc/scripts/whisperproc_fillup.py:49-58 | The loop lists the holes between intervals. |
| `HoleFill.FillUp` | whisperproc/scripts/whisperproc_fillup.py:74-93 | The main block concatenates the pieces of all holes. |
| `Flavours.OneSourcePerBit` | extra_library/flavouring/flavouring_element.cc:173-191 | Each bit a client reads comes from one upstream source at most. |
| `Flavours.TestIsExact` | extra_library/flavouring/flavouring_element.cc:398-408 | The accumulated-OR test passes if and only if the masks are disjoint pair by pair. |
| `Flavours.AllBitsMeets` | extra_library/flavouring/flavouring_element.cc:398-408 | The accumulated bits meet a mask exactly when some listed mask does. |
| `Flavours.MediaOfEach` | extra_library/flavouring/flavouring_element.cc:419-424 | In a list that passed, every non-zero mask keeps its own media. |
| `Flavours.MediaForIsLast` | extra_library/flavouring/flavouring_element.cc:419-424 | A mask listed more than once has the media of its last place in the list. |
| `Flavours.ListedIsDisjoint` | extra_library/flavouring/flavouring_element.cc:419-424 | The masks added so far are disjoint from every later one, so the CHECK on AddFlav never fires. |
| `Flavours.LinkKeeps` | extra_library/flavouring/flavouring_element.cc:21-45 | Registering keeps client, flavour and upstream source in agreement, and adds exactly one reader. |
| `Flavours.UnlinkKeeps` | extra_library/flavouring/flavouring_element.cc:47-70 | Unregistering keeps them in agreement and removes exactly one reader. |
| `Flavours.NewFlavourKeeps` | extra_library/flavouring/flavouring_element.cc:187-190 | A new flavour disjoint from all others keeps the registry consistent. |
| `Flavours.AddingEnds` | extra_library/flavouring/flavouring_element.cc:278-289 | A request is kept if and only if some flavour took it, with its mask cut to the bits served. |
| `Flavours.RemovingStep` | extra_library/flavouring/flavouring_element.cc:205-210 | While a flavour is removed, exactly the clients not yet told still read from it. |
| `Flavours.FlavouringElement.constructor` | extra_library/flavouring/flavouring_element.cc:104-125 | Configured flavours that are pairwise disjoint are all registered. |
| `Flavours.FlavouringElement.Register` | extra_library/flavouring/flavouring_element.cc:21-45 | Registers with the upstream source or changes nothing. |
| `Flavours.FlavouringElement.Unregister` | extra_library/flavouring/flavouring_element.cc:47-70 | Removes the reader on all three sides, or changes nothing when there is none. |
| `Flavours.FlavouringElement.UnregisterAll` | extra_library/flavouring/flavouring_element.cc:72-78 | Terminates with the client reading nothing and everybody else as before. |
| `Flavours.FlavouringElement.AddFlav` | extra_library/flavouring/flavouring_element.cc:173-191 | Succeeds if and only if the mask meets no registered mask; the whole new state. |
| `Flavours.FlavouringElement.DelFlav` | extra_library/flavouring/flavouring_element.cc:193-213 | Removes the flavour, ends exactly its readers, each told once; other readings are untouched. |
| `Flavours.FlavouringElement.AddRequest` | extra_library/flavouring/flavouring_element.cc:256-290 | The client reads exactly from the flavours that suit it and whose source accepted, from each the media below that of the flavour; success, request map and served bits accordingly, and nothing changes for the clients before. |
| `Flavours.FlavouringElement.RemoveRequest` | extra_library/flavouring/flavouring_element.cc:292-310 | The client of the request reads nothing any more; an unknown request changes nothing. |
| `Flavours.FlavouringElement.SetFlavours` | extra_library/flavouring/flavouring_element.cc:395-427 | Refuses exactly the lists that are not pairwise disjoint, changing nothing; otherwise the list replaces all flavours, nobody reads, and no CHECK fires. |
| `PartGrouping.GroupsAreTheInput` | whisperproc2/processor.cc:142-226 | The groups consumed and the files left concatenate to the input, so there are at most as many compositions as files. |
| `PartGrouping.OutputsMeet` | whisperproc2/processor.cc:142-221 | Inside a chunk an output ends exactly where the next one begins, and was triggered by size; before a new chunk it ends after its own length. |
| `PartGrouping.OutputEndsExactly` | whisperproc2/processor.cc:122-138 | For every output of a run: it ends after its own length if no time is given; otherwise it is cut to the begin of its own last part if and only if no file is left after it, and ends where the next file begins if one is. |
| `PartGrouping.OldPartCoversNothing` | whisperproc2/processor.cc:122-138 | A directory with one old part at 1000 makes an output that covers [1000, 1000). |
| `PartGrouping.SelectIsGroup` | whisperproc2/processor.cc:94-140 | Something is chosen if and only if two parts begin more than output_media_ms_ apart or every part is older than max_delay_ms_, and then it is a non-empty prefix spanning at most output_media_ms_ with a new chunk only first, cut for a reason. |
| `PartGrouping.SelectStops` | whisperproc2/processor.cc:112-139 | Of any listing, once due: the readable files up to the first that begins more than an output after the first one or starts a chunk, and the time of that one. |
| `PartGrouping.WithoutKeeps` | whisperproc2/processor.cc:204-220 | Exactly the files not taken stay. |
| `PartGrouping.OutputIsMadeExactly` | whisperproc2/processor.cc:186-203 | A composition gives a media file if and only if its length is positive. |
| `PartGrouping.EachIsGroup` | whisperproc2/processor.cc:142-226 | Every composition of a run is such a group, followed by the next one. |
| `PartGrouping.SelectedShrinks` | whisperproc2/processor.cc:142-226 | Every composition uses up a file, even when some names cannot be parsed. |
| `PartGrouping.GroupedOneMore` | whisperproc2/processor.cc:142-221 | One more composition keeps the run a sequence of groups. |
| `PartGrouping.Processor.GetProcessableFiles` | whisperproc2/processor.cc:94-140 | The loop chooses the files and the next timestamp of the specification. |
| `PartGrouping.Processor.ProcessDirectoryOnce` | whisperproc2/processor.cc:142-221 | Consumes the chosen files and records the output, or changes nothing when nothing is due or the join fails. |
| `PartGrouping.Processor.ProcessDirectory` | whisperproc2/processor.cc:222-226 | Terminates; the batches of the run take the input apart group by group, and it stops only when told to, when nothing is due, or on a failed join. |

## Left out

- BufferedSaver and RequestController of the time shift are values inside `TimeShiftElement`, and flavours and clients of the flavouring element are numbered table entries, so the model does not capture aliasing or the freeing of objects; iterating over a map where the order cannot matter is one map comprehension.
- Whole-element `Close` of the time shift and flavouring elements, saving buffers to disk, and the time-range fallback for delays longer than what is buffered: steps outside the protocol proved here.
- The time-shift element's own registration upstream, which an end of stream from there ends.
- The end-of-stream tag the flavouring element sends on closing, and the mask put on forwarded tags: one-line behaviour.
- Int-width of millisecond times (64 bits) is not modelled: overflow is centuries away. Where 32 bits matter (playing id, feature count, header fields, area and size of a feature) they are.
- The square root of the summed distances: monotone, so the sum of squares is kept.
- The wavelet transforms, colour conversion and picture decoding that feed the features: foreign code.
- The clean start of the statistics processor without a checkpoint: it does not rewind the reader, which is outside the promise of the run theorems.
- Force-insert mode, logging, printing of statistics, the light and custom SQL savers and the mode without SQL: more cases, no further property.
- Directory listing, sorting and parsing of file names, moving of files, JSON, RPC, HTTP and threads: parameters, or outside the model.
- Transcoder master and slaves, logic playlists, directory monitors, proxies and user interfaces: not part of this model.
