# Verified model of a time-series ingest and quality-control backend

Dafny models of the stateful parts of the time.IO backend, each with the properties its code is there for.
Databases, buckets, Grafana servers and crontabs are maps and sequences that the methods change.

| file | part of the system |
|---|---|
| `Frames.dfy` | time-indexed frames: label slices, the observation query, append, label overlay |
| `Datastream.dfy` | the range cache of a quality-control stream (`DatastreamSTA`, `ProductStream`, `LocalStream`) |
| `StreamManager.dfy` | whole quality-control runs: load, store results, upload |
| `ReadHistory.dfy` | whole histories of reads and label updates, with the cache and without |
| `ConfigDb.dfy` | the config database and the transaction that stores a thing message |
| `ThingMessages.dfy` | normalising a thing message of any version |
| `DeliveryExamples.dfy` | small databases on which a second delivery shows |
| `Feta.dfy` | the object graph read from the same tables, and its shared cache |
| `ThingReader.dfy` | loading a stored thing link by link |
| `CronSchedule.dfy` | cron expressions: creation, sampling, update, and when they fire |
| `Crontab.dfy` | the crontab with one job per thing |
| `Migration.dfy` | renaming datastreams from column positions to headers |
| `RemoteFs.dfy` | listing a remote tree and synchronising a target with it |
| `Grafana.dfy` | a user's memberships in organisations and teams |
| `PandasParser.dfy` | from file columns to observations |
| `StripDepends.dfy` | filtering dependencies out of a compose file |

Check everything with `dafny verify dfyconfig.toml`.

The results, in short:

* Over any history of reads and label updates, every answer is told from the table, the labels kept so far and
  the window, and the window from the reads before; a closed read with a duration as context does without the
  window (`ReadHistory.Replay`). Counted context and open ends do depend on it; when they do is stated exactly,
  each with a short history that shows it.
* A whole run is told from the streams in front of it, whatever the results are (`QcRuns.StreamManager.Run`):
  what each test loads and with which range, which stored rows are sent for every stream and under which labels. All
  stored rows of a closed range that a stream was read with are sent; without a given range, all unlabelled rows
  of the stream that settles it. A run fails only in a read that is known before to be able to; without products
  and open ends, exactly if there is such a read. What is sent for stored data is a function of these inputs
  (`QcRuns.RunIsDetermined`).
* A thing message is stored as a whole or not at all; loading the thing, link by link and cached or not, gives
  what the message says; other things and other projects keep what they had; ids stay; over any sequence of
  messages each is accepted exactly if it is not refused where it comes, and every thing is as its last accepted
  message says; when a second delivery has an effect is stated
  exactly (`ConfigDb.Updater`, `ThingReader`).
* Every schedule reachable by creation and updates fires forever with the last adjusted interval as its
  constant gap; schedules of several days have bounded gaps; when their sampling goes wrong is stated exactly.
* A migration does what it is for, exactly if the headers are distinct and none of them is an old position.
* Listing, synchronising, membership changes, column splitting and line filtering each have a whole-run theorem.

Where the code and its comments disagree, the model follows the code:

* `_fetch_context` announces `window + 1` values for an integer window; what comes is `window` or `window + 1`
  of them, depending on what the cache held (`Datastreams.CountedReadDependsOnTheWindow`).
* `upsert_schema_thing_mapping` logs an update when the schema of a known thing changes, but adds a second row
  (`ConfigDb.SchemaMappingStaysSingle`).
* `store_qaqc_config` looks for the settings of an old message under its project, but stores them without one:
  it never finds its own again, and takes settings of that name away from the project (`ConfigDb.StoreQaqc`,
  `DeliveryExamples.SettingsAreAddedAgain`).
* `upsert_table_file_parser` has a conflict clause for a unique key on the parser uuid that no migration creates;
  without it every new parser is refused (`DeliveryExamples.NewParserIsRefused`).
* After a commit whose constraint cannot be put back, `update_datastreams` reports that no changes were applied;
  they are (`Migration.Migrator.UpdateDatastreams`, ending `Unconstrained`). When a mapping does not match behind
  one that was migrated, the script waits for a lock of its own (ending `Blocked`).
* `update_orgs` asks whether a user is in a team under the number of the organisation, not of the team
  (`Grafana.TeamAfter`).
* In `to_observations` a value that is neither number nor string is lost when its column also holds numbers
  (`PandasParser.RowIsObserved`).
* A plain boolean column is stored as numbers, because it counts as numeric before the boolean branch is asked.

## Model

| member | source | states |
|---|---|---|
| Frames.LocIsTheRange | src/timeio/qc/datastream.py:249-293 | a label slice with optional ends holds exactly the rows within both ends |
| Frames.QueryIsARun | src/timeio/qc/datastream.py:119-165 | the observation query, limited newest first or not, yields a contiguous run of the table, newest first |
| Frames.KeepFirstMember | src/timeio/qc/datastream.py:113-117 | dropping later duplicates keeps, for every time, the first row with it and nothing else |
| Frames.AppendMember | src/timeio/qc/datastream.py:113-117 | appending fetched rows to an ascending frame never replaces a row already there, and adds every fetched row with a new time |
| Frames.AscendingIsUnique | src/timeio/qc/datastream.py:113-117 | an ascending frame is determined by the rows in it, so the order rows arrive in does not matter |
| Frames.AppendWidens | src/timeio/qc/datastream.py:113-165 | appending a query that touches the window gives the wider window of the table, with the local labels still over it |
| Frames.OverlayTwice | src/timeio/qc/datastream.py:302-325 | laying labels over a frame twice equals laying their union over it, the later ones winning |
| Frames.SortOfReverse | src/timeio/qc/datastream.py:135-165 | sorting a newest-first result by index restores the table's order |
| Datastreams.Datastream.constructor | src/timeio/qc/datastream.py:74-97 | a new stream has an empty window that mirrors its table |
| Datastreams.Datastream.FetchInto | src/timeio/qc/datastream.py:113-165 | fetching keeps every cached time, and widens the window to the union of what was there and what was asked for |
| Datastreams.Datastream.WidenWarm | src/timeio/qc/datastream.py:271-286 | a warm read fetches at either end what the interval lacks, leaving no hole even when the interval is disjoint from the window |
| Datastreams.Datastream.Cover | src/timeio/qc/datastream.py:263-288 | afterwards the cached rows of the interval are the table's rows of the interval with the local labels |
| Datastreams.Datastream.DurationContext | src/timeio/qc/datastream.py:185-193 | duration context begins at the first stored row not before `start - window`, and the window is widened to it |
| Datastreams.Datastream.CountContext | src/timeio/qc/datastream.py:195-219 | counted context begins `window` or `window + 1` rows back, and fails with an index error exactly when nothing is stored at or before `start` |
| Datastreams.Datastream.FetchContext | src/timeio/qc/datastream.py:179-219 | the upload pointer becomes the least start of any non-empty read |
| Datastreams.Datastream.GetData | src/timeio/qc/datastream.py:249-293 | row by row: every stored row of the interval is answered, in order of time and with its last local label, and no row that the context does not allow; without context nothing but the interval, with a duration all of it; an index error exactly if rows are to be counted and none is at or before the start, a missing time exactly for an open first read of a product; the window moves exactly as far as the interval and its context need, the start is noted exactly if rows were found; a local stream answers from its own rows |
| Datastreams.Datastream.UpdateQualityLabels | src/timeio/qc/datastream.py:302-325 | labels are laid over the cached rows only, change nothing else of them, and become the local labels of those times |
| Datastreams.Datastream.SetData | src/timeio/qc/datastream.py:462-481 | new data replaces the window, which stops mirroring the table |
| Datastreams.Datastream.GetUnprocessedRange | src/timeio/qc/datastream.py:221-247 | oldest and newest stored row without a label with all such rows between them, asked once; nothing for other kinds |
| Datastreams.Datastream.Upload | src/timeio/qc/datastream.py:327-350 | sends exactly the cached rows at or after some non-empty read's start, in order of time, among them every row a read returned inside its interval; a local stream refuses |
| Datastreams.OldestIs | src/timeio/qc/datastream.py:221-247 | the oldest unlabelled time is a stored, unlabelled one with none before it, and missing only when there is none |
| Datastreams.NewestIs | src/timeio/qc/datastream.py:221-247 | the same for the newest |
| Datastreams.UnprocessedEnds | src/timeio/qc/datastream.py:221-247 | both ends of the unprocessed range are there or neither, and neither exactly if every stored row is labelled |
| Datastreams.NoHoles | src/timeio/qc/datastream.py:271-286 | between its smallest and largest time the window holds exactly the table's rows |
| Datastreams.DurationReadIsExact | src/timeio/qc/datastream.py:185-193 | a closed read with duration `w` yields the rows in `[start - w, end]` if some row lies in `[start, end]`, and nothing otherwise |
| Datastreams.ReadShows | src/timeio/qc/datastream.py:249-293 | every answer in terms of the stored rows, for any window, open or closed |
| Datastreams.ReadIsPlain | src/timeio/qc/datastream.py:195-219 | when a read of a stored stream fails, in terms of the stored rows |
| Datastreams.CountedReadBounds | src/timeio/qc/datastream.py:195-219 | a counted read is a contiguous run whose part at or before `start` has between `min(w, available)` and `w + 1` rows; it fails exactly when nothing is available |
| Datastreams.CountedReadDependsOnTheWindow | src/timeio/qc/datastream.py:195-219 | when two windows give different counted reads, exactly |
| Datastreams.CountedContextDiffers | src/timeio/qc/datastream.py:195-219 | two short histories on one table with different answers to the same counted read |
| Datastreams.OpenReadMayBeStale | src/timeio/qc/datastream.py:274-286 | an open read of a warm window agrees with the table exactly if no stored row at or after `start` lies behind the window |
| Datastreams.OpenReadMisses | src/timeio/qc/datastream.py:274-286 | two short histories on a table of two rows: an open read of a new stream has both, behind a closed read of the first row it has one |
| Datastreams.LocalContextMayHaveAGap | src/timeio/qc/datastream.py:536-571 | a local stream's counted context is the last rows before `start` exactly if some row sits at `start` or none lies before it |
| Datastreams.LocalContextMisses | src/timeio/qc/datastream.py:536-571 | a local stream of two rows whose counted context leaves out the nearest |
| Datastreams.LocalReadIsPlain | src/timeio/qc/datastream.py:536-571 | a local stream answers exactly its rows within, with a duration those from that much earlier on, and with a count at least all rows within and only its own |
| Datastreams.UploadSelection | src/timeio/qc/datastream.py:327-332 | slicing from the upload pointer selects exactly the rows at or after some start |
| QcRuns.ParseContextWindow | src/timeio/qc/qctest.py:19-40 | the window is the count or the time difference that is set, no rows if nothing is; anything negative or unreadable is refused |
| QcRuns.ClosedRead | src/timeio/qc/datastream.py:249-293 | a closed read with a duration does not depend on the window |
| QcRuns.LoadedIsPlain | src/timeio/qc/qctest.py:116-139 | what a test loads of stored data, row by row |
| QcRuns.ReadStream | src/timeio/qc/qctest.py:116-139 | a stream is read with the range known so far, or else its own unprocessed range; it yields the rows of the table behind its window or the one error there is, keeps every cached row and caches what it answers, moves the window as the read must, notes its start exactly if there are rows, and their times for the upload, and changes nothing else |
| QcRuns.DurationIsLoaded | src/timeio/qc/qctest.py:116-139 | what a test loads from a closed range with a duration are exactly the labelled rows of the table |
| QcRuns.CountIsLoaded | src/timeio/qc/qctest.py:116-139 | what a test loads with a count is a run of labelled rows with between `min(n, available)` and `n + 1` rows at or before the start |
| QcRuns.StreamManager.GetStream | src/timeio/qc/stream_manager.py:71-92 | a stream is made once: temporary without a thing, a product without a stream, immutable with both, over the table its information names; it is the same object ever after |
| QcRuns.StreamManager.LoadData | src/timeio/qc/qctest.py:116-139 | every stream of a test is read once, with the given range or else the range of the first stream with unlabelled rows, and has cached what was loaded of it; all others are left alone; it stops in the first read that fails, with the streams before it loaded |
| QcRuns.RangesAreInForce | src/timeio/qc/qctest.py:131-135 | a given start decides the range of every stream; otherwise it is the range of the unlabelled rows of the first stream that has any |
| QcRuns.StreamManager.UpdateOne | src/timeio/qc/stream_manager.py:94-110 | immutable streams only take labels, other streams take data and labels, an unknown name becomes a local stream, all other streams are untouched |
| QcRuns.StreamManager.Update | src/timeio/qc/stream_manager.py:94-110 | every stream with a column takes its labels, products and temporary variables its rows as well, an unknown name becomes a temporary variable, and all other streams stay |
| QcRuns.UpdatedIs | src/timeio/qc/stream_manager.py:94-110 | storing a result lays its labels over the cached rows of immutable streams and adds them to the labels kept, moves no upload start, and adds local streams only |
| QcRuns.AllResultsStored | src/timeio/qc/stream_manager.py:94-110 | what storing a result leaves in every stream, row by row |
| QcRuns.StreamManager.Upload | src/timeio/qc/stream_manager.py:112-125 | exactly the streams that are not local send, each from its least start on |
| QcRuns.StreamManager.Run | src/run_qc.py:133-166 | every test loads its streams from where the one before left them, a given range is used for all, and every stored row of it is sent; in the end every stream has exactly the starts its reads noted and, if immutable, the labels of all results for rows cached then; what is sent are stored rows under these labels, with all rows that were read within a range and none in front of every start; it fails only in a read that may fail, exactly then if there are no products and open ends |
| QcRuns.StandsAfterTest | src/run_qc.py:133-166 | what one more test adds for one stream: starts, labels and rows to send |
| QcRuns.StandingIsSent | src/timeio/qc/datastream.py:327-332 | from where a stream stands follows what is sent for it, for every range it was read with |
| QcRuns.NoneLeftUnlabelled | src/timeio/qc/qctest.py:116-139 | without a given range, every unlabelled stored row of the first stream of any test is sent |
| QcRuns.GivenIsSent | src/run_qc.py:118-166 | with a given closed range, every stored row of it is sent for every immutable stream that was read |
| QcRuns.LabelIsSent | src/timeio/qc/stream_manager.py:94-125 | a row that a test loads within its range is sent, with the label that the result of this or a later test gives it, unless a still later one relabels it |
| QcRuns.CachedStays | src/timeio/qc/datastream.py:113-117 | a cached row of stored data stays cached from test to test |
| QcRuns.RunIsDetermined | src/run_qc.py:133-166 | two runs of the same tests and results on the same streams that get through send the same rows under the same labels for stored data |
| QcRuns.StoppedWhereItMay | src/run_qc.py:133-166 | a run that stops does so in a read of which it is known before that it may fail |
| QcRuns.PassedNoFailure | src/run_qc.py:133-166 | a test that loads all its streams has no closed read of stored data with rows to count back and none there |
| QcRuns.FailuresAreCertain | src/run_qc.py:133-166 | without products and open ends, every read that may fail does |
| ReadHistory.Replay | src/timeio/qc/datastream.py:249-325 | over any history of reads and labels, the window in front of every step, the labels kept and the answers, failures included, are told from the table, the first window and the first labels; a closed read with a duration answers straight from the table; cached times only grow and take in what was answered |
| ReadHistory.LabelsStick | src/timeio/qc/datastream.py:302-325 | a label for a row answered before stays until another is written for that time, whatever is fetched in between |
| ConfigDb.UpsertMqtt | src/timeio/configdb.py:346-370 | the thing's own row is rewritten, or a row with a fresh id is added; nothing else changes |
| ConfigDb.UpsertSftp | src/timeio/configdb.py:373-410 | the same for the external SFTP row |
| ConfigDb.UpsertApi | src/timeio/configdb.py:413-433 | the same for the external API row, refused for an unknown API type |
| ConfigDb.UpsertParser | src/timeio/configdb.py:276-298 | a linked parser row is rewritten; without a link the row that has the uuid is taken over, or one is added, which needs a unique key on the uuid |
| ConfigDb.StoreLinks | src/timeio/configdb.py:489-557 | all sections of a message stored or the message refused; absent sections leave the link empty |
| ConfigDb.OwnedOrNew | src/timeio/configdb.py:187-237 | an insert-or-update through the thing's own link or a fresh id keeps keys and ownership |
| ConfigDb.OthersKept | src/timeio/configdb.py:482-557 | storing one thing changes no row another thing owns |
| ConfigDb.StoreProject | src/timeio/configdb.py:482-486 | the project and its database row say what the message says, and other projects keep theirs |
| ConfigDb.StoreQaqc | src/timeio/configdb.py:664-710 | the settings of an old message go to a row that no thing has and that is no project's then; a project loses a row exactly if it has one of that name, and only that one; all other settings stay |
| ConfigDb.UpsertSchemaMapping | src/timeio/configdb.py:70-97 | the pair of schema and thing is in the mapping afterwards, and none is taken out |
| ConfigDb.SchemaMappingStaysSingle | src/timeio/configdb.py:70-97 | a thing keeps a single mapping exactly if every earlier one names the same schema |
| ConfigDb.ParserUuidsAreApart | src/timeio/configdb.py:489-557 | parser uuids agree exactly for the same name in the same project |
| ConfigDb.StoreThing | src/timeio/configdb.py:489-557 | thing, sections and the parser that the index names are in the tables as sent; refused exactly for an unknown ingest type, an API without type, an index without parser, an unknown parser type or a parser row the table does not take; others kept |
| ConfigDb.StoredSays | src/timeio/configdb.py:489-557 | what is stored, row by row: each section under its type, the parser named by the index, counted from the end if negative |
| ConfigDb.RefusalIs | src/timeio/configdb.py:489-557 | when a message is refused, in terms of the tables and the message |
| ConfigDb.StoredIsLoaded | src/timeio/feta.py:341-374 | what is well stored is read back as the message says, None for absent sections |
| ConfigDb.Updater.ThingUpdate | src/run_configdb_updater.py:156-212 | all of a message or nothing: the tables say, row by row, what an accepted message says; tables stay well formed and separated, a refused message changes nothing; one parser row at most changes and the thing is linked to the one the index names; a settings row is taken from the project exactly if there is one of that name; type names, other things and other projects stay as they are; ids stay |
| ConfigDb.Updater.Redelivered | src/run_configdb_updater.py:156-212 | delivering twice equals delivering once exactly if the message brings no settings and no parser row that says something else is adopted; the second delivery is refused exactly if the first lost the link to its parser and there is no unique key |
| ConfigDb.Updater.Process | src/run_configdb_updater.py:156-212 | over any sequence of messages, each is accepted exactly if it is not refused where it comes, and does what one message does to things, projects and parsers; names of types and the parser key stay; in the end every thing loads as its last accepted message says, every project is as its last accepted one says, and things and projects of no accepted message keep their rows |
| DeliveryExamples.AdoptedParserIsRewritten | src/timeio/configdb.py:276-298 | two things of one project with parsers of one name: the first delivery of the second thing leaves the parser row of the first as it is, the second rewrites it |
| DeliveryExamples.SettingsAreAddedAgain | src/timeio/configdb.py:664-710 | an old message delivered twice: its settings are there in two rows, and the thing has the later one |
| DeliveryExamples.MovedThingHasTwoSchemas | src/timeio/configdb.py:70-97 | a thing moved from one schema to another has two mappings |
| DeliveryExamples.NewParserIsRefused | src/timeio/configdb.py:187-237 | a first message with a parser, refused without the unique key and accepted with it |
| ThingMessages.PreparedSections | src/run_configdb_updater.py:24-117 | exactly the sections without their relevant value become absent; a null section makes the message unreadable; old messages bring settings, later ones do not |
| ThingMessages.SettingsPrepared | src/run_configdb_updater.py:183-200 | an old message is usable exactly if it has settings at the index it names, with a name, a window and complete tests |
| ThingMessages.PreparedSaysTheSame | src/run_configdb_updater.py:24-117 | a prepared message has every field of the raw one, and the defaults where version 4 has none |
| ThingMessages.UnpreparedHasNoReading | src/run_configdb_updater.py:24-117 | a message is refused only if no message says the same |
| ThingMessages.DigitsAreDecimal | src/timeio/configdb.py:611-618 | tests of old messages are numbered in decimal |
| ThingMessages.Receive | src/run_configdb_updater.py:24-212 | a message is stored exactly if it can be read and is not refused; the tables then say what the raw message says, field by field, with the defaults of version 4 |
| Feta.TraceSplits | src/timeio/feta.py:98-133 | following links is compositional: a run and one more step |
| Feta.FoundIsHeld | src/timeio/feta.py:98-134 | an object found can be asked for its links next, cache cleared or not |
| Feta.LinkNames | src/timeio/feta.py:426-625 | which classes have which links; a link reads the key column of its own name |
| Feta.Session.Get | src/timeio/feta.py:98-133 | the getter gives nothing for a null key, an error for an unknown link or a missing row, and else the first row of that id, as without the cache, which it keeps coherent |
| Feta.Session.CacheSet | src/timeio/feta.py:250-265 | an entry is the row of its class and id; without caching nothing is kept |
| Feta.Session.ClearTheCache | src/timeio/feta.py:250-265 | an empty cache is coherent |
| Feta.Session.Run | src/timeio/feta.py:98-181 | any sequence of link accesses, on any objects reached so far, and of cache clearings gives what it gives without the cache |
| Feta.TransparentIffCoherent | src/timeio/feta.py:250-265 | once tables change, all accesses are right exactly if every entry still is its row |
| Feta.AccessIsRight | src/timeio/feta.py:250-265 | a single access is right exactly if its entry is missing or still is the row |
| ThingReader.ReadThing | src/timeio/feta.py:98-133 | following the links of a thing through a session, cached or not, yields what its rows say |
| ThingReader.StoredThenRead | src/timeio/feta.py:341-374 | a message that is stored is read back by links as it says |
| CronSchedule.AdjustIsFloor | src/setup_crontab.py:168-190 | adjusting yields the greatest supported period not above the interval, weeks included |
| CronSchedule.AdjustIsMonotoneAndIdempotent | src/setup_crontab.py:168-190 | hence it is monotone, and adjusting twice is adjusting once |
| CronSchedule.MinuteSteps | src/setup_crontab.py:168-190 | the minute table holds exactly the divisors of an hour |
| CronSchedule.HourSteps | src/setup_crontab.py:168-190 | the hour table holds exactly the whole hours that divide a day |
| CronSchedule.NewScheduleKeeps | src/setup_crontab.py:105-156 | every drawn schedule fires forever with the adjusted interval as its constant gap |
| CronSchedule.NewScheduleFires | src/setup_crontab.py:126-155 | a new schedule fires exactly at the minute, hour, day of week and days of the month drawn for it |
| CronSchedule.CurrentIntervalIs | src/setup_crontab.py:158-166 | the sampled gap of such a schedule is its period |
| CronSchedule.UpdateKeeps | src/setup_crontab.py:192-255 | after an update the gap is the new adjusted interval; the base minute stays unless it is not below a new sub-hour step; an unchanged interval changes nothing |
| CronSchedule.UpdateFires | src/setup_crontab.py:222-258 | an update of the period fires at the old base minute where it fits, and at the old base hour from a day on |
| CronSchedule.BaseIsFirst | src/setup_crontab.py:190-220 | the base value of a field is the first one it takes |
| CronSchedule.ReachableScheduleKeeps | src/setup_crontab.py:105-255 | any draw followed by any updates fires with the last adjusted interval as its gap |
| CronSchedule.MultiDayGaps | src/setup_crontab.py:122-156 | a schedule of several days fires in every month; gaps are the step within a month and at most `step - 1 + start` days across months |
| CronSchedule.NextIsHit | src/setup_crontab.py:122-156 | day by day, the next firing day behind a firing day |
| CronSchedule.SampledSeveralDays | src/setup_crontab.py:158-166 | when sampling reads a schedule of several days rightly, exactly |
| CronSchedule.TwentyDaysReadAsEleven | src/setup_crontab.py:158-166 | a schedule of 20 days that is read as one of 11: an update that asks for 11 keeps it, one for 20 rewrites it |
| Crontab.SplitGivesBack | src/setup_crontab.py:95-103 | splitting the comment gives back the uuid, whatever separators the names hold, exactly if the part in front does not end in a bar that the separator swallows |
| Crontab.NamesNotEndingInABar | src/setup_crontab.py:95-103 | names that do not end in a bar are always safe |
| Crontab.JobIsFoundAgain | src/setup_crontab.py:37-103 | a written job is recognised again exactly if its comment can be read |
| Crontab.SwallowedBar | src/setup_crontab.py:95-103 | a name ending in a space and a bar is not |
| Crontab.ApplyJobServes | src/setup_crontab.py:59-93 | the job written for a thing has its uuid, command and comment, the switch and interval of its SFTP server or else of its API, fires at the drawn phase if it is new, and keeps its schedule or base minute if it was there |
| Crontab.Tab.Act | src/setup_crontab.py:37-57 | a thing with an SFTP server has a job that serves that, one with only an API a job that serves this; with neither, or on failure, nothing changes; other things' jobs stay where and as they are and none is added for them; still one job per thing |
| Crontab.Tab.ActAll | src/setup_crontab.py:37-57 | over any sequence of events there is at most one job per thing, serving the last SFTP server or API asked for; things that no event mentions have the jobs they had, no more and no less |
| Migration.ComparisonMeans | migrations/worker_file_ingest/compare_datastreams.py:77-103 | two streams compare equal exactly if the position stream repeats every header observation and has nothing else between them |
| Migration.Migrator.CompareDatastreams | migrations/worker_file_ingest/compare_datastreams.py:77-103 | succeeds exactly if the mapping is not empty and all streams exist; every pair is reported with its streams and whether they match |
| Migration.Migrator.RenameDatastream | migrations/worker_file_ingest/process_datastream_migrations.py:110-134 | every stream of the thing at the position has the new position and name, every other stream and all observations are as before; unknown things are reported |
| Migration.Migrator.DeleteDatastreamObservations | migrations/worker_file_ingest/process_datastream_migrations.py:137-150 | the stream has no observations left, if it is the thing's, and every other stream has all of its own |
| Migration.Migrator.DeleteDatastream | migrations/worker_file_ingest/process_datastream_migrations.py:153-165 | exactly the stream goes, and no observation is left without its stream |
| Migration.MappedIsRenamed | migrations/worker_file_ingest/process_datastream_migrations.py:57-73 | under a safe mapping the renaming steps in order take a stream at an old position to its header and no further |
| Migration.MigrationSucceedsIffSafe | migrations/worker_file_ingest/process_datastream_migrations.py:55-76 | every position stream becomes its header's stream with all its observations, and the constraint holds again, exactly if headers are distinct and none is an old position |
| Migration.NothingIsLost | migrations/worker_file_ingest/process_datastream_migrations.py:55-76 | the header's name belongs to one stream, which has all observations of both streams of the pair |
| Migration.TradedNamesLoseEverything | migrations/worker_file_ingest/process_datastream_migrations.py:55-76 | two positions that trade names are both deleted |
| Migration.Migrator.Migrate | migrations/worker_file_ingest/process_datastream_migrations.py:44-76 | a file changes the store exactly if all its streams exist and match; other things are untouched |
| Migration.Migrator.UpdateDatastreams | migrations/worker_file_ingest/process_datastream_migrations.py:36-89 | how a run ends is decided by the first file that cannot be migrated: rolled back if a stream is missing, ended if it is the first file, waiting for ever behind an earlier one; without such a file all changes are committed, and the constraint is put back exactly if it holds |
| Migration.RunRestoresUniqueness | migrations/worker_file_ingest/process_datastream_migrations.py:81-83 | after a finished run over safe mappings the constraint can be put back |
| RemoteFs.ListingMembers | src/timeio/remote_fs.py:208-222 | the listing holds exactly the nodes that can be reached by walking down |
| RemoteFs.ListingIsDistinct | src/timeio/remote_fs.py:208-222 | no path is listed twice |
| RemoteFs.ListingHasParentsFirst | src/timeio/remote_fs.py:208-222 | every directory is listed before what it contains |
| RemoteFs.FtpFS.GetFiles | src/timeio/remote_fs.py:208-222 | filling the dictionary in place gives the listing, behind what was there |
| RemoteFs.Target.Sync | src/timeio/remote_fs.py:261-285 | a file is written exactly if it is missing, has another size or is older than the source records, directories are made, others are untouched, the count is that of the files written; it stops at the first path that has a file where a directory should be or the other way round, exactly, with the paths in front of it brought up to date |
| RemoteFs.CopiesAreWritten | src/timeio/remote_fs.py:277-284 | what is counted are the files that are due |
| RemoteFs.SyncFrom | src/timeio/remote_fs.py:198-285 | the same from a source tree: it gets through exactly if no path is blocked; nothing is ever written into a missing directory |
| RemoteFs.SyncedFiles | src/timeio/remote_fs.py:56-68 | afterwards every source file is in the target with its size, and with its content exactly if it was copied or had been the same |
| RemoteFs.SecondRunCopies | src/timeio/remote_fs.py:277-284 | a second run copies a file again exactly if the first copied it and the target stamped it earlier than the source |
| RemoteFs.SecondRunIsIdle | src/timeio/remote_fs.py:261-285 | with stamps no earlier than the source's times the second run copies nothing |
| RemoteFs.SyncKeepsTheTree | src/timeio/remote_fs.py:261-285 | without conflicts the target stays a tree |
| Grafana.Server.UpdateOrgs | src/timeio/grafana/user.py:71-118 | the role in every organisation but the main one is the wanted one or none, the main one and other users are untouched, every membership change is made in the organisation it is for, every team change in the main one |
| Grafana.Server.UpdateOrg | src/timeio/grafana/user.py:93-118 | one organisation: role, membership changes and teams after it; no call is made that the server refuses |
| Grafana.Server.ReplaceRole | src/timeio/grafana/user.py:103-110 | out and in again gives the new role and touches nobody else |
| Grafana.Server.AddToTeam | src/timeio/grafana/user.py:61-64 | the user is in the team of that name if there is one |
| Grafana.Server.RemoveFromTeam | src/timeio/grafana/user.py:66-69 | the user is not in the team of that name |
| Grafana.RoleAfter | src/timeio/grafana/user.py:93-118 | the role in each organisation after the loop |
| Grafana.NoChangesIffAgree | src/timeio/grafana/user.py:71-118 | no membership is changed exactly if all roles are as wanted |
| Grafana.UpdateOrgsTwice | src/timeio/grafana/user.py:71-118 | a second run changes no membership |
| Grafana.TeamAfter | src/timeio/grafana/user.py:97-118 | in the team when added, out of it when removed; when kept, missing from it exactly if it was before and the organisation's number is that of a team the user is in by then, which the teams of before and the organisation with that team decide |
| Grafana.TeamMissedByNumber | src/timeio/grafana/user.py:111-113 | a user in a team with the number of an organisation who misses the team of that organisation |
| PandasParser.ToObservations | src/timeio/parser/pandas_parser.py:36-95 | fails exactly on an unsupported column, naming the last one, and yields exactly the observations that the rows of all columns give, none lost or doubled |
| PandasParser.ColumnConserved | src/timeio/parser/pandas_parser.py:55-72 | splitting a column any number of times yields the observations of its rows one by one |
| PandasParser.RowIsObserved | src/timeio/parser/pandas_parser.py:44-94 | a row gives exactly one observation, with its time, column and a result type that fits the field, exactly if it has a value and is not lost in a mixed column; when the value is the expected one, exactly |
| PandasParser.FileGives | src/timeio/parser/pandas_parser.py:44-94 | which observations a file gives: numbers of numeric columns and of object columns as numbers, text that reads as a number too, other text stripped beside numbers and as it is without |
| PandasParser.ListIsLost | src/timeio/parser/pandas_parser.py:68-71 | a column of a list and a number that loses the list, and one of the list alone that keeps it |
| PandasParser.StrippedToANumber | src/timeio/parser/pandas_parser.py:68-71 | a string that stripping makes a number, and that becomes one |
| PandasParser.Strings | src/timeio/parser/pandas_parser.py:68-70 | the string part of a mixed column is shorter than the column |
| StripDepends.ProcessCompose | strip_depends.py:3-47 | the output is a subsequence; only init and flyway lines, lines with a condition and headers go, and in a tidy file all that is to go does; every header left has another dependency in its block |
| StripDepends.LinesMeant | strip_depends.py:16-33 | which lines are looked for |
| StripDepends.HeaderKeepsADependency | strip_depends.py:27-41 | in the output, the block of a header left holds a dependency that is neither init nor flyway |
| StripDepends.DropBlock | strip_depends.py:27-41 | a header goes with its whole block only when the block holds nothing else |

## Left out

- I/O: SQL text, HTTP, MQTT, SFTP, MinIO and Grafana clients, logging and the journal; only their effect on tables, trees and servers is modelled.
- Other programs: pandas, SaQC, python-crontab and croniter appear as sorted rows, arbitrary test results, field records and a search for the next firing time.
- The database is taken as fixed while a quality-control run reads it, and times as unique per stream, as the observation table demands.
- Duplicate rows from the link join of `sms_datastream_link`, `_append(overwrite=True)` (which nothing calls), and looking up schema and thing uuid.
- Datastreams.Datastream.GetData: an open-ended first read of a product hands the database a missing time; the model takes the database to refuse it.
- Datastreams.Datastream.SetData: takes rows sorted by time, because everything that reads a stream assumes it; a product stream is only framed afterwards, its window is no longer a view of the table.
- Open-ended reads of a warm window: `OpenReadMayBeStale` says when they are right; in `Replay` they answer through the window.
- QcRuns.StreamManager.Run: what a product stream sends is known from its starts and the rows it has then, but whether a read of it fails is said before the run only in one direction (`MayFail`), because that depends on the data the results give it.
- Finding the streams of a thing for tests that name none; such a test is taken with the streams found.
- ConfigDb: ids come from sequences, and a value a conflicting insert burns is not modelled; `uuid5` is its injective text (section 5.5 of RFC 9562).
- ConfigDb.UpsertParser: the settings of a parser row that several things share may be rewritten by either, so they are kept out of what other things keep.
- ConfigDb.Updater.ThingUpdate: informing other services, which can fail and then rolls back as well.
- ConfigDb.StoreQaqc: settings sent in messages of their own, and the trigger that keeps one default per project, which settings without a project do not set off.
- ThingReader.ReadThing: the settings of a thing, which are not reached by a cached link.
- Feta lists (`get_things`, `get_tests`), lookups by name, and connections.
- Crontab.Tab.Act: a new job is not part of the tab until it is appended; rendering and parsing of the crontab file are not modelled. Random draws and the text of the current time are parameters.
- Schedules of several days within update chains: the sampled gap can be wrong, and `SampledSeveralDays` says when.
- Migration: mapping files name distinct things; taking the constraint off and putting it back is the premise and conclusion of the theorems, not a step; the parser clean-up and moving of files.
- Migration.Migrator.Migrate: takes old positions of one thing to be unique, which the constraint that is dropped just before guarantees.
- RemoteFs: paths are sequences of names; sizes are those of the contents; the time zone in the modification times of an object store; transfers that break off.
- Grafana: creation of organisations and teams; the server's refusal to remove an organisation's last administrator.
- PandasParser: parsing of files, the parameters column, and object columns with booleans among other values.
- StripDepends: reading and writing the file; white space outside ASCII.
- External API syncers, device parsers, dashboards, FROST files, encryption, Keycloak.
