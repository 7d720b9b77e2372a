/** The crontab: one job per thing, recognised by the comment written in front of it. */
module Crontab {
  import opened Wrappers
  import opened CronSchedule

  // ---------------------------------------------------------------- comments

  const SEPARATOR := " | "

  /** The separator sits at index `i`. */
  predicate SepAt(s: string, i: nat) {
    i + 3 <= |s| && s[i] == ' ' && s[i + 1] == '|' && s[i + 2] == ' '
  }

  /** First separator at or behind `from`. */
  function NextSep(s: string, from: nat): (i: Option<nat>)
    ensures i.Some? ==> from <= i.value && SepAt(s, i.value) && forall k: nat :: from <= k < i.value ==> !SepAt(s, k)
    ensures i.None? ==> forall k: nat :: from <= k ==> !SepAt(s, k)
    decreases |s| - from
  {
    if from + 3 > |s| then None
    else if SepAt(s, from) then Some(from)
    else NextSep(s, from + 1)
  }

  /** `s[from:].split(" | ")[-1]`, scanning from left to right */
  function LastPiece(s: string, from: nat): string
    requires from <= |s|
    decreases |s| - from
  {
    var i := NextSep(s, from);
    if i.None? then s[from..] else LastPiece(s, i.value + 3)
  }

  function Comment(head: string, uuid: string): string {
    head + SEPARATOR + uuid
  }

  /** A uuid contains neither a space nor a bar. */
  predicate Plain(uuid: string) {
    uuid != [] && forall i :: 0 <= i < |uuid| ==> uuid[i] != ' ' && uuid[i] != '|'
  }

  predicate EndsWithBar(s: string) {
    |s| >= 2 && s[|s| - 2] == ' ' && s[|s| - 1] == '|'
  }

  lemma SepInComment(head: string, uuid: string, k: nat)
    requires Plain(uuid)
    ensures SepAt(Comment(head, uuid), k) <==>
            SepAt(head, k) || k == |head| || (k + 2 == |head| && EndsWithBar(head))
  {
    var c := Comment(head, uuid);
    assert |c| == |head| + 3 + |uuid|;
    assert forall i :: 0 <= i < |c| ==>
             c[i] == if i < |head| then head[i]
                     else if i < |head| + 3 then SEPARATOR[i - |head|]
                     else uuid[i - |head| - 3];
  }

  /** Splitting the written comment gives back the uuid exactly if what stands in front of it does not
      end, behind its own last separator, in a bar that the separator would swallow. */
  lemma {:induction false} SplitGivesBack(head: string, uuid: string, from: nat)
    requires Plain(uuid) && from <= |head|
    ensures LastPiece(Comment(head, uuid), from) == uuid <==> !EndsWithBar(LastPiece(head, from))
    decreases |head| - from
  {
    var i := NextSep(head, from);
    if i.Some? {
      SameNext(head, uuid, from);
      SplitGivesBack(head, uuid, i.value + 3);
    } else {
      assert LastPiece(head, from) == head[from..];
      if EndsWithBar(head[from..]) { BarSwallows(head, uuid, from); } else { BarDivides(head, uuid, from); }
    }
  }

  lemma SepsInComment(head: string, uuid: string)
    requires Plain(uuid)
    ensures forall k: nat :: SepAt(Comment(head, uuid), k) <==>
              SepAt(head, k) || k == |head| || (k + 2 == |head| && EndsWithBar(head))
  {
    forall k: nat
      ensures SepAt(Comment(head, uuid), k) <==>
              SepAt(head, k) || k == |head| || (k + 2 == |head| && EndsWithBar(head))
    {
      SepInComment(head, uuid, k);
    }
  }

  lemma SameNext(head: string, uuid: string, from: nat)
    requires Plain(uuid) && from <= |head| && NextSep(head, from).Some?
    ensures NextSep(Comment(head, uuid), from) == NextSep(head, from)
  {
    var at := NextSep(head, from).value;
    SepsInComment(head, uuid);
    NextSepIs(Comment(head, uuid), from, at);
  }

  lemma NextSepIs(s: string, from: nat, at: nat)
    requires from <= at && SepAt(s, at) && forall k: nat :: from <= k < at ==> !SepAt(s, k)
    ensures NextSep(s, from) == Some(at)
  {
    var found := NextSep(s, from);
    assert found.Some?;
  }

  /** Otherwise the bar behind the head is where the uuid begins. */
  lemma BarDivides(head: string, uuid: string, from: nat)
    requires Plain(uuid) && from <= |head| && NextSep(head, from).None? && !EndsWithBar(head[from..])
    ensures LastPiece(Comment(head, uuid), from) == uuid
  {
    var c := Comment(head, uuid);
    SepsInComment(head, uuid);
    BarInside(head, from);
    assert SepAt(c, |head|);
    assert NextSep(c, from) == Some(|head|);
    assert NextSep(c, |head| + 3).None?;
    assert LastPiece(c, from) == c[|head| + 3..] == uuid;
  }

  /** A bar at the end of the head pairs up with the one behind it, and the piece is too long. */
  lemma BarSwallows(head: string, uuid: string, from: nat)
    requires Plain(uuid) && from <= |head| && NextSep(head, from).None? && EndsWithBar(head[from..])
    ensures LastPiece(Comment(head, uuid), from) != uuid
  {
    var c := Comment(head, uuid);
    SepsInComment(head, uuid);
    assert EndsWithBar(head) && SepAt(c, |head| - 2);
    assert NextSep(c, from) == Some(|head| - 2);
    assert NextSep(c, |head| + 1).None?;
    assert LastPiece(c, from) == c[|head| + 1..];
    assert |c[|head| + 1..]| == |uuid| + 2;
  }

  lemma BarInside(head: string, from: nat)
    requires from <= |head| && NextSep(head, from).None? && !EndsWithBar(head[from..])
    ensures from + 2 <= |head| ==> !EndsWithBar(head)
  {
  }

  lemma {:induction false} LastPieceIsASuffix(s: string, from: nat)
    requires from <= |s|
    ensures var p := LastPiece(s, from); |p| <= |s| && p == s[|s| - |p|..]
    decreases |s| - from
  {
    var i := NextSep(s, from);
    if i.Some? {
      LastPieceIsASuffix(s, i.value + 3);
    } else {
      assert |s| - |s[from..]| == from;
    }
  }

  // ---------------------------------------------------------------- jobs

  datatype Sync = Sync(interval: nat, enabled: bool)

  datatype Thing = Thing(uuid: string, project: string, name: string, sftp: Option<Sync>, api: Option<Sync>)

  datatype Job = Job(comment: string, command: string, schedule: Schedule, enabled: bool)

  function Head(thing: Thing, now: string): string {
    now + SEPARATOR + thing.project + SEPARATOR + thing.name
  }

  function Command(uuid: string): string {
    "python3 /scripts/mqtt_sync_wrapper.py sync-thing " + uuid + " > $STDOUT 2> $STDERR"
  }

  /** SFTP goes before API. */
  function SyncOf(thing: Thing): Option<Sync> {
    if thing.sftp.Some? then thing.sftp else thing.api
  }

  /** Uuid a job is taken to belong to. */
  function KeyOf(job: Job): string {
    LastPiece(job.comment, 0)
  }

  /** The comment written for a thing can be read again. */
  predicate Readable(thing: Thing, now: string) {
    Plain(thing.uuid) && !EndsWithBar(LastPiece(Head(thing, now), 0))
  }

  /** A name that does not end in a bar is always readable, whatever else it contains. */
  lemma NamesNotEndingInABar(thing: Thing, now: string)
    requires Plain(thing.uuid) && (thing.name == "" || thing.name[|thing.name| - 1] != '|')
    ensures Readable(thing, now)
  {
    var head := Head(thing, now);
    LastPieceIsASuffix(head, 0);
    var piece := LastPiece(head, 0);
    assert head[|head| - 1] == if thing.name == "" then SEPARATOR[2] else thing.name[|thing.name| - 1];
    if |piece| >= 2 {
      assert piece[|piece| - 1] == head[|head| - 1];
    }
  }

  /** A new job is found again by its thing exactly if the comment can be read again; a thing whose
      comment cannot gets another job with every update. */
  lemma JobIsFoundAgain(thing: Thing, now: string, command: string, schedule: Schedule, enabled: bool)
    requires Plain(thing.uuid)
    ensures KeyOf(Job(Comment(Head(thing, now), thing.uuid), command, schedule, enabled)) == thing.uuid <==>
            Readable(thing, now)
  {
    SplitGivesBack(Head(thing, now), thing.uuid, 0);
  }

  /** A thing whose name ends in a space and a bar is such a case. */
  lemma SwallowedBar(uuid: string, now: string)
    requires Plain(uuid) && now == "now"
    ensures !Readable(Thing(uuid, "p", "n |", None, None), now)
  {
    var head := Head(Thing(uuid, "p", "n |", None, None), now);
    assert head == ['n', 'o', 'w', ' ', '|', ' ', 'p', ' ', '|', ' ', 'n', ' ', '|'];
    assert NextSep(head, 0) == Some(3) by { assert SepAt(head, 3); }
    assert NextSep(head, 6) == Some(7) by { assert SepAt(head, 7); }
    assert NextSep(head, 10).None?;
    assert head[10..] == ['n', ' ', '|'];
    assert LastPiece(head, 10) == head[10..];
    assert LastPiece(head, 6) == LastPiece(head, 10);
  }

  ghost predicate OnePerThing(jobs: seq<Job>) {
    forall i, j :: 0 <= i < j < |jobs| ==> KeyOf(jobs[i]) != KeyOf(jobs[j])
  }

  /** The job fires with an exact period of at most a week. */
  ghost predicate Regular(job: Job, cal: Calendar) {
    exists period: nat :: period <= WEEK && Keeps(job.schedule, cal, period)
  }

  ghost predicate AllRegular(jobs: seq<Job>, cal: Calendar) {
    forall j :: 0 <= j < |jobs| ==> Regular(jobs[j], cal)
  }

  /** The job of thing `uuid` synchronises as asked: switched on or off, with the adjusted interval as
      its exact period. */
  ghost predicate Serves(job: Job, cal: Calendar, uuid: string, sync: Sync) {
    && KeyOf(job) == uuid
    && job.enabled == sync.enabled
    && job.command == Command(uuid)
    && Keeps(job.schedule, cal, AdjustInterval(sync.interval))
  }

  ghost predicate Served(jobs: seq<Job>, cal: Calendar, uuid: string, sync: Sync) {
    exists j :: 0 <= j < |jobs| && Serves(jobs[j], cal, uuid, sync)
  }

  datatype Event = Event(thing: Thing, now: string, draw: Draw)

  /** The event asks for an interval that has an exact period. */
  ghost predicate ValidEvent(e: Event) {
    && Readable(e.thing, e.now)
    && (e.thing.sftp.Some? ==> Proper(e.thing.sftp.value, e.draw))
    && (e.thing.sftp.None? && e.thing.api.Some? ==> Proper(e.thing.api.value, e.draw))
  }

  ghost predicate Proper(sync: Sync, draw: Draw) {
    Exact(sync.interval) && Drawn(AdjustInterval(sync.interval), draw)
  }

  /** A thing with an SFTP server is served as that asks, and one with only an API as that does. */
  ghost predicate ServedAsAsked(jobs: seq<Job>, cal: Calendar, thing: Thing) {
    && (thing.sftp.Some? ==> Served(jobs, cal, thing.uuid, thing.sftp.value))
    && (thing.sftp.None? && thing.api.Some? ==> Served(jobs, cal, thing.uuid, thing.api.value))
  }

  predicate NothingToSync(thing: Thing) {
    thing.sftp.None? && thing.api.None?
  }

  /** What is written into a job for a thing. */
  ghost predicate WrittenFor(job: Job, e: Event) {
    && job.comment == e.now + " | " + e.thing.project + " | " + e.thing.name + " | " + e.thing.uuid
    && job.command == "python3 /scripts/mqtt_sync_wrapper.py sync-thing " + e.thing.uuid + " > $STDOUT 2> $STDERR"
  }

  /** A schedule that has the period asked for stays; another one is moved to it as an update does. */
  ghost predicate Rescheduled(before: Schedule, after: Schedule, cal: Calendar, sync: Sync, draw: Draw) {
    var p, m, h := AdjustInterval(sync.interval), BaseOf(before.minute), BaseOf(before.hour);
    if Keeps(before, cal, p) then after == before
    else p > 0 && FiresAt(after, cal, p, if p <= m && p < HOUR then draw.minute else m, if p < DAY then 0 else h, 1,
                          draw.dow)
  }

  /** A new schedule fires at the phase drawn. */
  ghost predicate Scheduled(s: Schedule, cal: Calendar, sync: Sync, draw: Draw) {
    var p := AdjustInterval(sync.interval);
    p > 0 && FiresAt(s, cal, p, draw.minute, draw.hour, draw.dom, draw.dow)
  }

  /** The schedule of a job that was written: moved if the job was there, drawn if it is new. */
  ghost predicate ScheduledFrom(before: Option<Job>, s: Schedule, cal: Calendar, sync: Sync, draw: Draw) {
    match before
    case Some(job) => Rescheduled(job.schedule, s, cal, sync, draw)
    case None => Scheduled(s, cal, sync, draw)
  }

  /** Every job is as before, or written for the event. */
  ghost predicate WrittenOrKept(before: seq<Job>, after: seq<Job>, e: Event) {
    forall j :: 0 <= j < |after| ==> (j < |before| && after[j] == before[j]) || WrittenFor(after[j], e)
  }

  ghost predicate SchedulesMoved(before: seq<Job>, after: seq<Job>, cal: Calendar, e: Event) {
    forall j :: 0 <= j < |after| && (j < |before| ==> after[j] != before[j]) ==>
      var job := if j < |before| then Some(before[j]) else None;
      && (e.thing.sftp.Some? ==> ScheduledFrom(job, after[j].schedule, cal, e.thing.sftp.value, e.draw))
      && (e.thing.sftp.None? && e.thing.api.Some? ==>
            ScheduledFrom(job, after[j].schedule, cal, e.thing.api.value, e.draw))
  }

  /** Jobs of all things but one stay where and as they are. */
  ghost predicate OthersUntouched(before: seq<Job>, after: seq<Job>, uuid: string) {
    && |after| >= |before|
    && (forall j :: 0 <= j < |before| && KeyOf(before[j]) != uuid ==> after[j] == before[j])
  }

  /** Every job is as before, or the one thing's. */
  ghost predicate OnlyItsOwn(before: seq<Job>, after: seq<Job>, uuid: string) {
    && |before| <= |after| <= |before| + 1
    && forall j :: 0 <= j < |after| ==> (j < |before| && after[j] == before[j]) || KeyOf(after[j]) == uuid
  }

  /** What every job list reached by valid events looks like. */
  ghost predicate Good(jobs: seq<Job>, cal: Calendar) {
    OnePerThing(jobs) && AllRegular(jobs, cal)
  }

  /** `i` is the last event that gives its thing something to synchronise. */
  ghost predicate Latest(events: seq<Event>, i: nat) {
    && i < |events|
    && !NothingToSync(events[i].thing)
    && forall j :: i < j < |events| && events[j].thing.uuid == events[i].thing.uuid ==> NothingToSync(events[j].thing)
  }

  /** What becomes of a job, if there is anything to synchronise. */
  function ApplyJob(cal: Calendar, schedule: Option<Schedule>, e: Event): Result<Option<Job>, CronError> {
    var sync := SyncOf(e.thing);
    if sync.None? then Ok(None)
    else
      var next := if schedule.None? then Ok(NewSchedule(sync.value.interval, e.draw))
                  else UpdateCronExpression(schedule.value, cal, sync.value.interval, e.draw, SEARCH_LIMIT);
      if next.Err? then Err(next.error)
      else Ok(Some(Job(Comment(Head(e.thing, e.now), e.thing.uuid), Command(e.thing.uuid), next.value,
                       sync.value.enabled)))
  }

  lemma ApplyJobIsKeyed(cal: Calendar, schedule: Option<Schedule>, e: Event)
    requires Readable(e.thing, e.now)
    ensures var made := ApplyJob(cal, schedule, e); made.Ok? && made.value.Some? ==>
            KeyOf(made.value.value) == e.thing.uuid
  {
    SplitGivesBack(Head(e.thing, e.now), e.thing.uuid, 0);
  }

  lemma WrittenIs(e: Event, job: Job)
    requires job.comment == Comment(Head(e.thing, e.now), e.thing.uuid) && job.command == Command(e.thing.uuid)
    ensures WrittenFor(job, e)
  {
    assert SEPARATOR == " | ";
  }

  lemma UpdateReschedules(s: Schedule, cal: Calendar, sync: Sync, draw: Draw)
    requires ValidCalendar(cal) && Proper(sync, draw)
    requires exists period: nat :: period <= WEEK && Keeps(s, cal, period)
    ensures var r := UpdateCronExpression(s, cal, sync.interval, draw, SEARCH_LIMIT);
            r.Ok? && Keeps(r.value, cal, AdjustInterval(sync.interval)) && Rescheduled(s, r.value, cal, sync, draw)
  {
    var p := AdjustInterval(sync.interval);
    var period: nat :| period <= WEEK && Keeps(s, cal, period);
    if Keeps(s, cal, p) { period := p; }
    UpdateKeeps(s, cal, period, sync.interval, draw, SEARCH_LIMIT);
    if !Keeps(s, cal, p) {
      CurrentIntervalIs(s, cal, period, SEARCH_LIMIT);
      UpdateFires(s, cal, sync.interval, draw, SEARCH_LIMIT);
    }
  }

  lemma ApplyJobServes(cal: Calendar, old_job: Option<Job>, e: Event, made: Result<Option<Job>, CronError>)
    requires made == ApplyJob(cal, if old_job.None? then None else Some(old_job.value.schedule), e)
    requires ValidCalendar(cal) && ValidEvent(e) && (old_job.Some? ==> Regular(old_job.value, cal))
    ensures made.Ok? && (made.value.Some? <==> SyncOf(e.thing).Some?)
    ensures made.value.Some? ==> Serves(made.value.value, cal, e.thing.uuid, SyncOf(e.thing).value)
    ensures made.value.Some? ==> Regular(made.value.value, cal)
    ensures made.value.Some? ==>
              && WrittenFor(made.value.value, e)
              && ScheduledFrom(old_job, made.value.value.schedule, cal, SyncOf(e.thing).value, e.draw)
  {
    ApplyJobIsKeyed(cal, if old_job.None? then None else Some(old_job.value.schedule), e);
    if SyncOf(e.thing).Some? {
      var interval := SyncOf(e.thing).value.interval;
      if old_job.None? {
        NewScheduleKeeps(interval, e.draw, cal);
        NewScheduleFires(interval, e.draw, cal);
      } else {
        UpdateReschedules(old_job.value.schedule, cal, SyncOf(e.thing).value, e.draw);
      }
      assert Keeps(made.value.value.schedule, cal, AdjustInterval(interval));
      WrittenIs(e, made.value.value);
    }
  }

  /** A thing's own job rewritten. */
  lemma JobReplaced(jobs: seq<Job>, k: nat, job: Job, cal: Calendar, sync: Sync)
    requires k < |jobs| && Good(jobs, cal) && Serves(job, cal, KeyOf(job), sync) && Regular(job, cal)
    requires KeyOf(jobs[k]) == KeyOf(job)
    ensures Good(jobs[k := job], cal) && Served(jobs[k := job], cal, KeyOf(job), sync)
  {
    assert jobs[k := job][k] == job;
  }

  /** A job appended for a thing without one. */
  lemma JobAppended(jobs: seq<Job>, job: Job, cal: Calendar, sync: Sync)
    requires Good(jobs, cal) && Serves(job, cal, KeyOf(job), sync) && Regular(job, cal)
    requires forall j :: 0 <= j < |jobs| ==> KeyOf(jobs[j]) != KeyOf(job)
    ensures Good(jobs + [job], cal) && Served(jobs + [job], cal, KeyOf(job), sync)
  {
    assert (jobs + [job])[|jobs|] == job;
  }

  lemma StillServed(before: seq<Job>, after: seq<Job>, cal: Calendar, changed: string, uuid: string, sync: Sync)
    requires OthersUntouched(before, after, changed) && uuid != changed && Served(before, cal, uuid, sync)
    ensures Served(after, cal, uuid, sync)
  {
    var j :| 0 <= j < |before| && Serves(before[j], cal, uuid, sync);
    assert after[j] == before[j];
  }

  /** What an event does to the tab. Jobs of other things stay, and none is added for them. An event that fails,
      or has nothing to synchronise, changes nothing. There stays at most one job per thing. With an interval of
      exact period, the job serves the thing. */
  ghost predicate Acted(before: seq<Job>, after: seq<Job>, cal: Calendar, e: Event, failed: bool) {
    && OthersUntouched(before, after, e.thing.uuid)
    && (failed || NothingToSync(e.thing) ==> after == before) && WrittenOrKept(before, after, e)
    && (Readable(e.thing, e.now) ==>
          OnlyItsOwn(before, after, e.thing.uuid) && (OnePerThing(before) ==> OnePerThing(after)))
    && (ValidCalendar(cal) && ValidEvent(e) && Good(before, cal) ==>
          && !failed && Good(after, cal)
          && ServedAsAsked(after, cal, e.thing) && SchedulesMoved(before, after, cal, e))
  }

  lemma JobRewritten(jobs: seq<Job>, k: nat, cal: Calendar, e: Event)
    requires k < |jobs| && KeyOf(jobs[k]) == e.thing.uuid
    ensures var made := ApplyJob(cal, Some(jobs[k].schedule), e);
            if made.Err? then Acted(jobs, jobs, cal, e, true)
            else Acted(jobs, if made.value.Some? then jobs[k := made.value.value] else jobs, cal, e, false)
  {
    var made := ApplyJob(cal, Some(jobs[k].schedule), e);
    if Readable(e.thing, e.now) { ApplyJobIsKeyed(cal, Some(jobs[k].schedule), e); }
    if made.Ok? && made.value.Some? { WrittenIs(e, made.value.value); }
    if ValidCalendar(cal) && ValidEvent(e) && Good(jobs, cal) {
      ApplyJobServes(cal, Some(jobs[k]), e, made);
      if made.value.Some? { JobReplaced(jobs, k, made.value.value, cal, SyncOf(e.thing).value); }
    }
  }

  lemma JobCreated(jobs: seq<Job>, cal: Calendar, e: Event)
    requires forall j :: 0 <= j < |jobs| ==> KeyOf(jobs[j]) != e.thing.uuid
    ensures var made := ApplyJob(cal, None, e);
            && made.Ok?
            && Acted(jobs, if made.value.Some? then jobs + [made.value.value] else jobs, cal, e, false)
  {
    var made := ApplyJob(cal, None, e);
    if Readable(e.thing, e.now) { ApplyJobIsKeyed(cal, None, e); }
    if made.value.Some? { WrittenIs(e, made.value.value); }
    if ValidCalendar(cal) && ValidEvent(e) && Good(jobs, cal) {
      ApplyJobServes(cal, None, e, made);
      if made.value.Some? { JobAppended(jobs, made.value.value, cal, SyncOf(e.thing).value); }
    }
  }

  class Tab {
    const cal: Calendar
    var jobs: seq<Job>

    constructor (cal: Calendar)
      ensures this.cal == cal && jobs == []
    {
      this.cal, jobs := cal, [];
    }

    /** One update event: the first job of the thing is rewritten in place, or a new one is appended.
        An event that fails, or has nothing to synchronise, leaves the tab alone. */
    method Act(e: Event) returns (failed: bool)
      modifies this
      ensures Acted(old(jobs), jobs, cal, e, failed)
    {
      for k := 0 to |jobs|
        invariant jobs == old(jobs)
        invariant forall j :: 0 <= j < k ==> KeyOf(jobs[j]) != e.thing.uuid
      {
        if KeyOf(jobs[k]) == e.thing.uuid {
          var updated := ApplyJob(cal, Some(jobs[k].schedule), e);
          JobRewritten(jobs, k, cal, e);
          if updated.Err? { return true; }
          if updated.value.Some? { jobs := jobs[k := updated.value.value]; }
          return false;
        }
      }
      var created := ApplyJob(cal, None, e);
      JobCreated(jobs, cal, e);
      if created.value.Some? { jobs := jobs + [created.value.value]; }
      return false;
    }

    /** Over any sequence of events the tab holds at most one job per thing, and things no event speaks of have
        the jobs they had, no more and no less. If the intervals asked for have exact periods, the job of every thing
        fires with the exact period of the last interval asked for it. */
    method ActAll(events: seq<Event>)
      requires ValidCalendar(cal) && OnePerThing(jobs)
      requires forall i :: 0 <= i < |events| ==> Readable(events[i].thing, events[i].now)
      modifies this
      ensures OnePerThing(jobs)
      ensures forall u :: !Mentioned(events, |events|, u) ==> JobsKept(old(jobs), jobs, u)
      ensures AllRegular(old(jobs), cal) && (forall i :: 0 <= i < |events| ==> ValidEvent(events[i])) ==>
                && AllRegular(jobs, cal)
                && forall i: nat :: Latest(events, i) ==> ServedAsAsked(jobs, cal, events[i].thing)
    {
      ghost var ok := AllRegular(jobs, cal) && forall i :: 0 <= i < |events| ==> ValidEvent(events[i]);
      for n := 0 to |events|
        invariant OnePerThing(jobs)
        invariant forall u :: !Mentioned(events, n, u) ==> JobsKept(old(jobs), jobs, u)
        invariant ok ==> AllRegular(jobs, cal) && LatestServed(events[..n], jobs, cal)
      {
        ghost var before := jobs;
        var _ := Act(events[n]);
        forall u | !Mentioned(events, n + 1, u) ensures JobsKept(old(jobs), jobs, u) {
          assert events[n].thing.uuid != u;
          assert !Mentioned(events, n, u);
        }
        if ok { LatestStillServed(events, n, before, jobs, cal); }
      }
      assert events[..|events|] == events;
    }
  }

  ghost predicate LatestServed(events: seq<Event>, jobs: seq<Job>, cal: Calendar) {
    forall i: nat :: Latest(events, i) ==> ServedAsAsked(jobs, cal, events[i].thing)
  }

  lemma LatestStillServed(events: seq<Event>, n: nat, before: seq<Job>, after: seq<Job>, cal: Calendar)
    requires n < |events| && LatestServed(events[..n], before, cal)
    requires OthersUntouched(before, after, events[n].thing.uuid)
    requires ServedAsAsked(after, cal, events[n].thing) && (NothingToSync(events[n].thing) ==> after == before)
    ensures LatestServed(events[..n + 1], after, cal)
  {
    forall i: nat | Latest(events[..n + 1], i)
      ensures ServedAsAsked(after, cal, events[i].thing)
    {
      LatestBefore(events, n, i);
      var thing, changed := events[i].thing, events[n].thing.uuid;
      if i < n && thing.uuid != changed {
        if thing.sftp.Some? { StillServed(before, after, cal, changed, thing.uuid, thing.sftp.value); }
        if thing.sftp.None? && thing.api.Some? {
          StillServed(before, after, cal, changed, thing.uuid, thing.api.value);
        }
      }
    }
  }

  /** One of the first `n` events is about thing `uuid`. */
  ghost predicate Mentioned(events: seq<Event>, n: nat, uuid: string) {
    exists i: nat :: i < n && i < |events| && events[i].thing.uuid == uuid
  }

  /** The jobs of thing `uuid` stay where and as they are, and it gets no other. */
  ghost predicate JobsKept(before: seq<Job>, after: seq<Job>, uuid: string) {
    && |after| >= |before|
    && (forall j :: 0 <= j < |before| && KeyOf(before[j]) == uuid ==> after[j] == before[j])
    && (forall j :: 0 <= j < |after| && KeyOf(after[j]) == uuid ==> j < |before| && after[j] == before[j])
  }

  lemma LatestBefore(events: seq<Event>, n: nat, i: nat)
    requires n < |events| && Latest(events[..n + 1], i)
    ensures i == n || Latest(events[..n], i)
    ensures i < n && events[i].thing.uuid == events[n].thing.uuid ==> NothingToSync(events[n].thing)
  {
    var upTo := events[..n + 1];
    assert forall j :: 0 <= j <= n ==> upTo[j] == events[j];
    assert forall j :: 0 <= j < n ==> events[..n][j] == upTo[j];
  }
}
