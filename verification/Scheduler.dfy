// The scheduler's tick: which jobs and timers fire, and when the next ones are due.

module Scheduler {
  import opened Json
  import opened Calendar
  import opened Cron

  /** `schedule` is what the job's text parses to; `offsetSeconds` what its timezone resolves to. */
  datatype Job = Job(
    id: string, schedule: Option<CronExpression>, offsetSeconds: int, nextFireMs: int, enabled: bool,
    catchUp: bool, maxCatchUp: int, lastFireMs: int, fireCount: nat)

  datatype Timer = Timer(id: string, session: string, dueMs: int)

  datatype Firing = Firing(job: Job, at: int)

  ghost predicate JobOk(j: Job) {
    && (j.schedule.Some? ==> Parsed(j.schedule.value))
    && (j.enabled && j.nextFireMs > 0 ==> LocalMs(j.nextFireMs, j.offsetSeconds) >= 0)
  }

  predicate JobDue(j: Job, now: int) {
    j.enabled && 0 < j.nextFireMs <= now
  }

  function Limit(j: Job): int {
    if j.catchUp then (if j.maxCatchUp > 1 then j.maxCatchUp else 1) else 1
  }

  // ------------------------------------------------------------------ timers

  function Expired(timers: seq<Timer>, now: int): seq<Timer> {
    if timers == [] then []
    else Expired(timers[..|timers| - 1], now)
         + if timers[|timers| - 1].dueMs <= now then [timers[|timers| - 1]] else []
  }

  function Waiting(timers: seq<Timer>, now: int): seq<Timer> {
    if timers == [] then []
    else Waiting(timers[..|timers| - 1], now)
         + if timers[|timers| - 1].dueMs <= now then [] else [timers[|timers| - 1]]
  }

  /** Every timer is on exactly one side, by its due time. */
  lemma {:induction false} TimersPartition(timers: seq<Timer>, now: int)
    ensures multiset(Expired(timers, now)) + multiset(Waiting(timers, now)) == multiset(timers)
    ensures forall t :: t in Expired(timers, now) ==> t.dueMs <= now
    ensures forall t :: t in Waiting(timers, now) ==> t.dueMs > now
  {
    if timers != [] {
      var rest, last := timers[..|timers| - 1], timers[|timers| - 1];
      TimersPartition(rest, now);
      assert timers == rest + [last];
    }
  }

  lemma {:induction false} ExpiredSome(timers: seq<Timer>, now: int)
    ensures Expired(timers, now) != [] <==> exists k :: 0 <= k < |timers| && timers[k].dueMs <= now
  {
    if timers != [] {
      var n := |timers| - 1;
      ExpiredSome(timers[..n], now);
      if timers[n].dueMs > now && Expired(timers[..n], now) != [] {
        var k :| 0 <= k < n && timers[..n][k].dueMs <= now;
        assert timers[k].dueMs <= now;
      }
    }
  }

  lemma TimerStep(timers: seq<Timer>, i: nat, now: int)
    requires i < |timers|
    ensures Expired(timers[..i + 1], now) ==
            Expired(timers[..i], now) + if timers[i].dueMs <= now then [timers[i]] else []
    ensures Waiting(timers[..i + 1], now) ==
            Waiting(timers[..i], now) + if timers[i].dueMs <= now then [] else [timers[i]]
  {
    assert timers[..i + 1][..i] == timers[..i];
  }

  lemma {:induction false} WaitingAll(timers: seq<Timer>, now: int)
    requires forall i :: 0 <= i < |timers| ==> timers[i].dueMs > now
    ensures Waiting(timers, now) == timers
  {
    if timers != [] {
      WaitingAll(timers[..|timers| - 1], now);
    }
  }

  // ------------------------------------------------------------------ one job

  /** The instants at which a due job fires: consecutive occurrences from its due time on, up to now. */
  ghost predicate Chain(j: Job, now: int, c: seq<int>)
    requires j.schedule.Some?
  {
    && 0 < |c| <= Limit(j) && c[0] == j.nextFireMs
    && (forall i :: 0 <= i < |c| ==> c[i] <= now)
    && (forall i :: 0 < i < |c| ==> c[i - 1] < c[i] && IsNext(j.schedule.value, c[i - 1], j.offsetSeconds, Some(c[i])))
  }

  /** ... and it stops only at the catch-up limit or when nothing more is due. */
  ghost predicate Complete(j: Job, now: int, c: seq<int>)
    requires j.schedule.Some?
  {
    |c| > 0 && (|c| == Limit(j) || exists r: Option<int> ::
      IsNext(j.schedule.value, c[|c| - 1], j.offsetSeconds, r) && (r.None? || r.value > now))
  }

  /** What a tick makes of a job, and when it fires. */
  ghost predicate Ticked(j: Job, t: Job, now: int, c: seq<int>) {
    if !JobDue(j, now) then t == j && c == []
    else if j.schedule.None? then t == j.(enabled := false) && c == []
    else
      && Chain(j, now, c) && Complete(j, now, c)
      && exists r: Option<int> ::
           && IsNext(j.schedule.value, now, j.offsetSeconds, r)
           && t == j.(lastFireMs := now, fireCount := j.fireCount + 1,
                      enabled := r.Some?, nextFireMs := if r.Some? then r.value else 0)
  }

  /** A tick fires the job exactly when it is on and its time has come, at that time first; else it is as it was. */
  lemma FiresIffDue(j: Job, t: Job, now: int, c: seq<int>)
    requires Ticked(j, t, now, c)
    ensures c != [] <==> j.schedule.Some? && j.enabled && j.nextFireMs > 0 && j.nextFireMs <= now
    ensures c != [] ==> c[0] == j.nextFireMs && t.fireCount == j.fireCount + 1 && t.lastFireMs == now
    ensures c == [] ==> t.fireCount == j.fireCount && t.lastFireMs == j.lastFireMs && t.nextFireMs == j.nextFireMs
    ensures c == [] && t != j ==> j.schedule.None? && !t.enabled
    ensures t.enabled && c != [] ==> exists r: Option<int> ::
              IsNext(j.schedule.value, now, j.offsetSeconds, r) && r == Some(t.nextFireMs)
  {
    hide IsNext, Complete;
  }

  /** The job has an occurrence at or before `now` behind the last of these. */
  ghost predicate MoreToFire(j: Job, now: int, c: seq<int>)
    requires j.schedule.Some? && c != []
  {
    forall r: Option<int> :: IsNext(j.schedule.value, c[|c| - 1], j.offsetSeconds, r) ==> r.Some? && r.value <= now
  }

  /**
   * How often a due job fires in one tick: once unless it catches up; a job that catches up fires once at least, as
   * often as it may at most, and less often only when it has caught up.
   */
  lemma FiringCount(j: Job, now: int, c: seq<int>)
    requires j.schedule.Some? && Chain(j, now, c) && Complete(j, now, c)
    ensures !j.catchUp || j.maxCatchUp <= 1 ==> |c| == 1
    ensures j.catchUp && j.maxCatchUp > 1 ==> 1 <= |c| <= j.maxCatchUp
    ensures j.catchUp && j.maxCatchUp > 1 && MoreToFire(j, now, c) ==> |c| == j.maxCatchUp
  {
  }

  method FireJob(j: Job, now: int) returns (c: seq<int>)
    requires JobOk(j) && JobDue(j, now) && j.schedule.Some?
    ensures Chain(j, now, c) && Complete(j, now, c)
  {
    hide IsNext, Parsed;
    assert Parsed(j.schedule.value);
    c := [];
    var cursor := j.nextFireMs;
    var limit := Limit(j);
    var count := 0;
    while count < limit
      invariant 0 <= count <= limit && |c| == count
      invariant j.nextFireMs <= cursor <= now
      invariant count == 0 ==> cursor == j.nextFireMs
      invariant count > 0 ==> Chain(j, now, c)
      invariant count > 0 ==>
                  c[count - 1] < cursor && IsNext(j.schedule.value, c[count - 1], j.offsetSeconds, Some(cursor))
    {
      c := c + [cursor];
      count := count + 1;
      var next := NextAfter(j.schedule.value, cursor, j.offsetSeconds);
      if next.None? {
        break;
      }
      cursor := next.value;
      if cursor > now {
        break;
      }
    }
  }

  /** The due time that follows `from`; a job without one is switched off. */
  method Reschedule(j: Job, from: int) returns (t: Job)
    requires j.schedule.Some? ==> Parsed(j.schedule.value)
    requires LocalMs(from, j.offsetSeconds) >= 0
    ensures j.schedule.None? ==> t == j.(enabled := false, nextFireMs := 0)
    ensures j.schedule.Some? ==> exists r: Option<int> ::
              && IsNext(j.schedule.value, from, j.offsetSeconds, r)
              && t == if r.Some? then j.(nextFireMs := r.value) else j.(enabled := false, nextFireMs := 0)
    ensures t.enabled ==> t.nextFireMs > from
  {
    hide IsNext;
    if j.schedule.None? {
      return j.(enabled := false, nextFireMs := 0);
    }
    var next := NextAfter(j.schedule.value, from, j.offsetSeconds);
    if next.None? {
      return j.(enabled := false, nextFireMs := 0);
    }
    return j.(nextFireMs := next.value);
  }

  // ------------------------------------------------------------------ the whole tick

  function Firings(j: Job, c: seq<int>): seq<Firing> {
    seq(|c|, i requires 0 <= i < |c| => Firing(j, c[i]))
  }

  /** All firings, job by job. */
  function Joined(jobs: seq<Job>, chains: seq<seq<int>>): seq<Firing>
    requires |jobs| == |chains|
  {
    if jobs == [] then []
    else Joined(jobs[..|jobs| - 1], chains[..|jobs| - 1]) + Firings(jobs[|jobs| - 1], chains[|jobs| - 1])
  }

  predicate Quiet(jobs: seq<Job>, timers: seq<Timer>, now: int) {
    (forall i :: 0 <= i < |jobs| ==> !JobDue(jobs[i], now)) && (forall i :: 0 <= i < |timers| ==> timers[i].dueMs > now)
  }

  /** A tick at this instant has something to fire. */
  predicate FiresAt(jobs: seq<Job>, timers: seq<Timer>, now: int) {
    || (exists i :: 0 <= i < |jobs| && JobDue(jobs[i], now) && jobs[i].schedule.Some?)
    || (exists i :: 0 <= i < |timers| && timers[i].dueMs <= now)
  }

  /** Something is due: a tick at this instant is not idle. A due job whose schedule does not parse is switched off. */
  predicate DueAt(jobs: seq<Job>, timers: seq<Timer>, now: int) {
    || (exists i :: 0 <= i < |jobs| && JobDue(jobs[i], now))
    || (exists i :: 0 <= i < |timers| && timers[i].dueMs <= now)
  }

  lemma DueIsNotQuiet(jobs: seq<Job>, timers: seq<Timer>, now: int)
    ensures DueAt(jobs, timers, now) <==> !Quiet(jobs, timers, now)
    ensures (forall i :: 0 <= i < |jobs| ==> jobs[i].schedule.Some?) ==>
              (DueAt(jobs, timers, now) <==> FiresAt(jobs, timers, now))
  {
    hide JobDue;
  }

  /** The timers that are due, and the rest, both in their old order. */
  method Split(timers: seq<Timer>, now: int) returns (due: seq<Timer>, remaining: seq<Timer>)
    ensures due == Expired(timers, now) && remaining == Waiting(timers, now)
  {
    due, remaining := [], [];
    var i := 0;
    while i < |timers|
      invariant 0 <= i <= |timers|
      invariant due == Expired(timers[..i], now) && remaining == Waiting(timers[..i], now)
    {
      hide Expired, Waiting;
      TimerStep(timers, i, now);
      if timers[i].dueMs <= now {
        due := due + [timers[i]];
      } else {
        remaining := remaining + [timers[i]];
      }
      i := i + 1;
    }
    assert timers[..i] == timers;
  }

  class Scheduler {
    var jobs: seq<Job>
    var timers: seq<Timer>

    constructor ()
      ensures jobs == [] && timers == []
    {
      jobs, timers := [], [];
    }

    ghost predicate Valid()
      reads this
    {
      forall i :: 0 <= i < |jobs| ==> JobOk(jobs[i])
    }

    method TickJobs(now: int) returns (due: seq<Firing>, ghost chains: seq<seq<int>>)
      requires Valid()
      modifies `jobs
      ensures Valid() && |jobs| == old(|jobs|) == |chains|
      ensures forall i :: 0 <= i < |jobs| ==> Ticked(old(jobs)[i], jobs[i], now, chains[i])
      ensures forall i :: 0 <= i < |jobs| ==> !JobDue(jobs[i], now)
      ensures due == Joined(old(jobs), chains)
    {
      hide Chain, Complete, Parsed, IsNext, LocalMs, Firings;
      due, chains := [], [];
      ghost var before := jobs;
      var i := 0;
      while i < |jobs|
        invariant 0 <= i <= |jobs| == |before| && |chains| == i && Valid()
        invariant forall k :: 0 <= k < i ==> Ticked(before[k], jobs[k], now, chains[k]) && !JobDue(jobs[k], now)
        invariant forall k :: i <= k < |jobs| ==> jobs[k] == before[k]
        invariant due == Joined(before[..i], chains)
      {
        hide Ticked;
        var j := jobs[i];
        ghost var c: seq<int> := [];
        var fired: seq<Firing> := [];
        var t := j;
        if JobDue(j, now) {
          fired, t, c := TickJob(j, now);
        } else {
        }
        NoFirings(j);
        jobs := jobs[i := t];
        JoinedStep(before, chains, c, i);
        chains := chains + [c];
        due := due + fired;
        i := i + 1;
      }
      assert before[..i] == before;
    }

    /**
     * Fires everything due: each expired timer once, each due job at consecutive occurrences. Nothing is
     * due afterwards, so a second tick at the same instant fires nothing.
     */
    method TickUntil(now: int) returns (dueJobs: seq<Firing>, dueTimers: seq<Timer>, fired: nat,
                                        ghost chains: seq<seq<int>>)
      requires Valid()
      modifies this
      ensures Valid() && |jobs| == old(|jobs|) == |chains|
      ensures forall i :: 0 <= i < |jobs| ==> Ticked(old(jobs)[i], jobs[i], now, chains[i])
      ensures dueJobs == Joined(old(jobs), chains)
      ensures dueTimers == Expired(old(timers), now) && timers == Waiting(old(timers), now)
      ensures fired == |dueJobs| + |dueTimers|
      ensures Quiet(jobs, timers, now)
      ensures fired > 0 <==> FiresAt(old(jobs), old(timers), now)
      ensures old(Quiet(jobs, timers, now)) ==> fired == 0 && jobs == old(jobs) && timers == old(timers)
    {
      hide Chain, Complete, Parsed, IsNext, LocalMs, Ticked, Joined, Expired, Waiting;
      ghost var before := jobs;
      dueJobs, chains := TickJobs(now);
      JoinedEmptyIff(before, jobs, chains, now);
      dueTimers := TickTimers(now);
      fired := |dueJobs| + |dueTimers|;
      if old(Quiet(jobs, timers, now)) {
        WaitingAll(old(timers), now);
        forall i | 0 <= i < |jobs|
          ensures jobs[i] == before[i]
        {
          IdleKept(before[i], jobs[i], now, chains[i]);
        }
      }
    }

    method TickTimers(now: int) returns (due: seq<Timer>)
      modifies `timers
      ensures due == Expired(old(timers), now) && timers == Waiting(old(timers), now)
      ensures due != [] <==> exists k :: 0 <= k < |old(timers)| && old(timers)[k].dueMs <= now
      ensures forall k :: 0 <= k < |timers| ==> timers[k].dueMs > now
    {
      hide Expired, Waiting;
      var remaining: seq<Timer>;
      due, remaining := Split(timers, now);
      ExpiredSome(timers, now);
      TimersPartition(timers, now);
      timers := remaining;
      assert forall k :: 0 <= k < |timers| ==> timers[k] in timers;
    }

    /**
     * The first instant at which a tick is not idle, or 0 for never: right exactly unless the least due time of the
     * timers is 0, which reads as no timer.
     */
    method NextWakeMs() returns (next: int)
      ensures FirstBusy(jobs, timers, next) <==> !ZeroLeast(timers)
    {
      hide FirstDue, DueAt, JobDue, ZeroLeast, Answered;
      next := 0;
      NeverFires();
      var i := 0;
      while i < |jobs|
        invariant 0 <= i <= |jobs|
        invariant FirstDue(jobs[..i], [], next)
      {
        var j := jobs[i];
        MoreJobs(jobs, i, next);
        if j.enabled && j.nextFireMs > 0 && (next == 0 || j.nextFireMs < next) {
          next := j.nextFireMs;
        }
        i := i + 1;
      }
      assert jobs[..i] == jobs && timers[..0] == [];
      AnsweredNone(jobs, next);
      i := 0;
      while i < |timers|
        invariant 0 <= i <= |timers|
        invariant Answered(jobs, timers[..i], next)
      {
        MoreTimers(jobs, timers, i, next);
        if next == 0 || timers[i].dueMs < next {
          next := timers[i].dueMs;
        }
        i := i + 1;
      }
      assert timers[..i] == timers;
      AnsweredIff(jobs, timers, next);
    }
  }

  /** The least instant at which something is due; 0 when there is none. */
  ghost predicate FirstDue(jobs: seq<Job>, timers: seq<Timer>, next: int) {
    if next == 0 then forall t :: !DueAt(jobs, timers, t)
    else DueAt(jobs, timers, next) && forall t :: t < next ==> !DueAt(jobs, timers, t)
  }

  /** The least instant at which a tick is not idle; 0 when there is none. */
  ghost predicate FirstBusy(jobs: seq<Job>, timers: seq<Timer>, next: int) {
    if next == 0 then forall t :: Quiet(jobs, timers, t)
    else !Quiet(jobs, timers, next) && forall t :: t < next ==> Quiet(jobs, timers, t)
  }

  /** Some timer is due at instant 0, and none before. */
  predicate ZeroLeast(timers: seq<Timer>) {
    (exists i :: 0 <= i < |timers| && timers[i].dueMs == 0) && forall i :: 0 <= i < |timers| ==> timers[i].dueMs >= 0
  }

  ghost predicate Answered(jobs: seq<Job>, timers: seq<Timer>, next: int) {
    if ZeroLeast(timers) then next >= 0 else FirstDue(jobs, timers, next)
  }

  lemma AnsweredNone(jobs: seq<Job>, next: int)
    requires FirstDue(jobs, [], next)
    ensures Answered(jobs, [], next)
  {
    hide FirstDue;
  }

  lemma AnsweredIff(jobs: seq<Job>, timers: seq<Timer>, next: int)
    requires Answered(jobs, timers, next)
    ensures FirstBusy(jobs, timers, next) <==> !ZeroLeast(timers)
  {
    hide DueAt, Quiet;
    forall t
      ensures DueAt(jobs, timers, t) <==> !Quiet(jobs, timers, t)
    {
      DueIsNotQuiet(jobs, timers, t);
    }
    if ZeroLeast(timers) {
      var i :| 0 <= i < |timers| && timers[i].dueMs == 0;
      DueFrom(jobs, timers, i, 0);
    }
  }

  /** A timer is due from its due time on. */
  lemma DueFrom(jobs: seq<Job>, timers: seq<Timer>, i: nat, t: int)
    requires i < |timers| && timers[i].dueMs <= t
    ensures DueAt(jobs, timers, t)
  {
  }

  /** Adding one source that fires from `due` on, or never. */
  lemma FirstGrows(jobs: seq<Job>, timers: seq<Timer>, next: int, moreJobs: seq<Job>, moreTimers: seq<Timer>,
                   due: Option<int>)
    requires FirstDue(jobs, timers, next) && (due.Some? ==> due.value != 0)
    requires forall t :: DueAt(moreJobs, moreTimers, t) <==> DueAt(jobs, timers, t) || (due.Some? && due.value <= t)
    ensures FirstDue(moreJobs, moreTimers, if due.Some? && (next == 0 || due.value < next) then due.value else next)
  {
    hide DueAt;
  }

  lemma NeverFires()
    ensures FirstDue([], [], 0)
  {
  }

  lemma MoreJobs(jobs: seq<Job>, i: nat, next: int)
    requires i < |jobs| && FirstDue(jobs[..i], [], next)
    ensures var j := jobs[i];
            FirstDue(jobs[..i + 1], [],
                        if j.enabled && j.nextFireMs > 0 && (next == 0 || j.nextFireMs < next) then j.nextFireMs
                        else next)
  {
    var j := jobs[i];
    forall t
      ensures DueAt(jobs[..i + 1], [], t) <==> DueAt(jobs[..i], [], t) || JobDue(j, t)
    {
      hide JobDue;
      assert forall k :: 0 <= k < i ==> jobs[..i + 1][k] == jobs[..i][k];
      assert jobs[..i + 1][i] == j;
      if DueAt(jobs[..i], [], t) {
        var k :| 0 <= k < i && JobDue(jobs[..i][k], t);
        assert JobDue(jobs[..i + 1][k], t);
      }
    }
    FirstGrows(jobs[..i], [], next, jobs[..i + 1], [],
               if j.enabled && j.nextFireMs > 0 then Some(j.nextFireMs) else None);
  }

  /** With one timer more, something is due when it was, or from that timer's due time on. */
  lemma DueMore(jobs: seq<Job>, timers: seq<Timer>, i: nat, t: int)
    requires i < |timers|
    ensures DueAt(jobs, timers[..i + 1], t) <==> DueAt(jobs, timers[..i], t) || timers[i].dueMs <= t
  {
    hide JobDue;
    assert forall k :: 0 <= k < i ==> timers[..i + 1][k] == timers[..i][k];
    assert timers[..i + 1][i] == timers[i];
    if (exists k :: 0 <= k < |timers[..i]| && timers[..i][k].dueMs <= t) {
      var k :| 0 <= k < i && timers[..i][k].dueMs <= t;
      assert timers[..i + 1][k].dueMs <= t;
    }
  }

  lemma ZeroMore(timers: seq<Timer>, i: nat)
    requires i < |timers|
    ensures timers[i].dueMs > 0 ==> (ZeroLeast(timers[..i + 1]) <==> ZeroLeast(timers[..i]))
    ensures timers[i].dueMs < 0 ==> !ZeroLeast(timers[..i + 1])
    ensures ZeroLeast(timers[..i]) ==> forall k :: 0 <= k < i ==> timers[k].dueMs >= 0
    ensures timers[i].dueMs == 0 ==>
              (ZeroLeast(timers[..i + 1]) <==> forall k :: 0 <= k < i ==> timers[k].dueMs >= 0)
  {
    assert timers[..i + 1] == timers[..i] + [timers[i]];
    if ZeroLeast(timers[..i]) {
      var k :| 0 <= k < i && timers[..i][k].dueMs == 0;
      assert timers[..i + 1][k].dueMs == 0;
    }
    if timers[i].dueMs == 0 {
      assert timers[..i + 1][i].dueMs == 0;
    }
  }

  lemma MoreTimers(jobs: seq<Job>, timers: seq<Timer>, i: nat, next: int)
    requires i < |timers| && Answered(jobs, timers[..i], next)
    ensures Answered(jobs, timers[..i + 1], if next == 0 || timers[i].dueMs < next then timers[i].dueMs else next)
  {
    hide ZeroLeast, DueAt;
    var due, before, after := timers[i].dueMs, timers[..i], timers[..i + 1];
    ZeroMore(timers, i);
    forall t: int
      ensures DueAt(jobs, after, t) <==> DueAt(jobs, before, t) || due <= t
    {
      DueMore(jobs, timers, i, t);
    }
    if ZeroLeast(before) {
      if due < 0 {
        NothingBelowZero(jobs, before);
        assert DueAt(jobs, after, due);
        assert forall t: int :: t < due ==> !DueAt(jobs, after, t);
      }
    } else if due != 0 {
      FirstGrows(jobs, before, next, jobs, after, Some(due));
    } else {
      ZeroArrives(jobs, timers, i, next);
    }
  }

  lemma NothingBelowZero(jobs: seq<Job>, timers: seq<Timer>)
    requires ZeroLeast(timers)
    ensures forall t :: t < 0 ==> !DueAt(jobs, timers, t)
  {
  }

  /** A timer due at 0 after right answers: either an earlier one was found, or none is earlier. */
  lemma ZeroArrives(jobs: seq<Job>, timers: seq<Timer>, i: nat, next: int)
    requires i < |timers| && timers[i].dueMs == 0 && FirstDue(jobs, timers[..i], next)
    ensures next >= 0 <==> forall k :: 0 <= k < i ==> timers[k].dueMs >= 0
  {
    if next >= 0 {
      forall k | 0 <= k < i
        ensures timers[k].dueMs >= 0
      {
        DueFrom(jobs, timers[..i], k, timers[k].dueMs);
      }
    }
  }

  method TickJob(j: Job, now: int) returns (fired: seq<Firing>, t: Job, ghost c: seq<int>)
    requires JobOk(j) && JobDue(j, now)
    ensures Ticked(j, t, now, c) && JobOk(t) && !JobDue(t, now) && fired == Firings(j, c)
  {
    hide Parsed, IsNext, Chain, Complete;
    if j.schedule.None? {
      return [], j.(enabled := false), [];
    }
    var times := FireJob(j, now);
    c := times;
    fired := Firings(j, times);
    t := Reschedule(j.(lastFireMs := now, fireCount := j.fireCount + 1), now);
  }

  lemma IdleKept(j: Job, t: Job, now: int, c: seq<int>)
    requires !JobDue(j, now) && Ticked(j, t, now, c)
    ensures t == j
  {
  }

  lemma NoFirings(j: Job)
    ensures Firings(j, []) == []
  {
  }

  lemma JoinedStep(jobs: seq<Job>, chains: seq<seq<int>>, c: seq<int>, i: nat)
    requires |chains| == i < |jobs|
    ensures Joined(jobs[..i + 1], chains + [c]) == Joined(jobs[..i], chains) + Firings(jobs[i], c)
  {
    assert jobs[..i + 1][..i] == jobs[..i] && (chains + [c])[..i] == chains;
  }

  lemma {:induction false} JoinedEmptyIff(before: seq<Job>, after: seq<Job>, chains: seq<seq<int>>, now: int)
    requires |before| == |after| == |chains|
    requires forall i :: 0 <= i < |before| ==> Ticked(before[i], after[i], now, chains[i])
    ensures Joined(before, chains) != [] <==>
              exists i :: 0 <= i < |before| && JobDue(before[i], now) && before[i].schedule.Some?
  {
    hide IsNext, Complete;
    if before != [] {
      var n := |before| - 1;
      JoinedEmptyIff(before[..n], after[..n], chains[..n], now);
      assert Ticked(before[n], after[n], now, chains[n]);
      assert |Firings(before[n], chains[n])| == |chains[n]|;
      assert chains[n] != [] <==> JobDue(before[n], now) && before[n].schedule.Some?;
    }
  }
}
