/**
 * The hourly log exporter: for each configured log group, an existence
 * check, then up to three `create_export_task` attempts with a doubling delay
 * on rate-limit errors, counting successes and failures; then a polling loop
 * that drops finished export tasks until none are left or four minutes have
 * passed; then a summary.
 *
 * The CloudWatch Logs calls are oracles indexed by the position of the log
 * group (and the attempt), or by polling round and task id. Sleeps are
 * recorded as a list of durations rather than taken.
 */
module LogExporter {

  import Calendar

  const MaxRetries: nat := 3
  const InitialDelay: nat := 30
  const PacingDelay: nat := 5
  const PollInterval: nat := 10
  const MaxWait: nat := 240
  const MillisPerSecond: int := 1000

  /** What `describe_log_groups` told about a group. */
  datatype Existence = Found | Missing | CheckFailed

  /** What one `create_export_task` attempt did. */
  datatype AttemptOutcome = Created(taskId: string) | RateLimited | CreateFailed

  /** The status codes of an export task. */
  datatype StatusCode = Pending | Running | Completed | Failed | Cancelled | PendingCancel

  predicate Terminal(c: StatusCode) {
    c == Completed || c == Failed || c == Cancelled
  }

  /** What `describe_export_tasks` told about a task. */
  datatype StatusReply = Reported(code: StatusCode) | NoTasks | StatusCheckFailed

  datatype ExportTask = ExportTask(taskId: string, logGroup: string, status: StatusCode)

  /** One `create_export_task` call; times are epoch milliseconds. */
  datatype CreateCall = CreateCall(
    logGroupName: string,
    fromTime: int,
    to: int,
    destination: string,
    destinationPrefix: string)

  /** The previous whole hour, in seconds. */
  datatype Window = Window(start: int, end: int)

  /** `datetime.now()` truncated to the hour, and the hour before it. */
  function HourWindow(now: int): (w: Window)
    ensures w.end % Calendar.SecondsPerHour == 0
    ensures w.end <= now < w.end + Calendar.SecondsPerHour
    ensures w.start == w.end - Calendar.SecondsPerHour
  {
    var end := now - now % Calendar.SecondsPerHour;
    Window(end - Calendar.SecondsPerHour, end)
  }

  /** The window end is the only whole hour in (now - 1h, now]: truncation, not rounding. */
  lemma HourWindowUnique(now: int, e: int)
    requires e % Calendar.SecondsPerHour == 0 && e <= now < e + Calendar.SecondsPerHour
    ensures e == HourWindow(now).end
  {
    var end := HourWindow(now).end;
    assert (e - end) % Calendar.SecondsPerHour == 0;
    assert -Calendar.SecondsPerHour < e - end < Calendar.SecondsPerHour;
  }

  function Millis(t: int): int {
    t * MillisPerSecond
  }

  /** The export window spans exactly one hour of milliseconds. */
  lemma WindowMillis(now: int)
    ensures Millis(HourWindow(now).end) - Millis(HourWindow(now).start) == 3600000
    ensures Millis(HourWindow(now).start) % 3600000 == 0
  {
  }

  /** `name.replace('/', '-')`. */
  function Dashed(s: string): string {
    if s == [] then []
    else Dashed(s[..|s| - 1]) + [if s[|s| - 1] == '/' then '-' else s[|s| - 1]]
  }

  /** Each character is kept, except that a slash becomes a dash. */
  lemma {:induction false} DashedAt(s: string)
    ensures |Dashed(s)| == |s|
    ensures forall i :: 0 <= i < |s| ==> Dashed(s)[i] == (if s[i] == '/' then '-' else s[i])
    decreases |s|
  {
    if s != [] {
      var p := s[..|s| - 1];
      DashedAt(p);
      assert forall i :: 0 <= i < |p| ==> p[i] == s[i];
    }
  }

  /** No slash survives, dashing twice changes nothing, and a name without slashes is kept. */
  lemma DashedProperties(s: string)
    ensures '/' !in Dashed(s)
    ensures Dashed(Dashed(s)) == Dashed(s)
    ensures Dashed(s) == s <==> '/' !in s
  {
    DashedAt(s);
    DashedAt(Dashed(s));
    if '/' in s {
      var i :| 0 <= i < |s| && s[i] == '/';
      assert Dashed(s)[i] != s[i];
    }
  }

  /** The S3 key prefix of a group's export: the dashed group name, then the hour stamp. */
  function DestinationPrefix(group: string, stamp: string): string {
    "cloudwatch-logs/" + Dashed(group) + "/" + stamp
  }

  /**
   * The prefix reads back as its parts: the fixed head, the dashed name, a
   * slash, and the stamp.
   */
  lemma PrefixLayout(group: string, stamp: string)
    ensures var p := DestinationPrefix(group, stamp);
      && |p| == 17 + |group| + |stamp|
      && p[..16] == "cloudwatch-logs/"
      && p[16..16 + |group|] == Dashed(group)
      && p[16 + |group|] == '/'
      && p[17 + |group|..] == stamp
  {
    DashedAt(group);
    var head, d := "cloudwatch-logs/", Dashed(group);
    var p := DestinationPrefix(group, stamp);
    var tail := "/" + stamp;
    assert p == head + (d + tail);
    assert p[..16] == head;
    assert p[16..] == d + tail;
    assert (d + tail)[..|d|] == d && (d + tail)[|d|..] == tail;
    assert p[16..16 + |group|] == d;
    assert p[16 + |group|..] == tail;
    assert tail[1..] == stamp;
  }

  /**
   * With the hour stamp of the window start, for years 0 to 9999, the prefix
   * has 30 characters more than the group name and the slashes of the stamp
   * sit at fixed places after the name.
   */
  lemma PrefixHourLayout(group: string, start: int)
    ensures 0 <= Calendar.DateOf(start).year < 10000 ==>
      var p := DestinationPrefix(group, Calendar.HourStamp(start));
      var n := 17 + |group|;
      |p| == 30 + |group| && p[n + 4] == '/' && p[n + 7] == '/' && p[n + 10] == '/'
  {
    var h := Calendar.HourStamp(start);
    PrefixLayout(group, h);
    if 0 <= Calendar.DateOf(start).year < 10000 {
      Calendar.HourStampFields(start);
      var p := DestinationPrefix(group, h);
      var n := 17 + |group|;
      assert p[n..] == h;
      assert p[n + 4] == h[4] && p[n + 7] == h[7] && p[n + 10] == h[10];
    }
  }

  /**
   * The inputs of one run: the configured groups, the bucket, the start of
   * the window and its hour stamp, and what the existence check and each
   * create attempt of the i-th group do.
   */
  datatype Env = Env(
    groups: seq<string>,
    bucket: string,
    start: int,
    stamp: string,
    existence: nat -> Existence,
    create: nat -> nat -> AttemptOutcome)

  /** The create call made for the i-th group, the same on every attempt. */
  function Call(env: Env, i: nat): CreateCall
    requires i < |env.groups|
  {
    CreateCall(env.groups[i], Millis(env.start), Millis(env.start + Calendar.SecondsPerHour), env.bucket,
               DestinationPrefix(env.groups[i], env.stamp))
  }

  /** The handler's state during the export loop. */
  datatype Run = Run(
    tasks: seq<ExportTask>,
    successful: nat,
    failed: nat,
    creates: seq<CreateCall>,
    sleeps: seq<nat>)

  function Repeat<T>(x: T, n: nat): (s: seq<T>)
    ensures |s| == n && forall k :: 0 <= k < n ==> s[k] == x
  {
    if n == 0 then [] else Repeat(x, n - 1) + [x]
  }

  /**
   * The retry loop from attempt `a` on, with the current delay: every attempt
   * makes one call; a success appends a PENDING task, counts it and paces
   * when groups remain; a rate-limit error sleeps and doubles the delay
   * unless it was the last attempt, and then counts a failure, as does any
   * other error.
   */
  function Attempts(run: Run, env: Env, i: nat, a: nat, delay: nat): Run
    requires i < |env.groups|
    decreases MaxRetries - a
  {
    if a >= MaxRetries then run
    else
      var called := run.(creates := run.creates + [Call(env, i)]);
      match env.create(i)(a)
      case Created(id) =>
        var tasks := called.tasks + [ExportTask(id, env.groups[i], Pending)];
        called.(tasks := tasks, successful := called.successful + 1,
                sleeps := called.sleeps + if |tasks| < |env.groups| then [PacingDelay] else [])
      case RateLimited =>
        if a < MaxRetries - 1 then Attempts(called.(sleeps := called.sleeps + [delay]), env, i, a + 1, delay * 2)
        else called.(failed := called.failed + 1)
      case CreateFailed =>
        called.(failed := called.failed + 1)
  }

  /**
   * What the retry loop does to the state, whatever the outcomes: exactly
   * one counter goes up by one, at most one PENDING task of this group is
   * appended and only with a success, and one to three identical calls are
   * made.
   */
  lemma {:induction false} AttemptsShape(run: Run, env: Env, i: nat, a: nat, delay: nat)
    requires i < |env.groups| && a < MaxRetries
    ensures var r := Attempts(run, env, i, a, delay);
      r.successful + r.failed == run.successful + run.failed + 1 &&
      r.successful >= run.successful && r.failed >= run.failed &&
      |run.tasks| <= |r.tasks| <= |run.tasks| + 1 &&
      r.successful - run.successful == |r.tasks| - |run.tasks| &&
      r.tasks[..|run.tasks|] == run.tasks &&
      (|r.tasks| > |run.tasks| ==>
         r.tasks[|run.tasks|].logGroup == env.groups[i] && r.tasks[|run.tasks|].status == Pending) &&
      1 <= |r.creates| - |run.creates| <= MaxRetries - a &&
      r.creates == run.creates + Repeat(Call(env, i), |r.creates| - |run.creates|)
    decreases MaxRetries - a
  {
    var called := run.(creates := run.creates + [Call(env, i)]);
    if env.create(i)(a) == RateLimited && a < MaxRetries - 1 {
      var next := called.(sleeps := called.sleeps + [delay]);
      AttemptsShape(next, env, i, a + 1, delay * 2);
      var r := Attempts(next, env, i, a + 1, delay * 2);
      var k := |r.creates| - |next.creates|;
      assert r.creates == run.creates + [Call(env, i)] + Repeat(Call(env, i), k);
      assert [Call(env, i)] + Repeat(Call(env, i), k) == Repeat(Call(env, i), k + 1);
    } else {
      assert [Call(env, i)] == Repeat(Call(env, i), 1);
    }
  }

  /**
   * One pass of the loop over log groups: a missing group is skipped, an
   * error of the existence check counts a failure, and a found group goes
   * through the retry loop.
   */
  function ExportGroup(run: Run, env: Env, i: nat): Run
    requires i < |env.groups|
  {
    match env.existence(i)
    case Missing => run
    case CheckFailed => run.(failed := run.failed + 1)
    case Found => Attempts(run, env, i, 0, InitialDelay)
  }

  /**
   * One group bumps at most one counter, and appends at most one task,
   * PENDING and for this group, exactly when it counts a success.
   */
  lemma ExportGroupShape(run: Run, env: Env, i: nat)
    requires i < |env.groups|
    ensures var r := ExportGroup(run, env, i);
      && r.successful + r.failed <= run.successful + run.failed + 1
      && |run.tasks| <= |r.tasks| <= |run.tasks| + 1
      && r.successful - run.successful == |r.tasks| - |run.tasks|
      && r.tasks[..|run.tasks|] == run.tasks
      && (|r.tasks| > |run.tasks| ==>
            r.tasks[|run.tasks|].logGroup == env.groups[i] && r.tasks[|run.tasks|].status == Pending)
  {
    if env.existence(i) == Found {
      AttemptsShape(run, env, i, 0, InitialDelay);
    } else {
      assert run.tasks[..|run.tasks|] == run.tasks;
    }
  }

  /** A missing group changes nothing; a found one or a failed check bumps exactly one counter. */
  lemma OneCounterPerGroup(run: Run, env: Env, i: nat)
    requires i < |env.groups|
    ensures env.existence(i) == Missing ==> ExportGroup(run, env, i) == run
    ensures env.existence(i) == CheckFailed ==> ExportGroup(run, env, i) == run.(failed := run.failed + 1)
    ensures env.existence(i) != Missing ==>
              ExportGroup(run, env, i).successful + ExportGroup(run, env, i).failed ==
              run.successful + run.failed + 1
  {
  }

  /**
   * A group rate-limited on every attempt gets exactly three calls, sleeps
   * 30 s and then 60 s (none after the last attempt), and is counted once as
   * failed.
   */
  lemma AlwaysRateLimited(run: Run, env: Env, i: nat)
    requires i < |env.groups| && env.existence(i) == Found
    requires forall a :: 0 <= a < MaxRetries ==> env.create(i)(a) == RateLimited
    ensures ExportGroup(run, env, i) ==
            run.(creates := run.creates + Repeat(Call(env, i), 3),
                 sleeps := run.sleeps + [30, 60],
                 failed := run.failed + 1)
  {
    var c := Call(env, i);
    assert env.create(i)(0) == RateLimited && env.create(i)(1) == RateLimited && env.create(i)(2) == RateLimited;
    var r1 := run.(creates := run.creates + [c], sleeps := run.sleeps + [30]);
    var r2 := r1.(creates := r1.creates + [c], sleeps := r1.sleeps + [60]);
    assert Attempts(run, env, i, 0, 30) == Attempts(r1, env, i, 1, 60);
    assert Attempts(r1, env, i, 1, 60) == Attempts(r2, env, i, 2, 120);
    assert Attempts(r2, env, i, 2, 120) == r2.(creates := r2.creates + [c], failed := r2.failed + 1);
    assert Repeat(c, 3) == [c, c, c];
    assert run.creates + [c] + [c] + [c] == run.creates + Repeat(c, 3);
    assert run.sleeps + [30] + [60] == run.sleeps + [30, 60];
  }

  /** Any other create error fails the group after that one attempt. */
  lemma FirstAttemptErrors(run: Run, env: Env, i: nat)
    requires i < |env.groups| && env.existence(i) == Found
    requires env.create(i)(0) == CreateFailed
    ensures ExportGroup(run, env, i) ==
            run.(creates := run.creates + [Call(env, i)], failed := run.failed + 1)
  {
  }

  /**
   * A first attempt that succeeds makes one call and appends one PENDING task
   * with the returned id; it sleeps 5 s only while fewer tasks than groups exist.
   */
  lemma FirstAttemptSucceeds(run: Run, env: Env, i: nat, id: string)
    requires i < |env.groups| && env.existence(i) == Found
    requires env.create(i)(0) == Created(id)
    ensures var r := ExportGroup(run, env, i);
      r.tasks == run.tasks + [ExportTask(id, env.groups[i], Pending)] &&
      r.successful == run.successful + 1 && r.failed == run.failed &&
      r.creates == run.creates + [Call(env, i)] &&
      r.sleeps == run.sleeps + (if |run.tasks| + 1 < |env.groups| then [PacingDelay] else [])
  {
  }

  /** A success on the first attempt counts one success and no failure. */
  lemma FirstAttemptCounts(run: Run, env: Env, i: nat)
    requires i < |env.groups| && env.existence(i) == Found && env.create(i)(0).Created?
    ensures ExportGroup(run, env, i).successful == run.successful + 1
    ensures ExportGroup(run, env, i).failed == run.failed
  {
    assert ExportGroup(run, env, i) == Attempts(run, env, i, 0, InitialDelay);
  }

  const Start: Run := Run([], 0, 0, [], [])

  /** The state after the loop has handled the first n groups. */
  function Exports(env: Env, n: nat): Run
    requires n <= |env.groups|
  {
    if n == 0 then Start else ExportGroup(Exports(env, n - 1), env, n - 1)
  }

  /** Every task is PENDING and belongs to one of `groups`. */
  predicate AllPending(ts: seq<ExportTask>, groups: seq<string>) {
    forall t :: t in ts ==> t.status == Pending && t.logGroup in groups
  }

  /** Appending at most one PENDING task of a configured group keeps every task PENDING. */
  lemma PendingStep(prev: seq<ExportTask>, next: seq<ExportTask>, groups: seq<string>, i: nat)
    requires AllPending(prev, groups) && i < |groups|
    requires |prev| <= |next| <= |prev| + 1 && next[..|prev|] == prev
    requires |next| > |prev| ==> next[|prev|].logGroup == groups[i] && next[|prev|].status == Pending
    ensures AllPending(next, groups)
  {
    forall t | t in next ensures t.status == Pending && t.logGroup in groups {
      var k :| 0 <= k < |next| && next[k] == t;
      if k < |prev| {
        assert next[..|prev|][k] == t;
        assert t in prev;
      }
    }
  }

  /** The state after `n` groups: at most n counted, one task per success, every task PENDING. */
  ghost predicate Counted(r: Run, n: nat, groups: seq<string>) {
    && r.successful + r.failed <= n
    && r.successful == |r.tasks|
    && AllPending(r.tasks, groups)
  }

  /** Handling one more group keeps the state counted. */
  lemma CountedStep(env: Env, n: nat)
    requires 0 < n <= |env.groups| && Counted(Exports(env, n - 1), n - 1, env.groups)
    ensures Counted(Exports(env, n), n, env.groups)
  {
    var run := Exports(env, n - 1);
    assert Exports(env, n) == ExportGroup(run, env, n - 1);
    ExportGroupShape(run, env, n - 1);
    PendingStep(run.tasks, ExportGroup(run, env, n - 1).tasks, env.groups, n - 1);
  }

  /**
   * After n groups: at most n of them were counted, one task per success,
   * and every task is PENDING and belongs to a configured group.
   */
  lemma {:induction false} ExportsShape(env: Env, n: nat)
    requires n <= |env.groups|
    ensures Counted(Exports(env, n), n, env.groups)
  {
    if n > 0 {
      ExportsShape(env, n - 1);
      CountedStep(env, n);
    }
  }

  /** When every group exists and its first attempt succeeds, every group is counted a success. */
  lemma {:induction false} AllExported(env: Env, n: nat)
    requires n <= |env.groups|
    requires forall i :: 0 <= i < n ==> env.existence(i) == Found && env.create(i)(0).Created?
    ensures Exports(env, n).successful == n && Exports(env, n).failed == 0
  {
    if n > 0 {
      AllExported(env, n - 1);
      FirstAttemptCounts(Exports(env, n - 1), env, n - 1);
    }
  }

  /** The retry loop: `for attempt in range(max_retries)` with `break` on the way out. */
  method CreateWithRetry(run0: Run, env: Env, i: nat) returns (run: Run)
    requires i < |env.groups|
    ensures run == Attempts(run0, env, i, 0, InitialDelay)
  {
    run := run0;
    ghost var goal := Attempts(run0, env, i, 0, InitialDelay);
    var retryDelay := InitialDelay;
    var attempt := 0;
    while attempt < MaxRetries
      invariant 0 <= attempt <= MaxRetries
      invariant goal == Attempts(run, env, i, attempt, retryDelay)
    {
      var stop;
      run, retryDelay, stop := Attempt(run, env, i, attempt, retryDelay);
      if stop {
        return;
      }
      attempt := attempt + 1;
    }
  }

  /**
   * One turn of the retry loop: `stop` when it breaks out (a success, a
   * non-rate-limit error, or the last rate-limited attempt).
   */
  method Attempt(run0: Run, env: Env, i: nat, attempt: nat, delay: nat)
    returns (run: Run, nextDelay: nat, stop: bool)
    requires i < |env.groups| && attempt < MaxRetries
    ensures stop ==> run == Attempts(run0, env, i, attempt, delay)
    ensures !stop ==> Attempts(run0, env, i, attempt, delay) == Attempts(run, env, i, attempt + 1, nextDelay)
  {
    var prefix := DestinationPrefix(env.groups[i], env.stamp);
    var call := CreateCall(env.groups[i], Millis(env.start), Millis(env.start + Calendar.SecondsPerHour),
                           env.bucket, prefix);
    run, nextDelay, stop := run0.(creates := run0.creates + [call]), delay, true;
    match env.create(i)(attempt) {
      case Created(id) =>
        run := run.(tasks := run.tasks + [ExportTask(id, env.groups[i], Pending)],
                    successful := run.successful + 1);
        if |run.tasks| < |env.groups| {
          run := run.(sleeps := run.sleeps + [PacingDelay]);
        }
      case RateLimited =>
        if attempt < MaxRetries - 1 {
          run := run.(sleeps := run.sleeps + [delay]);
          nextDelay, stop := delay * 2, false;
        } else {
          run := run.(failed := run.failed + 1);
        }
      case CreateFailed =>
        run := run.(failed := run.failed + 1);
    }
  }

  /** The loop over log groups. */
  method ExportAll(env: Env) returns (run: Run)
    ensures run == Exports(env, |env.groups|)
  {
    run := Start;
    var i := 0;
    while i < |env.groups|
      invariant 0 <= i <= |env.groups|
      invariant run == Exports(env, i)
    {
      run := ProcessGroup(run, env, i);
      i := i + 1;
    }
  }

  /** One pass of the loop over log groups. */
  method ProcessGroup(run0: Run, env: Env, i: nat) returns (run: Run)
    requires i < |env.groups|
    ensures run == ExportGroup(run0, env, i)
  {
    run := run0;
    match env.existence(i) {
      case Missing =>
      case CheckFailed =>
        run := run.(failed := run.failed + 1);
      case Found =>
        run := CreateWithRetry(run, env, i);
    }
  }

  /** A task stays after its check unless it reached a terminal status or its check raised. */
  predicate Stays(rep: StatusReply) {
    rep.NoTasks? || (rep.Reported? && !Terminal(rep.code))
  }

  /** A reported status is written into the task. */
  function Updated(t: ExportTask, rep: StatusReply): ExportTask {
    if rep.Reported? then t.(status := rep.code) else t
  }

  /** The task list after one polling round, with `reply` the answers of that round. */
  function RoundResult(ts: seq<ExportTask>, reply: string -> StatusReply): seq<ExportTask> {
    if ts == [] then []
    else
      var t := ts[|ts| - 1];
      RoundResult(ts[..|ts| - 1], reply) + (if Stays(reply(t.taskId)) then [Updated(t, reply(t.taskId))] else [])
  }

  /**
   * A round removes exactly the tasks that finished or whose check raised:
   * every task left is one that stays, with its reported status, and every
   * task that stays is left.
   */
  lemma {:induction false} RoundExact(ts: seq<ExportTask>, reply: string -> StatusReply)
    ensures |RoundResult(ts, reply)| <= |ts|
    ensures forall t :: t in RoundResult(ts, reply) ==>
              exists k :: 0 <= k < |ts| && Stays(reply(ts[k].taskId)) && t == Updated(ts[k], reply(ts[k].taskId))
    ensures forall k :: 0 <= k < |ts| && Stays(reply(ts[k].taskId)) ==>
              Updated(ts[k], reply(ts[k].taskId)) in RoundResult(ts, reply)
  {
    if ts != [] {
      var p := ts[..|ts| - 1];
      RoundExact(p, reply);
      forall k | 0 <= k < |p| ensures p[k] == ts[k] {
      }
    }
  }

  /** A round never adds a task. */
  lemma {:induction false} RoundLength(ts: seq<ExportTask>, reply: string -> StatusReply)
    ensures |RoundResult(ts, reply)| <= |ts|
  {
    if ts != [] {
      RoundLength(ts[..|ts| - 1], reply);
    }
  }

  predicate AllOpen(ts: seq<ExportTask>) {
    forall t :: t in ts ==> !Terminal(t.status)
  }

  /** No task with a terminal status is ever left in the list. */
  lemma {:induction false} RoundKeepsOpen(ts: seq<ExportTask>, reply: string -> StatusReply)
    ensures AllOpen(ts) ==> AllOpen(RoundResult(ts, reply))
  {
    if ts != [] && AllOpen(ts) {
      var p := ts[..|ts| - 1];
      assert forall t :: t in p ==> t in ts;
      RoundKeepsOpen(p, reply);
    }
  }

  function Ids(ts: seq<ExportTask>): (ids: seq<string>)
    ensures |ids| == |ts| && forall k :: 0 <= k < |ts| ==> ids[k] == ts[k].taskId
  {
    seq(|ts|, k requires 0 <= k < |ts| => ts[k].taskId)
  }

  /**
   * One round: every task of a copy of the list is checked once, in order;
   * its reported status is written into it in the list, and it is removed
   * from the list when finished or when its check raised.
   */
  method PollRound(tasks0: seq<ExportTask>, reply: string -> StatusReply)
    returns (tasks: seq<ExportTask>, checked: seq<string>)
    ensures tasks == RoundResult(tasks0, reply)
    ensures checked == Ids(tasks0)
  {
    var copy := tasks0;
    tasks, checked := tasks0, [];
    var j := 0;
    while j < |copy|
      invariant 0 <= j <= |copy|
      invariant tasks == RoundResult(copy[..j], reply) + copy[j..]
      invariant checked == Ids(copy[..j])
    {
      RoundStep(copy, j, reply);
      var task := copy[j];
      var pos := |tasks| - (|copy| - j);
      checked := checked + [task.taskId];
      tasks := CheckTask(tasks, pos, task, reply(task.taskId));
      j := j + 1;
    }
    assert copy[..j] == copy;
  }

  /**
   * One task checked, at position `pos` of the live list: a reported status
   * is written into it, and it is removed when finished or when its check
   * raised.
   */
  method CheckTask(tasks0: seq<ExportTask>, pos: nat, task: ExportTask, rep: StatusReply)
    returns (tasks: seq<ExportTask>)
    requires pos < |tasks0| && tasks0[pos] == task
    ensures tasks == tasks0[..pos] + (if Stays(rep) then [Updated(task, rep)] else []) + tasks0[pos + 1..]
  {
    assert tasks0 == tasks0[..pos] + [task] + tasks0[pos + 1..];
    match rep {
      case Reported(code) =>
        var t := task.(status := code);
        tasks := tasks0[pos := t];
        assert tasks == tasks0[..pos] + [t] + tasks0[pos + 1..];
        if Terminal(code) {
          assert tasks[..pos] == tasks0[..pos] && tasks[pos + 1..] == tasks0[pos + 1..];
          tasks := tasks[..pos] + tasks[pos + 1..];
        }
      case NoTasks =>
        tasks := tasks0;
      case StatusCheckFailed =>
        tasks := tasks0[..pos] + tasks0[pos + 1..];
    }
  }

  /** How one check changes the live list, with the checked task at position |done|. */
  lemma RoundStep(copy: seq<ExportTask>, j: nat, reply: string -> StatusReply)
    requires j < |copy|
    ensures var done := RoundResult(copy[..j], reply);
      var t := copy[j];
      var live := done + copy[j..];
      && |live| - (|copy| - j) == |done|
      && live[|done|] == t
      && live[..|done|] == done
      && live[|done| + 1..] == copy[j + 1..]
      && RoundResult(copy[..j + 1], reply) ==
           done + (if Stays(reply(t.taskId)) then [Updated(t, reply(t.taskId))] else [])
      && Ids(copy[..j + 1]) == Ids(copy[..j]) + [t.taskId]
  {
    assert copy[..j + 1][..j] == copy[..j];
    var done := RoundResult(copy[..j], reply);
    var live := done + copy[j..];
    assert live[|done| + 1..] == copy[j..][1..];
  }

  /**
   * Seconds since polling began, seen at the test before round r: the r
   * ten-second sleeps of the earlier rounds plus the time their calls took.
   */
  function Elapsed(r: nat, latency: nat -> nat): nat {
    PollInterval * r + latency(r)
  }

  datatype Polled = Polled(tasks: seq<ExportTask>, rounds: nat)

  /**
   * The polling loop from round r on: it runs a round while tasks remain and
   * less than four minutes have passed.
   */
  function Polling(tasks: seq<ExportTask>, r: nat, reply: nat -> string -> StatusReply, latency: nat -> nat)
    : Polled
    decreases MaxWait - PollInterval * r
  {
    if tasks == [] || Elapsed(r, latency) >= MaxWait then Polled(tasks, r)
    else Polling(RoundResult(tasks, reply(r)), r + 1, reply, latency)
  }

  /**
   * Polling ends with no task left or four minutes gone, after at most 24
   * rounds; it never adds a task and never leaves one in a terminal status.
   */
  lemma {:induction false} PollingShape(tasks: seq<ExportTask>, r: nat, reply: nat -> string -> StatusReply,
                                        latency: nat -> nat)
    ensures var p := Polling(tasks, r, reply, latency);
      && (p.tasks == [] || Elapsed(p.rounds, latency) >= MaxWait)
      && r <= p.rounds <= (if r <= MaxWait / PollInterval then MaxWait / PollInterval else r)
      && |p.tasks| <= |tasks|
      && (AllOpen(tasks) ==> AllOpen(p.tasks))
    decreases MaxWait - PollInterval * r
  {
    if !(tasks == [] || Elapsed(r, latency) >= MaxWait) {
      RoundLength(tasks, reply(r));
      RoundKeepsOpen(tasks, reply(r));
      PollingShape(RoundResult(tasks, reply(r)), r + 1, reply, latency);
    }
  }

  /** The polling loop; `sleeps` are the ten-second waits after every round that left tasks. */
  method Poll(tasks0: seq<ExportTask>, reply: nat -> string -> StatusReply, latency: nat -> nat)
    returns (tasks: seq<ExportTask>, rounds: nat, sleeps: seq<nat>)
    ensures Polled(tasks, rounds) == Polling(tasks0, 0, reply, latency)
    ensures sleeps == Repeat(PollInterval, if tasks == [] && rounds > 0 then rounds - 1 else rounds)
  {
    tasks, rounds, sleeps := tasks0, 0, [];
    while tasks != [] && Elapsed(rounds, latency) < MaxWait
      invariant Polling(tasks, rounds, reply, latency) == Polling(tasks0, 0, reply, latency)
      invariant sleeps == Repeat(PollInterval, if tasks == [] && rounds > 0 then rounds - 1 else rounds)
      decreases MaxWait - PollInterval * rounds
    {
      assert sleeps == Repeat(PollInterval, rounds);
      var checked;
      tasks, checked := PollRound(tasks, reply(rounds));
      rounds := rounds + 1;
      if tasks != [] {
        sleeps := sleeps + [PollInterval];
      }
    }
  }

  /** The handler's reply without its text: statusCode, counts and the window. */
  datatype Summary = Summary(
    statusCode: int,
    totalLogGroups: nat,
    successfulExports: nat,
    failedExports: nat,
    from: int,
    to: int)

  /**
   * The handler. `run` is the state after the export loop (tasks, counters,
   * create calls and sleeps), `remaining` and `rounds` what polling left and
   * how many rounds it ran, `pollSleeps` its waits.
   */
  method Handler(now: int, groups: seq<string>, bucket: string, existence: nat -> Existence,
                 create: nat -> nat -> AttemptOutcome, reply: nat -> string -> StatusReply,
                 latency: nat -> nat)
    returns (run: Run, remaining: seq<ExportTask>, rounds: nat, pollSleeps: seq<nat>, summary: Summary)
    ensures var w := HourWindow(now);
      run == Exports(Env(groups, bucket, w.start, Calendar.HourStamp(w.start), existence, create), |groups|) &&
      Polled(remaining, rounds) == Polling(run.tasks, 0, reply, latency) &&
      summary == Summary(200, |groups|, run.successful, run.failed, w.start, w.end)
    ensures summary.successfulExports + summary.failedExports <= summary.totalLogGroups
    ensures summary.successfulExports == |run.tasks|
    ensures remaining == [] || Elapsed(rounds, latency) >= MaxWait
    ensures rounds <= MaxWait / PollInterval
    ensures AllOpen(remaining)
    ensures pollSleeps == Repeat(PollInterval, if remaining == [] && rounds > 0 then rounds - 1 else rounds)
  {
    var w := HourWindow(now);
    var env := Env(groups, bucket, w.start, Calendar.HourStamp(w.start), existence, create);
    run := ExportAll(env);
    ExportsShape(env, |groups|);
    remaining, rounds, pollSleeps := Poll(run.tasks, reply, latency);
    PollingShape(run.tasks, 0, reply, latency);
    summary := Summary(200, |groups|, run.successful, run.failed, w.start, w.end);
  }
}
