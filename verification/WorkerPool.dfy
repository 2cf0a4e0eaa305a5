/** The isolated worker pool: admission, queued, active and completed jobs, cancellation, stop and readiness. */
module WorkerPool {
  import opened Ir
  import opened Totals
  import opened Collections

  type Byte = b: int | 0 <= b < 256
  type Ticket = nat

  datatype Outcome = Success | Failed | Cancelled

  datatype Job = Job(reservation: nat, input: seq<Byte>, output: seq<Byte>, outcome: Outcome, active: bool,
                     cancelled: bool, done: bool)

  datatype Worker = Worker(current: Option<Ticket>, ready: bool, exited: bool, failed: bool)

  datatype Limits = Limits(outstanding: nat, input: nat, output: nat, reserved: nat)

  /** Everything the pool's mutex protects. */
  datatype View = View(jobs: map<Ticket, Job>, queued: seq<Ticket>, completed: seq<Ticket>, workers: seq<Worker>,
                       reserved: nat, alive: nat, nextJob: Ticket, stopping: bool)

  const UINT64_MAX: nat := 0xffff_ffff_ffff_ffff

  // ----- specification functions -----

  function Remove(s: seq<Ticket>, id: Ticket): seq<Ticket> {
    if |s| == 0 then [] else if s[0] == id then s[1..] else [s[0]] + Remove(s[1..], id)
  }

  /** Readiness as both the descriptor and polling see it. */
  predicate PollReady(v: View) {
    |v.completed| > 0 || (|v.jobs| == 0 && (v.stopping || v.alive == 0))
  }

  /**
   * Complete a job: out of the queue unless a worker had it, onto the completed list, and without payload unless it
   * succeeded.
   */
  function Finished(v: View, id: Ticket, outcome: Outcome): View
    requires id in v.jobs
  {
    var j := v.jobs[id];
    v.(jobs := v.jobs[id := j.(outcome := outcome, done := true, output := if outcome == Success then j.output
      else [])],
       queued := if j.active then v.queued else Remove(v.queued, id),
       completed := v.completed + [id])
  }

  function WithWorker(v: View, w: nat, x: Worker): View
    requires w < |v.workers|
  {
    v.(workers := v.workers[w := x])
  }

  function CountAlive(ws: seq<Worker>): nat {
    if |ws| == 0 then 0 else (if ws[0].exited then 0 else 1) + CountAlive(ws[1..])
  }

  function Reservations(jobs: map<Ticket, Job>): map<Ticket, nat> {
    map id | id in jobs :: jobs[id].reservation
  }

  // ----- the invariant -----

  ghost predicate JobOk(lim: Limits, v: View, id: Ticket)
    requires id in v.jobs
  {
    var j := v.jobs[id];
    && id < v.nextJob
    && j.reservation == |j.input| + lim.output && |j.input| <= lim.input && |j.output| <= lim.output
    && (id in v.queued <==> !j.active && !j.done)
    && (id in v.completed <==> j.done)
    && (!j.done || j.outcome != Success ==> j.output == [])
    && (j.active && !j.done ==> exists w :: Serves(v, w, id))
  }

  ghost predicate Serves(v: View, w: nat, id: Ticket) {
    w < |v.workers| && v.workers[w].current == Some(id)
  }

  ghost predicate WorkerOk(v: View, w: nat)
    requires w < |v.workers|
  {
    var x := v.workers[w];
    && (x.current.Some? ==>
          x.current.value in v.jobs && v.jobs[x.current.value].active && !v.jobs[x.current.value].done)
    && (x.current.Some? ==> x.ready && !x.exited && !x.failed)
  }

  ghost predicate Ascending(s: seq<Ticket>) {
    forall i, k :: 0 <= i < k < |s| ==> s[i] < s[k]
  }

  /** The running totals are exact and within the limits. */
  ghost predicate Ledger(lim: Limits, v: View) {
    && v.reserved == Total(Reservations(v.jobs)) <= lim.reserved
    && |v.jobs| <= lim.outstanding
    && v.alive == CountAlive(v.workers)
  }

  /** What every atomic piece of an operation keeps. */
  ghost predicate Core(lim: Limits, v: View) {
    && (forall id {:trigger JobOk(lim, v, id)} :: id in v.jobs ==> JobOk(lim, v, id))
    && (forall w {:trigger WorkerOk(v, w)} :: 0 <= w < |v.workers| ==> WorkerOk(v, w))
    && (forall w, x, id {:trigger Serves(v, w, id), Serves(v, x, id)} :: Serves(v, w, id) && Serves(v, x, id) ==>
         w == x)
    && (forall id :: id in v.queued || id in v.completed ==> id in v.jobs)
    && Ascending(v.queued) && Distinct(v.completed)
    && Ledger(lim, v)
  }

  ghost predicate Unavailable(v: View) {
    forall w :: 0 <= w < |v.workers| ==> v.workers[w].failed || v.workers[w].exited
  }

  /** What holds whenever the mutex is free. */
  ghost predicate Stable(lim: Limits, v: View) {
    && Core(lim, v)
    && (v.stopping ==> v.queued == [])
    && (Unavailable(v) ==> v.stopping)
  }

  // ----- list lemmas -----

  lemma {:induction false} RemoveMembers(s: seq<Ticket>, id: Ticket)
    requires Distinct(s)
    ensures forall x :: x in Remove(s, id) <==> x in s && x != id
  {
    if |s| > 0 {
      RemoveMembers(s[1..], id);
      assert s == [s[0]] + s[1..];
      assert forall x :: x in s[1..] ==> s[0] != x;
    }
  }

  lemma {:induction false} RemoveDistinct(s: seq<Ticket>, id: Ticket)
    requires Distinct(s)
    ensures Distinct(Remove(s, id))
  {
    if |s| > 0 && s[0] != id {
      RemoveDistinct(s[1..], id);
      RemoveMembers(s[1..], id);
      var r := Remove(s[1..], id);
      forall k | 0 <= k < |r| ensures s[0] != r[k] {
        assert r[k] in r && r[k] in s[1..];
      }
    }
  }

  lemma {:induction false} RemoveAscends(s: seq<Ticket>, id: Ticket)
    requires Ascending(s)
    ensures Ascending(Remove(s, id))
  {
    if |s| > 0 && s[0] != id {
      RemoveAscends(s[1..], id);
      RemoveMembers(s[1..], id);
      var r := Remove(s[1..], id);
      forall k | 0 <= k < |r| ensures s[0] < r[k] {
        assert r[k] in r && r[k] in s[1..];
      }
    }
  }

  lemma {:induction false} AliveAfter(ws: seq<Worker>, w: nat, x: Worker)
    requires w < |ws|
    ensures CountAlive(ws[w := x]) == CountAlive(ws) - (if ws[w].exited then 0 else 1) + (if x.exited then 0 else 1)
  {
    if w == 0 {
      assert ws[w := x][1..] == ws[1..];
    } else {
      AliveAfter(ws[1..], w - 1, x);
      assert ws[w := x][1..] == ws[1..][w - 1 := x];
    }
  }

  lemma {:induction false} NoneAlive(ws: seq<Worker>)
    ensures CountAlive(ws) == 0 <==> forall w :: 0 <= w < |ws| ==> ws[w].exited
  {
    if |ws| > 0 {
      NoneAlive(ws[1..]);
      assert forall w :: 0 < w < |ws| ==> ws[w] == ws[1..][w - 1];
    }
  }

  // ----- atomic pieces -----

  lemma SameReservations(a: map<Ticket, Job>, id: Ticket, j: Job)
    requires id in a && j.reservation == a[id].reservation
    ensures Reservations(a[id := j]) == Reservations(a) && |a[id := j]| == |a|
  {
    assert a[id := j].Keys == a.Keys;
  }

  /** A job nothing happened to. */
  lemma JobKept(lim: Limits, v: View, u: View, x: Ticket)
    requires x in v.jobs && JobOk(lim, v, x) && x in u.jobs && u.jobs[x] == v.jobs[x] && v.nextJob <= u.nextJob
    requires (x in u.queued <==> x in v.queued) && (x in u.completed <==> x in v.completed)
    requires forall w :: Serves(v, w, x) ==> Serves(u, w, x)
    ensures JobOk(lim, u, x)
  {
    if u.jobs[x].active && !u.jobs[x].done {
      var w :| Serves(v, w, x);
      assert Serves(u, w, x);
    }
  }

  lemma OnlyServer(lim: Limits, v: View, w: nat, y: nat, id: Ticket)
    requires Core(lim, v) && Serves(v, w, id) && y < |v.workers| && y != w
    ensures v.workers[y].current != Some(id)
  {
    assert Serves(v, y, id) <==> v.workers[y].current == Some(id);
  }

  lemma ServersKept(lim: Limits, v: View, u: View)
    requires Core(lim, v) && u.workers == v.workers
    ensures forall w, x, id {:trigger Serves(u, w, id), Serves(u, x, id)} :: Serves(u, w, id) && Serves(u, x, id) ==>
              w == x
  {
    forall w, x, id | Serves(u, w, id) && Serves(u, x, id) ensures w == x {
      assert Serves(v, w, id) && Serves(v, x, id);
    }
  }

  /** Completing a queued job. */
  lemma FinishQueuedKeeps(lim: Limits, v: View, id: Ticket, outcome: Outcome)
    requires Core(lim, v) && id in v.queued && outcome != Success
    ensures Core(lim, Finished(v, id, outcome))
    ensures Finished(v, id, outcome).queued == Remove(v.queued, id)
  {
    var u := Finished(v, id, outcome);
    assert id in v.jobs && JobOk(lim, v, id);
    RemoveMembers(v.queued, id);
    RemoveAscends(v.queued, id);
    SameReservations(v.jobs, id, u.jobs[id]);
    forall x | x in u.jobs ensures JobOk(lim, u, x) {
      assert JobOk(lim, v, x);
      if u.jobs[x].active && !u.jobs[x].done {
        var w :| Serves(v, w, x);
        assert Serves(u, w, x);
      }
    }
    forall w | 0 <= w < |u.workers| ensures WorkerOk(u, w) { assert WorkerOk(v, w); }
    forall w, x, y | Serves(u, w, y) && Serves(u, x, y) ensures w == x { assert Serves(v, w, y) && Serves(v, x, y); }
  }

  /** Completing the job a worker holds, which lets go of it. */
  function LetGo(v: View, w: nat, outcome: Outcome): View
    requires w < |v.workers| && v.workers[w].current.Some? && v.workers[w].current.value in v.jobs
  {
    WithWorker(Finished(v, v.workers[w].current.value, outcome), w, v.workers[w].(current := None))
  }

  /** The same, once the worker has written its output. */
  function Released(v: View, w: nat, outcome: Outcome, output: seq<Byte>): View
    requires w < |v.workers| && v.workers[w].current.Some? && v.workers[w].current.value in v.jobs
  {
    var id := v.workers[w].current.value;
    LetGo(v.(jobs := v.jobs[id := v.jobs[id].(output := output)]), w, outcome)
  }

  lemma ReleaseKeeps(lim: Limits, v: View, w: nat, outcome: Outcome, output: seq<Byte>)
    requires Core(lim, v) && w < |v.workers| && v.workers[w].current.Some? && |output| <= lim.output
    ensures v.workers[w].current.value in v.jobs && Core(lim, Released(v, w, outcome, output))
  {
    assert WorkerOk(v, w);
    var id := v.workers[w].current.value;
    var u := Released(v, w, outcome, output);
    assert Serves(v, w, id) && JobOk(lim, v, id);
    assert u.jobs == v.jobs[id := u.jobs[id]];
    SameReservations(v.jobs, id, u.jobs[id]);
    AliveAfter(v.workers, w, v.workers[w].(current := None));
    forall x | x in u.jobs ensures JobOk(lim, u, x) {
      assert JobOk(lim, v, x);
      if u.jobs[x].active && !u.jobs[x].done {
        var y :| Serves(v, y, x);
        assert Serves(u, y, x);
      }
    }
    forall y | 0 <= y < |u.workers| ensures WorkerOk(u, y) {
      assert WorkerOk(v, y);
      if y != w { OnlyServer(lim, v, w, y, id); }
    }
    forall x, y, z | Serves(u, x, z) && Serves(u, y, z) ensures x == y { assert Serves(v, x, z) && Serves(v, y, z); }
  }

  function NewJob(lim: Limits, bytes: seq<Byte>): Job {
    Job(|bytes| + lim.output, bytes, [], Success, false, false, false)
  }

  function Submitted(lim: Limits, v: View, bytes: seq<Byte>): View {
    v.(jobs := v.jobs[v.nextJob := NewJob(lim, bytes)], queued := v.queued + [v.nextJob],
       reserved := v.reserved + |bytes| + lim.output, nextJob := v.nextJob + 1)
  }

  lemma ReservationAdded(a: map<Ticket, Job>, id: Ticket, j: Job)
    requires id !in a
    ensures Total(Reservations(a[id := j])) == Total(Reservations(a)) + j.reservation && |a[id := j]| == |a| + 1
  {
    ReservationsAdd(a, id, j);
    TotalWith(Reservations(a), id, j.reservation);
  }

  lemma ReservationsAdd(a: map<Ticket, Job>, id: Ticket, j: Job)
    requires id !in a
    ensures Reservations(a[id := j]) == Reservations(a)[id := j.reservation] && |a[id := j]| == |a| + 1
  {
    assert a[id := j].Keys == a.Keys + {id};
  }

  lemma SubmitKeeps(lim: Limits, v: View, bytes: seq<Byte>)
    requires Core(lim, v) && |bytes| <= lim.input && |v.jobs| < lim.outstanding
    requires v.reserved + |bytes| + lim.output <= lim.reserved
    ensures Core(lim, Submitted(lim, v, bytes))
  {
    var id, u := v.nextJob, Submitted(lim, v, bytes);
    forall x | x in v.jobs ensures x != id { assert JobOk(lim, v, x); }
    ReservationAdded(v.jobs, id, u.jobs[id]);
    forall x | x in u.queued || x in u.completed ensures x in u.jobs { }
    forall x | x in u.jobs ensures JobOk(lim, u, x) {
      if x != id {
        assert JobOk(lim, v, x);
        assert forall w :: Serves(v, w, x) ==> Serves(u, w, x);
        JobKept(lim, v, u, x);
      } else {
        assert id !in v.completed;
      }
    }
    forall w | 0 <= w < |u.workers| ensures WorkerOk(u, w) { assert WorkerOk(v, w); }
    ServersKept(lim, v, u);
    assert Ascending(u.queued) by {
      forall i | 0 <= i < |v.queued| ensures v.queued[i] < id {
        assert v.queued[i] in v.queued && JobOk(lim, v, v.queued[i]);
      }
    }
  }

  /** Taking a completed job releases its reservation. */
  function Taken(v: View, id: Ticket): View
    requires id in v.jobs
  {
    v.(jobs := v.jobs - {id}, completed := Remove(v.completed, id),
       reserved := if v.jobs[id].reservation <= v.reserved then v.reserved - v.jobs[id].reservation else 0)
  }

  lemma TakeKeeps(lim: Limits, v: View, id: Ticket)
    requires Core(lim, v) && id in v.jobs && v.jobs[id].done
    ensures v.jobs[id].reservation <= v.reserved && Core(lim, Taken(v, id))
  {
    assert JobOk(lim, v, id);
    TotalWithout(Reservations(v.jobs), id);
    var u := Taken(v, id);
    assert Reservations(u.jobs) == Reservations(v.jobs) - {id};
    assert u.jobs.Keys == v.jobs.Keys - {id};
    RemoveMembers(v.completed, id);
    RemoveDistinct(v.completed, id);
    forall x | x in u.jobs ensures JobOk(lim, u, x) {
      assert JobOk(lim, v, x);
      assert forall w :: Serves(v, w, x) ==> Serves(u, w, x);
      JobKept(lim, v, u, x);
    }
    forall w | 0 <= w < |u.workers| ensures WorkerOk(u, w) { assert WorkerOk(v, w); }
    ServersKept(lim, v, u);
  }

  /** A worker claims the head of the queue. */
  function Received(v: View, w: nat): View
    requires |v.queued| > 0 && v.queued[0] in v.jobs && w < |v.workers|
  {
    var id := v.queued[0];
    WithWorker(v, w, v.workers[w].(current := Some(id))).(queued := v.queued[1..],
                                                          jobs := v.jobs[id := v.jobs[id].(active := true)])
  }

  lemma ReceiveKeeps(lim: Limits, v: View, w: nat)
    requires Core(lim, v) && |v.queued| > 0 && w < |v.workers|
    requires v.workers[w].ready && !v.workers[w].failed && !v.workers[w].exited && v.workers[w].current.None?
    ensures v.queued[0] in v.jobs && Core(lim, Received(v, w))
  {
    var id := v.queued[0];
    assert id in v.queued && id in v.jobs && JobOk(lim, v, id);
    var u := Received(v, w);
    assert v.queued == [id] + u.queued;
    SameReservations(v.jobs, id, u.jobs[id]);
    AliveAfter(v.workers, w, u.workers[w]);
    assert Serves(u, w, id);
    assert forall y, x :: Serves(v, y, x) ==> Serves(u, y, x);
    forall x | x in u.jobs ensures JobOk(lim, u, x) {
      assert JobOk(lim, v, x);
      if x != id { JobKept(lim, v, u, x); }
    }
    forall y | 0 <= y < |u.workers| ensures WorkerOk(u, y) { assert WorkerOk(v, y); }
    forall y | 0 <= y < |v.workers| ensures v.workers[y].current != Some(id) { assert WorkerOk(v, y); }
    forall x, y, z | Serves(u, x, z) && Serves(u, y, z) ensures x == y {
      if z != id { assert Serves(v, x, z) && Serves(v, y, z); }
    }
  }

  /** Flags of a worker that holds no job may change, as long as the count of living workers follows. */
  lemma FlagsKeep(lim: Limits, v: View, w: nat, x: Worker)
    requires Core(lim, v) && w < |v.workers| && v.workers[w].current.None? && x.current.None?
    ensures var u := WithWorker(v, w, x); Core(lim, u.(alive := CountAlive(u.workers)))
  {
    var u := WithWorker(v, w, x).(alive := CountAlive(WithWorker(v, w, x).workers));
    forall id | id in u.jobs ensures JobOk(lim, u, id) {
      assert JobOk(lim, v, id);
      if u.jobs[id].active && !u.jobs[id].done {
        var y :| Serves(v, y, id);
        assert Serves(u, y, id);
      }
    }
    forall y | 0 <= y < |u.workers| ensures WorkerOk(u, y) { assert WorkerOk(v, y); }
    forall a, b, z | Serves(u, a, z) && Serves(u, b, z) ensures a == b { assert Serves(v, a, z) && Serves(v, b, z); }
  }

  /** Asking for cancellation only sets a flag. */
  lemma CancelFlagKeeps(lim: Limits, v: View, id: Ticket)
    requires Core(lim, v) && id in v.jobs
    ensures Core(lim, v.(jobs := v.jobs[id := v.jobs[id].(cancelled := true)]))
  {
    var u := v.(jobs := v.jobs[id := v.jobs[id].(cancelled := true)]);
    SameReservations(v.jobs, id, u.jobs[id]);
    forall x | x in u.jobs ensures JobOk(lim, u, x) {
      assert JobOk(lim, v, x);
      if u.jobs[x].active && !u.jobs[x].done {
        var w :| Serves(v, w, x);
        assert Serves(u, w, x);
      }
    }
    forall w | 0 <= w < |u.workers| ensures WorkerOk(u, w) { assert WorkerOk(v, w); }
    forall w, x, y | Serves(u, w, y) && Serves(u, x, y) ensures w == x { assert Serves(v, w, y) && Serves(v, x, y); }
  }

  // ----- what happens to jobs over time -----

  function StoppedJob(j: Job): Job {
    if j.done then j
    else if j.active then j.(cancelled := true)
    else j.(cancelled := true, done := true, outcome := Cancelled, output := [])
  }

  /**
   * How the jobs of a pool may change over a run: stopping is final, tickets are never reused, a completion is final
   * until it is taken, and a job keeps its input and reservation.
   */
  ghost predicate Evolves(a: View, b: View) {
    && a.nextJob <= b.nextJob && (a.stopping ==> b.stopping)
    && (forall id :: id in b.jobs && id !in a.jobs ==> id >= a.nextJob)
    && (forall id :: id in a.jobs && a.jobs[id].done && id in b.jobs ==> b.jobs[id] == a.jobs[id])
    && forall id :: id in a.jobs && !a.jobs[id].done && id in b.jobs ==>
         b.jobs[id].input == a.jobs[id].input && b.jobs[id].reservation == a.jobs[id].reservation
  }

  /** In one operation, moreover, only a completed job can disappear. */
  ghost predicate Advances(a: View, b: View) {
    Evolves(a, b) && forall id :: id in a.jobs && id !in b.jobs ==> a.jobs[id].done
  }

  /**
   * A ticket that is gone stays gone, and one that is complete stays so: each job completes exactly once, over any run.
   */
  lemma EvolvesComposes(lim: Limits, a: View, b: View, c: View)
    requires Core(lim, a) && Core(lim, b) && Evolves(a, b) && Evolves(b, c)
    ensures Evolves(a, c)
    ensures forall id :: id in a.jobs && id !in b.jobs ==> id !in c.jobs
  {
    forall id | id in c.jobs && id in a.jobs ensures id in b.jobs {
      assert JobOk(lim, a, id);
    }
  }

  /** Once every worker has exited, every job still held is complete. */
  lemma ShutdownCompletes(lim: Limits, v: View, id: Ticket)
    requires Stable(lim, v) && (forall w :: 0 <= w < |v.workers| ==> v.workers[w].exited) && id in v.jobs
    ensures v.stopping && v.jobs[id].done && id in v.completed
  {
    assert Unavailable(v);
    assert JobOk(lim, v, id);
    forall w | 0 <= w < |v.workers| ensures v.workers[w].current.None? { assert WorkerOk(v, w); }
  }

  /** An admitted job is in exactly one place: the queue, the hands of exactly one worker, or the completed list. */
  lemma OnePlace(lim: Limits, v: View, id: Ticket)
    requires Core(lim, v) && id in v.jobs
    ensures (if id in v.queued then 1 else 0) + (if exists w :: Serves(v, w, id) then 1 else 0) + (if id in v.completed
            then 1 else 0) == 1
    ensures forall w, x :: Serves(v, w, id) && Serves(v, x, id) ==> w == x
  {
    assert JobOk(lim, v, id);
    forall w | Serves(v, w, id) ensures v.jobs[id].active && !v.jobs[id].done { assert WorkerOk(v, w); }
  }

  /** The reservations bound the bytes the pool retains. */
  lemma RetainedIsReserved(lim: Limits, v: View)
    requires Core(lim, v)
    ensures Total(Retained(v.jobs)) <= v.reserved <= lim.reserved
  {
    forall id | id in v.jobs ensures |v.jobs[id].input| + |v.jobs[id].output| <= v.jobs[id].reservation {
      assert JobOk(lim, v, id);
    }
    TotalBelow(Retained(v.jobs), Reservations(v.jobs));
  }

  function Retained(jobs: map<Ticket, Job>): map<Ticket, nat> {
    map id | id in jobs :: |jobs[id].input| + |jobs[id].output|
  }

  lemma {:induction false} TotalBelow(a: map<Ticket, nat>, b: map<Ticket, nat>)
    requires a.Keys == b.Keys && forall k :: k in a ==> a[k] <= b[k]
    ensures Total(a) <= Total(b)
    decreases |a|
  {
    if a.Keys != {} {
      var k :| k in a;
      TotalWithout(a, k);
      TotalWithout(b, k);
      assert (a - {k}).Keys == a.Keys - {k};
      TotalBelow(a - {k}, b - {k});
    } else {
      assert a == map[] && b == map[];
    }
  }

  // ----- draining, stopping, cancelling -----

  lemma ShiftOne(a: seq<Ticket>, b: seq<Ticket>)
    requires |b| > 0
    ensures (a + [b[0]]) + b[1..] == a + b
  {
  }

  lemma {:induction false} AllAlive(ws: seq<Worker>)
    requires forall w :: 0 <= w < |ws| ==> !ws[w].exited
    ensures CountAlive(ws) == |ws|
  {
    if |ws| > 0 {
      AllAlive(ws[1..]);
    }
  }

  function DrainedJob(j: Job, outcome: Outcome): Job {
    if j.done || j.active then j else j.(outcome := outcome, done := true, output := [])
  }

  function DrainedJobs(jobs: map<Ticket, Job>, outcome: Outcome): map<Ticket, Job> {
    map id | id in jobs :: DrainedJob(jobs[id], outcome)
  }

  /** With no worker available a pool stops, and whatever was queued has failed, in order. */
  ghost function Settled(v: View): View {
    if !Unavailable(v) then v
    else v.(stopping := true, queued := [], completed := v.completed + v.queued, jobs := DrainedJobs(v.jobs, Failed))
  }

  /**
   * Every job that waited is complete with the given outcome, except for those still listed; the others are as they
   * were.
   */
  ghost predicate DrainedTo(a: map<Ticket, Job>, b: map<Ticket, Job>, outcome: Outcome, rest: seq<Ticket>) {
    a.Keys == b.Keys && forall id :: id in a ==> b[id] == if id in rest then a[id] else DrainedJob(a[id], outcome)
  }

  lemma StoppingKeeps(lim: Limits, v: View)
    requires Core(lim, v)
    ensures Core(lim, v.(stopping := true))
  {
    var u := v.(stopping := true);
    forall id | id in u.jobs ensures JobOk(lim, u, id) {
      assert JobOk(lim, v, id);
      assert forall w :: Serves(v, w, id) ==> Serves(u, w, id);
      JobKept(lim, v, u, id);
    }
    forall w | 0 <= w < |u.workers| ensures WorkerOk(u, w) { assert WorkerOk(v, w); }
    ServersKept(lim, v, u);
  }

  lemma DrainStarts(lim: Limits, v: View, outcome: Outcome)
    requires Core(lim, v)
    ensures DrainedTo(v.jobs, v.jobs, outcome, v.queued)
  {
    forall id | id in v.jobs
      ensures v.jobs[id] == if id in v.queued then v.jobs[id] else DrainedJob(v.jobs[id], outcome) {
      assert JobOk(lim, v, id);
    }
  }

  lemma DrainOne(lim: Limits, v: View, outcome: Outcome)
    requires Core(lim, v) && |v.queued| > 0 && outcome != Success
    ensures v.queued[0] in v.jobs && !v.jobs[v.queued[0]].active && Core(lim, Finished(v, v.queued[0], outcome))
    ensures Finished(v, v.queued[0], outcome).queued == v.queued[1..]
  {
    assert v.queued[0] in v.queued && JobOk(lim, v, v.queued[0]);
    FinishQueuedKeeps(lim, v, v.queued[0], outcome);
  }

  lemma DrainedStep(lim: Limits, v: View, before: map<Ticket, Job>, outcome: Outcome)
    requires Core(lim, v) && |v.queued| > 0 && outcome != Success && v.queued[0] in v.jobs
             && !v.jobs[v.queued[0]].active
    requires DrainedTo(before, v.jobs, outcome, v.queued)
    ensures DrainedTo(before, Finished(v, v.queued[0], outcome).jobs, outcome, v.queued[1..])
  {
    var id := v.queued[0];
    assert JobOk(lim, v, id);
    assert v.queued == [id] + v.queued[1..];
    assert id !in v.queued[1..];
  }

  ghost predicate StoppedTo(a: map<Ticket, Job>, b: map<Ticket, Job>, id: Ticket) {
    a.Keys == b.Keys && forall x :: x in a ==> b[x] == if x < id then StoppedJob(a[x]) else a[x]
  }

  /** The loop of a stop after all tickets below `id`. */
  ghost predicate StoppingTo(lim: Limits, a: View, v: View, id: Ticket) {
    && Core(lim, v)
    && v == a.(jobs := v.jobs, queued := v.queued, completed := v.completed, stopping := true)
    && v.completed + v.queued == a.completed + a.queued
    && StoppedTo(a.jobs, v.jobs, id)
    && forall x :: x in v.queued ==> x >= id
  }

  lemma StopStarts(lim: Limits, v: View)
    requires Core(lim, v)
    ensures StoppingTo(lim, v, v.(stopping := true), 0)
  {
    StoppingKeeps(lim, v);
  }

  lemma StoppedToStep(a: map<Ticket, Job>, b: map<Ticket, Job>, id: Ticket)
    requires StoppedTo(a, b, id)
    ensures StoppedTo(a, if id in b then b[id := StoppedJob(b[id])] else b, id + 1)
  {
  }

  /** What one iteration does, short of the history of the loop. */
  lemma CancelKeeps(lim: Limits, v: View, id: Ticket)
    requires Core(lim, v) && id in v.jobs && forall x :: x in v.queued ==> x >= id
    ensures var u := CancelRequested(v, id);
            && Core(lim, u) && u.jobs == v.jobs[id := StoppedJob(v.jobs[id])]
            && u.completed + u.queued == v.completed + v.queued
            && (forall x :: x in u.queued ==> x >= id + 1)
            && u == v.(jobs := u.jobs, queued := u.queued, completed := u.completed)
  {
    assert JobOk(lim, v, id);
    if !v.jobs[id].done {
      CancelFlagKeeps(lim, v, id);
      if !v.jobs[id].active {
        StopQueued(lim, v, id);
        ShiftOne(v.completed, v.queued);
      }
    }
  }

  lemma StopStep(lim: Limits, a: View, v: View, id: Ticket)
    requires StoppingTo(lim, a, v, id)
    ensures StoppingTo(lim, a, if id in v.jobs then CancelRequested(v, id) else v, id + 1)
  {
    StoppedToStep(a.jobs, v.jobs, id);
    if id in v.jobs {
      CancelKeeps(lim, v, id);
    }
  }

  lemma StopQueued(lim: Limits, v: View, id: Ticket)
    requires Core(lim, v) && id in v.queued && id in v.jobs && !v.jobs[id].done && !v.jobs[id].active && forall x ::
               x in v.queued ==> x >= id
    ensures var u := CancelRequested(v, id);
            && Core(lim, u) && v.queued[0] == id && u.queued == v.queued[1..] && u.completed == v.completed + [id]
            && u.jobs == v.jobs[id := StoppedJob(v.jobs[id])] && forall x :: x in u.queued ==> x >= id + 1
  {
    CancelFlagKeeps(lim, v, id);
    HeadOfQueue(v.queued, id);
    DrainOne(lim, v.(jobs := v.jobs[id := v.jobs[id].(cancelled := true)]), Cancelled);
  }

  lemma HeadOfQueue(s: seq<Ticket>, id: Ticket)
    requires Ascending(s) && id in s && forall x :: x in s ==> x >= id
    ensures s[0] == id && forall x :: x in s[1..] ==> x > id
  {
    var k :| 0 <= k < |s| && s[k] == id;
    assert s[0] in s;
  }

  lemma StoppedAll(lim: Limits, a: View, v: View)
    requires StoppingTo(lim, a, v, v.nextJob) && Stable(lim, a)
    ensures v.queued == [] && v.completed == a.completed + a.queued && Stable(lim, v) && Advances(a, v)
    ensures forall id :: id in v.jobs ==> v.jobs[id] == StoppedJob(a.jobs[id])
  {
    assert |v.queued| > 0 ==> v.queued[0] in v.queued;
    forall id | id in v.jobs ensures id < v.nextJob { assert JobOk(lim, v, id); }
    assert v.completed + [] == v.completed;
  }

  // ----- what each operation keeps -----

  lemma SubmitEvolves(lim: Limits, v: View, bytes: seq<Byte>)
    requires Core(lim, v)
    ensures v.nextJob !in v.jobs && Advances(v, Submitted(lim, v, bytes))
  {
    forall id | id in v.jobs ensures id != v.nextJob { assert JobOk(lim, v, id); }
  }

  lemma TakeOk(lim: Limits, v: View, id: Ticket)
    requires Stable(lim, v) && id in v.jobs && v.jobs[id].done
    ensures v.jobs[id].reservation <= v.reserved && Stable(lim, Taken(v, id)) && Advances(v, Taken(v, id))
  {
    TakeKeeps(lim, v, id);
    SameAvailability(v, Taken(v, id));
  }

  lemma SameAvailability(v: View, u: View)
    requires u.workers == v.workers
    ensures Unavailable(u) <==> Unavailable(v)
  {
  }

  /** What a cancellation request does to a job that is not complete. */
  function CancelRequested(v: View, id: Ticket): View
    requires id in v.jobs
  {
    if v.jobs[id].done then v
    else
      var u := v.(jobs := v.jobs[id := v.jobs[id].(cancelled := true)]);
      if v.jobs[id].active then u else Finished(u, id, Cancelled)
  }

  lemma CancelCore(lim: Limits, v: View, id: Ticket)
    requires Core(lim, v) && id in v.jobs
    ensures Core(lim, CancelRequested(v, id)) && (v.queued == [] ==> CancelRequested(v, id).queued == [])
  {
    assert JobOk(lim, v, id);
    CancelFlagKeeps(lim, v, id);
    if !v.jobs[id].done && !v.jobs[id].active {
      FinishQueuedKeeps(lim, v.(jobs := v.jobs[id := v.jobs[id].(cancelled := true)]), id, Cancelled);
    }
  }

  lemma CancelAdvances(lim: Limits, v: View, id: Ticket)
    requires id in v.jobs && JobOk(lim, v, id)
    ensures Advances(v, CancelRequested(v, id))
    ensures CancelRequested(v, id).jobs == v.jobs[id := StoppedJob(v.jobs[id])]
    ensures v.jobs[id].active && !v.jobs[id].done ==> PollReady(CancelRequested(v, id)) == PollReady(v)
  {
    if v.jobs[id].active && !v.jobs[id].done {
      assert CancelRequested(v, id).jobs.Keys == v.jobs.Keys;
    }
  }

  lemma CancelOk(lim: Limits, v: View, id: Ticket)
    requires Stable(lim, v) && id in v.jobs
    ensures Stable(lim, CancelRequested(v, id)) && Advances(v, CancelRequested(v, id))
    ensures CancelRequested(v, id).jobs == v.jobs[id := StoppedJob(v.jobs[id])]
    ensures v.jobs[id].active && !v.jobs[id].done ==> PollReady(CancelRequested(v, id)) == PollReady(v)
  {
    assert JobOk(lim, v, id);
    CancelCore(lim, v, id);
    CancelAdvances(lim, v, id);
    SameAvailability(v, CancelRequested(v, id));
  }

  lemma ReceiveOk(lim: Limits, v: View, w: nat)
    requires Stable(lim, v) && |v.queued| > 0 && w < |v.workers|
    requires v.workers[w].ready && !v.workers[w].failed && !v.workers[w].exited && v.workers[w].current.None?
    ensures v.queued[0] in v.jobs && Stable(lim, Received(v, w)) && Advances(v, Received(v, w))
    ensures PollReady(Received(v, w)) == PollReady(v)
  {
    ReceiveKeeps(lim, v, w);
    var id := v.queued[0];
    assert id in v.queued && JobOk(lim, v, id);
    assert !Received(v, w).workers[w].failed && !Received(v, w).workers[w].exited;
    assert Received(v, w).jobs.Keys == v.jobs.Keys;
  }

  lemma ReadyOk(lim: Limits, v: View, w: nat)
    requires Stable(lim, v) && w < |v.workers| && !v.workers[w].failed && !v.workers[w].ready && !v.workers[w].exited
    ensures Stable(lim, WithWorker(v, w, v.workers[w].(ready := true)))
  {
    assert WorkerOk(v, w);
    var x := v.workers[w].(ready := true);
    FlagsKeep(lim, v, w, x);
    AliveAfter(v.workers, w, x);
    assert !WithWorker(v, w, x).workers[w].failed;
  }

  lemma ReleaseOk(lim: Limits, v: View, w: nat, outcome: Outcome, output: seq<Byte>)
    requires Stable(lim, v) && w < |v.workers| && v.workers[w].current.Some? && |output| <= lim.output
    ensures v.workers[w].current.value in v.jobs && v.jobs[v.workers[w].current.value].output == []
    ensures Stable(lim, Released(v, w, outcome, output)) && Advances(v, Released(v, w, outcome, output))
    ensures Released(v, w, outcome, output).jobs.Keys == v.jobs.Keys
            && Released(v, w, outcome, output).queued == v.queued
  {
    ReleaseKeeps(lim, v, w, outcome, output);
    assert WorkerOk(v, w);
    assert JobOk(lim, v, v.workers[w].current.value);
    var x := Released(v, w, outcome, output).workers[w];
    assert !x.failed && !x.exited;
  }

  /** The answer reaches the job unless that was cancelled. */
  function Replied(v: View, w: nat, bytes: seq<Byte>): View
    requires w < |v.workers|
  {
    if v.workers[w].current.None? || v.workers[w].current.value !in v.jobs then v
    else if v.jobs[v.workers[w].current.value].cancelled then Released(v, w, Cancelled, [])
    else Released(v, w, Success, bytes)
  }

  lemma RepliedIsLetGo(v: View, w: nat, bytes: seq<Byte>)
    requires w < |v.workers| && v.workers[w].current.Some? && v.workers[w].current.value in v.jobs
    requires v.jobs[v.workers[w].current.value].output == []
    ensures var id := v.workers[w].current.value;
            Replied(v, w, bytes) ==
              (if v.jobs[id].cancelled then LetGo(v, w, Cancelled)
               else if bytes == [] then LetGo(v, w, Success)
               else LetGo(v.(jobs := v.jobs[id := v.jobs[id].(output := bytes)]), w, Success))
  {
    var id := v.workers[w].current.value;
    assert v.jobs[id].(output := []) == v.jobs[id];
    assert v.jobs[id := v.jobs[id]] == v.jobs;
  }

  lemma ReplyOk(lim: Limits, v: View, w: nat, bytes: seq<Byte>)
    requires Stable(lim, v) && w < |v.workers| && v.workers[w].current.Some? && |bytes| <= lim.output
    ensures var id := v.workers[w].current.value;
            && id in v.jobs && v.jobs[id].output == []
            && Stable(lim, Replied(v, w, bytes)) && Advances(v, Replied(v, w, bytes))
  {
    assert WorkerOk(v, w);
    var id := v.workers[w].current.value;
    if v.jobs[id].cancelled {
      ReleaseOk(lim, v, w, Cancelled, []);
    } else {
      ReleaseOk(lim, v, w, Success, bytes);
    }
  }

  /** The worker has failed and let go of its job, which failed with it. */
  function Abandoned(v: View, w: nat): View
    requires w < |v.workers|
  {
    var u := WithWorker(v, w, v.workers[w].(failed := true));
    if v.workers[w].current.Some? && v.workers[w].current.value in v.jobs then LetGo(u, w, Failed) else u
  }

  lemma AbandonedIsReleased(v: View, w: nat)
    requires w < |v.workers| && v.workers[w].current.Some? && v.workers[w].current.value in v.jobs
    requires v.jobs[v.workers[w].current.value].output == []
    ensures var u := Released(v, w, Failed, []); Abandoned(v, w) == WithWorker(u, w, u.workers[w].(failed := true))
  {
    var id := v.workers[w].current.value;
    assert v.jobs[id].(output := []) == v.jobs[id];
    assert v.jobs[id := v.jobs[id]] == v.jobs;
  }

  lemma AbandonKeeps(lim: Limits, v: View, w: nat)
    requires Stable(lim, v) && w < |v.workers|
    ensures v.workers[w].current.Some? ==> v.workers[w].current.value in v.jobs
    ensures Core(lim, Abandoned(v, w)) && Abandoned(v, w).queued == v.queued
    ensures Advances(v, Abandoned(v, w)) && Abandoned(v, w).jobs.Keys == v.jobs.Keys
  {
    var u := v;
    if v.workers[w].current.Some? {
      ReleaseOk(lim, v, w, Failed, []);
      AbandonedIsReleased(v, w);
      u := Released(v, w, Failed, []);
    }
    FlagsKeep(lim, u, w, u.workers[w].(failed := true));
    AliveAfter(u.workers, w, u.workers[w].(failed := true));
  }

  lemma SettleAdvances(v: View, u: View)
    requires Advances(v, u) && u.jobs.Keys == v.jobs.Keys
    ensures Advances(v, Settled(u)) && Settled(u).jobs.Keys == v.jobs.Keys
  {
  }

  /** The worker has not come up, still holds a job nobody cancelled, or has nothing to do but was not told to stop. */
  predicate LeavesEarly(v: View, w: nat)
    requires w < |v.workers|
  {
    var x := v.workers[w];
    if !x.ready && !v.stopping then true
    else if x.current.Some? && x.current.value in v.jobs then !v.jobs[x.current.value].cancelled
    else !v.stopping && !x.failed
  }

  ghost function Departed(v: View, w: nat, initialized: bool): View
    requires w < |v.workers|
  {
    if !initialized || LeavesEarly(v, w) then Settled(Abandoned(v, w))
    else if v.workers[w].current.Some? && v.workers[w].current.value in v.jobs then LetGo(v, w, Cancelled)
    else v
  }

  function Gone(v: View, w: nat): View {
    if w >= |v.workers| || v.alive == 0 then v
      else WithWorker(v, w, v.workers[w].(exited := true)).(alive := v.alive - 1)
  }

  /**
   * A thread that ends leaves no job unfinished in its worker's hands: that job failed, or was cancelled if that was
   * asked for.
   */
  lemma DepartedJob(lim: Limits, v: View, w: nat, initialized: bool)
    requires Stable(lim, v) && w < |v.workers| && v.workers[w].current.Some?
    ensures var id, u := v.workers[w].current.value, Departed(v, w, initialized);
            && id in v.jobs && id in u.jobs && u.jobs[id].done && u.jobs[id].output == []
            && (u.jobs[id].outcome == if initialized && v.jobs[id].cancelled then Cancelled else Failed)
  {
    assert WorkerOk(v, w);
  }

  lemma CancelledOk(lim: Limits, v: View, w: nat)
    requires Stable(lim, v) && w < |v.workers| && v.workers[w].current.Some?
    ensures v.workers[w].current.value in v.jobs
    ensures Stable(lim, LetGo(v, w, Cancelled)) && Advances(v, LetGo(v, w, Cancelled))
            && LetGo(v, w, Cancelled).jobs.Keys == v.jobs.Keys
  {
    ReleaseOk(lim, v, w, Cancelled, []);
    var id := v.workers[w].current.value;
    assert v.jobs[id].(output := []) == v.jobs[id];
    assert v.jobs[id := v.jobs[id]] == v.jobs;
  }

  lemma ExitKeeps(lim: Limits, v: View, w: nat)
    requires Stable(lim, v) && w < |v.workers| && v.workers[w].current.None? && !v.workers[w].exited
    ensures v.alive > 0 && Core(lim, Gone(v, w)) && (PollReady(Gone(v, w)) == PollReady(v) || Unavailable(Gone(v, w)))
  {
    FlagsKeep(lim, v, w, v.workers[w].(exited := true));
    AliveAfter(v.workers, w, v.workers[w].(exited := true));
    NoneAlive(Gone(v, w).workers);
  }

  lemma ExitOk(lim: Limits, a: View, v: View, w: nat)
    requires Stable(lim, v) && w < |v.workers| && v.workers[w].current.None? && !v.workers[w].exited
    requires Advances(a, v) && v.jobs.Keys == a.jobs.Keys
    ensures v.alive > 0 && Core(lim, Gone(v, w)) && (PollReady(Gone(v, w)) == PollReady(v) || Unavailable(Gone(v, w)))
    ensures Advances(a, Settled(Gone(v, w))) && Settled(Gone(v, w)).jobs.Keys == a.jobs.Keys
  {
    ExitKeeps(lim, v, w);
    SettleAdvances(a, Gone(v, w));
  }

  // ----- the readiness channel -----

  /** One byte in a non-blocking pipe, present exactly while the owner has announced readiness. */
  class ReadinessChannel {
    const capacity: nat
    var isOpen: bool
    var notified: bool
    var bytes: nat

    constructor (capacity: nat)
      requires capacity > 0
      ensures isOpen && !notified && bytes == 0 && this.capacity == capacity
    {
      this.capacity := capacity;
      isOpen, notified, bytes := true, false, 0;
    }

    ghost predicate Level()
      reads this
    {
      isOpen && capacity > 0 && bytes == if notified then 1 else 0
    }

    /**
     * Write or read the byte until the call is not interrupted. `interruptions` is how often that happens. The
     * result is false if the channel failed, which ends the process.
     */
    method Set(ready: bool, interruptions: nat) returns (ok: bool)
      modifies this`notified, this`bytes
      ensures old(Level()) ==> ok && Level() && notified == ready
      ensures !old(isOpen) || ready == old(notified) ==> ok && notified == old(notified) && bytes == old(bytes)
      ensures ok && old(isOpen) ==> notified == ready
    {
      ok := true;
      if !isOpen || ready == notified { return; }
      var left := interruptions;
      while true
        invariant bytes == old(bytes) && notified == old(notified)
        decreases left
      {
        if left > 0 {
          left := left - 1;
        } else if ready {
          if bytes == capacity { return false; }
          bytes := bytes + 1;
          break;
        } else {
          if bytes > 0 { bytes := bytes - 1; }
          break;
        }
      }
      notified := ready;
    }
  }

  datatype Status = Ok | Invalid | LimitExceeded | Stopped | Full | Empty | Blocked

  /** A pool whose threads have all been started. */
  class Pool {
    const lim: Limits
    const channel: ReadinessChannel
    var jobs: map<Ticket, Job>
    var queued: seq<Ticket>
    var completed: seq<Ticket>
    var workers: seq<Worker>
    var reserved: nat
    var alive: nat
    var nextJob: Ticket
    var stopping: bool

    ghost function State(): View
      reads this
    {
      View(jobs, queued, completed, workers, reserved, alive, nextJob, stopping)
    }

    /** The descriptor is readable exactly when polling would have something to say. */
    ghost predicate Signalled()
      reads this, channel
    {
      channel.Level() && channel.notified == PollReady(State())
    }

    /** What holds at every unlock. */
    ghost predicate Valid()
      reads this, channel
    {
      Stable(lim, State()) && Signalled()
    }

    constructor (lim: Limits, workerCount: nat, channel: ReadinessChannel)
      requires 1 <= workerCount && channel.Level() && !channel.notified
      ensures Valid() && State() ==
                View(map[], [], [], seq(workerCount, i => Worker(None, false, false, false)), 0, workerCount, 1, false)
      ensures this.lim == lim && this.channel == channel
    {
      this.lim := lim;
      this.channel := channel;
      jobs, queued, completed, reserved, nextJob, stopping := map[], [], [], 0, 1, false;
      workers := seq(workerCount, i => Worker(None, false, false, false));
      alive := workerCount;
      new;
      AllAlive(workers);
      assert Reservations(jobs) == map[];
      assert !workers[0].failed && !workers[0].exited;
    }

    method SetReadiness()
      requires channel.Level()
      modifies channel
      ensures Signalled()
    {
      var ok := channel.Set(|completed| > 0 || (|jobs| == 0 && (stopping || alive == 0)), 0);
    }

    /** Complete one job and announce it. */
    method Finish(id: Ticket, outcome: Outcome)
      requires id in jobs && channel.Level()
      modifies this`jobs, this`queued, this`completed, channel
      ensures State() == Finished(old(State()), id, outcome) && Signalled()
    {
      var j := jobs[id];
      if !j.active { queued := Remove(queued, id); }
      jobs := jobs[id := j.(outcome := outcome, done := true, output := if outcome == Success then j.output else [])];
      completed := completed + [id];
      SetReadiness();
    }

    method NoneAvailable() returns (r: bool)
      ensures r <==> Unavailable(State())
    {
      for w := 0 to |workers|
        invariant forall x :: 0 <= x < w ==> workers[x].failed || workers[x].exited
      {
        if !workers[w].failed && !workers[w].exited { return false; }
      }
      return true;
    }

    /** Fail whatever is queued, in order. */
    method DrainQueue()
      requires Core(lim, State()) && channel.Level()
      modifies this`jobs, this`queued, this`completed, channel
      ensures Core(lim, State()) && channel.Level()
      ensures queued == [] && completed == old(completed) + old(queued)
      ensures jobs == DrainedJobs(old(jobs), Failed)
    {
      DrainStarts(lim, State(), Failed);
      while |queued| > 0
        invariant Core(lim, State()) && channel.Level()
        invariant completed + queued == old(completed) + old(queued)
        invariant DrainedTo(old(jobs), jobs, Failed, queued)
        decreases |queued|
      {
        DrainOne(lim, State(), Failed);
        DrainedStep(lim, State(), old(jobs), Failed);
        ShiftOne(completed, queued);
        Finish(queued[0], Failed);
      }
      assert completed + [] == completed;
    }

    /** With no worker left, stop and fail the queue. */
    method StopIfUnavailable()
      requires Core(lim, State()) && (stopping ==> queued == []) && channel.Level()
      modifies this`jobs, this`queued, this`completed, this`stopping, channel
      ensures Stable(lim, State()) && channel.Level()
      ensures State() == Settled(old(State()))
      ensures if old(Unavailable(State())) then Signalled() else channel.notified == old(channel.notified)
    {
      var none := NoneAvailable();
      if none {
        StoppingKeeps(lim, State());
        stopping := true;
        DrainQueue();
        assert State() == Settled(old(State()));
        SetReadiness();
      }
    }

    /** Flag a job as cancelled, and complete it if no worker has it. */
    method CancelOne(id: Ticket)
      requires id in jobs && channel.Level()
      modifies this`jobs, this`queued, this`completed, channel
      ensures State() == CancelRequested(old(State()), id) && channel.Level()
      ensures if old(!jobs[id].done && !jobs[id].active) then Signalled() else channel.notified == old(channel.notified)
    {
      if !jobs[id].done {
        jobs := jobs[id := jobs[id].(cancelled := true)];
        if !jobs[id].active { Finish(id, Cancelled); }
      }
    }

    /** Stop: queued jobs are cancelled in order, active ones are asked to cancel, nothing new will be admitted. */
    method Stop()
      requires Valid()
      modifies this`jobs, this`queued, this`completed, this`stopping, channel
      ensures Valid() && stopping && queued == [] && completed == old(completed) + old(queued)
      ensures jobs.Keys == old(jobs).Keys && forall id :: id in jobs ==> jobs[id] == StoppedJob(old(jobs)[id])
      ensures Advances(old(State()), State())
    {
      StopStarts(lim, State());
      stopping := true;
      for id := 0 to nextJob
        invariant StoppingTo(lim, old(State()), State(), id) && channel.Level()
      {
        StopStep(lim, old(State()), State(), id);
        if id in jobs { CancelOne(id); }
      }
      StoppedAll(lim, old(State()), State());
      SetReadiness();
    }

    /** Admission: refused once stopping, beyond the limits, or when the reservation does not fit. */
    method Submit(bytes: seq<Byte>) returns (status: Status, ticket: Ticket)
      requires Valid()
      modifies this`jobs, this`queued, this`reserved, this`nextJob
      ensures Valid() && Advances(old(State()), State())
      ensures status == Ok <==> old(!stopping && alive != 0 && |bytes| <= lim.input && |jobs| < lim.outstanding
                                    && reserved + |bytes| + lim.output <= lim.reserved && nextJob != UINT64_MAX)
      ensures status == Ok ==> ticket == old(nextJob) && State() == Submitted(lim, old(State()), bytes)
      ensures status != Ok ==> State() == old(State()) && ticket == 0
      ensures status == Stopped <==> old(stopping || alive == 0)
    {
      ticket := 0;
      if stopping || alive == 0 { return Stopped, 0; }
      if |bytes| > lim.input { return LimitExceeded, 0; }
      var reservation := |bytes| + lim.output;
      if |jobs| >= lim.outstanding || reservation > lim.reserved || reserved > lim.reserved - reservation {
        return Full, 0;
      }
      if nextJob == UINT64_MAX { return LimitExceeded, 0; }
      SubmitKeeps(lim, State(), bytes);
      SubmitEvolves(lim, State(), bytes);
      ticket := nextJob;
      jobs := jobs[ticket := NewJob(lim, bytes)];
      queued := queued + [ticket];
      reserved := reserved + reservation;
      nextJob := ticket + 1;
      assert State() == Submitted(lim, old(State()), bytes);
      assert ticket in jobs;
      status := Ok;
    }

    /** The oldest completion, without consuming it. */
    method Poll() returns (status: Status, ticket: Ticket, size: nat, outcome: Outcome)
      requires Valid()
      modifies channel
      ensures Valid()
      ensures status == Ok <==> completed != []
      ensures status == Stopped <==> completed == [] && jobs == map[] && stopping
      ensures status == Empty <==> !PollReady(State())
      ensures status == Ok ==> ticket == completed[0] && ticket in jobs && jobs[ticket].done
                               && size == |jobs[ticket].output| && outcome == jobs[ticket].outcome
    {
      SetReadiness();
      NoneAlive(workers);
      ticket, size, outcome := 0, 0, Success;
      if |completed| == 0 {
        status := if |jobs| == 0 && (stopping || alive == 0) then Stopped else Empty;
      } else {
        ticket := completed[0];
        assert ticket in completed && JobOk(lim, State(), ticket);
        size, outcome, status := |jobs[ticket].output|, jobs[ticket].outcome, Ok;
      }
    }

    /** Consume a completion whose payload fits, and release its reservation. */
    method Take(ticket: Ticket, capacity: nat, buffer: bool) returns (status: Status, output: seq<Byte>)
      requires Valid()
      modifies this`jobs, this`completed, this`reserved, channel
      ensures Valid() && Advances(old(State()), State())
      ensures status == Ok <==>
                old(ticket in jobs && jobs[ticket].done && |jobs[ticket].output| <= capacity
                  && (buffer || jobs[ticket].output == []))
      ensures status == Ok ==> output == old(jobs)[ticket].output && State() == Taken(old(State()), ticket)
      ensures status != Ok ==> State() == old(State())
    {
      output := [];
      if ticket !in jobs { return Invalid, []; }
      var j := jobs[ticket];
      if !j.done { return Empty, []; }
      if capacity < |j.output| { return LimitExceeded, []; }
      if |j.output| > 0 && !buffer { return Invalid, []; }
      TakeOk(lim, State(), ticket);
      output := j.output;
      completed := Remove(completed, ticket);
      reserved := reserved - j.reservation;
      jobs := jobs - {ticket};
      assert State() == Taken(old(State()), ticket);
      SetReadiness();
      status := Ok;
    }

    /** A queued job completes at once as cancelled; an active one is only asked to. */
    method Cancel(ticket: Ticket) returns (status: Status)
      requires Valid()
      modifies this`jobs, this`queued, this`completed, channel
      ensures Valid() && Advances(old(State()), State())
      ensures status == Ok <==> ticket in old(jobs)
      ensures State() == if ticket in old(jobs) then CancelRequested(old(State()), ticket) else old(State())
    {
      if ticket !in jobs { return Invalid; }
      CancelOk(lim, State(), ticket);
      CancelOne(ticket);
      status := Ok;
    }

    /** A worker claims the oldest queued job, or learns of the stop; otherwise it keeps waiting. */
    method Receive(w: nat) returns (status: Status, length: nat)
      requires Valid() && w < |workers| && !workers[w].exited
      modifies this`jobs, this`queued, this`workers
      ensures Valid() && Advances(old(State()), State())
      ensures status == Ok <==> old(workers[w].ready && !workers[w].failed && workers[w].current.None? && queued != [])
      ensures status == Ok ==> State() == Received(old(State()), w) && length == |jobs[old(queued)[0]].input|
      ensures status != Ok ==> State() == old(State())
      ensures status == Stopped ==> stopping
    {
      length := 0;
      if !workers[w].ready || workers[w].failed || workers[w].current.Some? { return Invalid, 0; }
      if stopping { return Stopped, 0; }
      if |queued| == 0 { return Blocked, 0; }
      ReceiveOk(lim, State(), w);
      var id := queued[0];
      workers := workers[w := workers[w].(current := Some(id))];
      queued := queued[1..];
      jobs := jobs[id := jobs[id].(active := true)];
      assert State() == Received(old(State()), w);
      length, status := |jobs[id].input|, Ok;
    }

    /** A worker reports that it is up. */
    method Ready(w: nat) returns (status: Status)
      requires Valid() && w < |workers| && !workers[w].exited
      modifies this`workers
      ensures Valid() && Advances(old(State()), State())
      ensures status == Ok <==> old(!workers[w].failed && !workers[w].ready && !stopping)
      ensures State() == if status == Ok then WithWorker(old(State()), w, old(workers)[w].(ready := true))
              else old(State())
    {
      if workers[w].failed || workers[w].ready { return Invalid; }
      if stopping { return Stopped; }
      ReadyOk(lim, State(), w);
      workers := workers[w := workers[w].(ready := true)];
      status := Ok;
    }

    /** Complete the job worker `w` holds. */
    method FinishCurrent(w: nat, outcome: Outcome)
      requires w < |workers| && workers[w].current.Some? && workers[w].current.value in jobs && channel.Level()
      modifies this`jobs, this`queued, this`completed, this`workers, channel
      ensures State() == LetGo(old(State()), w, outcome) && Signalled()
    {
      Finish(workers[w].current.value, outcome);
      workers := workers[w := workers[w].(current := None)];
    }

    /** A worker answers its job; the answer to a cancelled job is dropped. */
    method Reply(w: nat, bytes: seq<Byte>) returns (status: Status)
      requires Valid() && w < |workers| && !workers[w].exited
      modifies this`jobs, this`queued, this`completed, this`workers, channel
      ensures Valid() && Advances(old(State()), State())
      ensures status == Ok <==> old(workers[w].current.Some?) && |bytes| <= lim.output
      ensures State() == if status == Ok then Replied(old(State()), w, bytes) else old(State())
    {
      assert WorkerOk(State(), w);
      if workers[w].current.None? || workers[w].failed { return Invalid; }
      if |bytes| > lim.output { return LimitExceeded; }
      ReplyOk(lim, State(), w, bytes);
      RepliedIsLetGo(State(), w, bytes);
      var id := workers[w].current.value;
      var j := jobs[id];
      if !j.cancelled && |bytes| > 0 { jobs := jobs[id := j.(output := bytes)]; }
      FinishCurrent(w, if j.cancelled then Cancelled else Success);
      status := Ok;
    }

    /** A worker fails: its job fails with it, and with the last available worker so does everything queued. */
    method Fail(w: nat)
      requires Valid() && w < |workers| && !workers[w].exited
      modifies this`jobs, this`queued, this`completed, this`workers, this`stopping, channel
      ensures Valid() && Advances(old(State()), State()) && jobs.Keys == old(jobs).Keys
      ensures State() == Settled(Abandoned(old(State()), w))
    {
      AbandonKeeps(lim, State(), w);
      SettleAdvances(State(), Abandoned(State(), w));
      workers := workers[w := workers[w].(failed := true)];
      if workers[w].current.Some? { FinishCurrent(w, Failed); }
      StopIfUnavailable();
    }

    /** What becomes of the job of a worker whose thread ends, and whether the worker counts as failed. */
    method Depart(w: nat, initialized: bool)
      requires Valid() && w < |workers| && !workers[w].exited
      modifies this`jobs, this`queued, this`completed, this`workers, this`stopping, channel
      ensures Valid() && Advances(old(State()), State()) && jobs.Keys == old(jobs).Keys && alive == old(alive)
      ensures State() == Departed(old(State()), w, initialized)
      ensures |workers| == |old(workers)| && workers[w].current.None? && !workers[w].exited
    {
      assert WorkerOk(State(), w);
      var x := workers[w];
      if !initialized || (!x.ready && !stopping) {
        Fail(w);
      } else if x.current.Some? {
        if jobs[x.current.value].cancelled {
          CancelledOk(lim, State(), w);
          FinishCurrent(w, Cancelled);
        } else {
          Fail(w);
        }
      } else if !stopping && !x.failed {
        Fail(w);
      }
    }

    /**
     * The end of a worker's thread. A worker that never came up, that leaves an uncancelled job behind or that leaves
     * before the stop has failed.
     */
    method Exit(w: nat, initialized: bool)
      requires Valid() && w < |workers| && !workers[w].exited
      modifies this`jobs, this`queued, this`completed, this`workers, this`alive, this`stopping, channel
      ensures Valid() && Advances(old(State()), State()) && jobs.Keys == old(jobs).Keys && alive == old(alive) - 1
      ensures State() == Settled(Gone(Departed(old(State()), w, initialized), w))
    {
      Depart(w, initialized);
      ExitOk(lim, old(State()), State(), w);
      MarkExited(w);
      StopIfUnavailable();
    }

    method MarkExited(w: nat)
      requires w < |workers| && alive > 0
      modifies this`workers, this`alive
      ensures State() == Gone(old(State()), w)
    {
      workers := workers[w := workers[w].(exited := true)];
      alive := alive - 1;
    }
  }
}
