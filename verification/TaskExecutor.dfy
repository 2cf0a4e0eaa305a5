/** The joined-task executor: chunked groups, a shared ready list, and coordinators that help. */
module TaskExecutor {
  import opened Ir
  import opened Collections
  import opened Totals

  // ----- chunks -----

  datatype Range = Range(begin: nat, end: nat)

  function Min(a: nat, b: nat): nat {
    if a < b then a else b
  }

  /** Ranges laid end to end from zero, none empty, up to `count`. */
  ghost predicate Partitions(rs: seq<Range>, count: nat) {
    && (forall i :: 0 <= i < |rs| ==> rs[i].begin < rs[i].end)
    && (forall i :: 0 <= i < |rs| - 1 ==> rs[i].end == rs[i + 1].begin)
    && (if |rs| == 0 then count == 0 else rs[0].begin == 0 && rs[|rs| - 1].end == count)
  }

  ghost predicate Sized(rs: seq<Range>, width: nat) {
    forall i :: 0 <= i < |rs| ==> width <= rs[i].end - rs[i].begin <= width + 1
  }

  /**
   * The publication loop of a coordinator: at most four chunks per permitted worker, sizes differing by at most one.
   */
  method PlanChunks(count: nat, limit: nat) returns (rs: seq<Range>)
    requires 1 <= limit
    ensures Partitions(rs, count) && |rs| == Min(count, limit * 4)
    ensures |rs| > 0 ==> Sized(rs, count / |rs|)
  {
    rs := [];
    if count == 0 { return; }
    var chunks := Min(count, limit * 4);
    var width, remainder := Divide(count, chunks);
    rs := CutChunks(count, chunks, width, remainder);
  }

  method Divide(count: nat, chunks: nat) returns (width: nat, remainder: nat)
    requires 1 <= chunks <= count
    ensures width == count / chunks && width >= 1 && remainder < chunks && chunks * width + remainder == count
  {
    width, remainder := count / chunks, count % chunks;
    assert count == chunks * width + remainder;
  }

  ghost function Start(index: nat, width: nat, remainder: nat): nat {
    index * width + Min(index, remainder)
  }

  lemma StartStep(index: nat, width: nat, remainder: nat)
    ensures Start(index + 1, width, remainder) ==
              Start(index, width, remainder) + width + (if index < remainder then 1 else 0)
  {
    assert (index + 1) * width == index * width + width;
  }

  method CutChunks(count: nat, chunks: nat, width: nat, remainder: nat) returns (rs: seq<Range>)
    requires 1 <= chunks && 1 <= width && remainder < chunks && chunks * width + remainder == count
    ensures Partitions(rs, count) && |rs| == chunks && Sized(rs, width)
  {
    rs := [];
    var begin := 0;
    assert Start(0, width, remainder) == 0;
    for index := 0 to chunks
      invariant |rs| == index && begin == Start(index, width, remainder)
      invariant Partitions(rs, begin) && Sized(rs, width)
    {
      StartStep(index, width, remainder);
      var end := begin + width + (if index < remainder then 1 else 0);
      rs := rs + [Range(begin, end)];
      begin := end;
    }
  }

  lemma {:induction false} PartitionIsOrdered(rs: seq<Range>, count: nat, i: nat, j: nat)
    requires Partitions(rs, count) && i < j < |rs|
    ensures rs[i].end <= rs[j].begin
  {
    if i + 1 < j {
      PartitionIsOrdered(rs, count, i, j - 1);
      assert rs[j - 1].end == rs[j - 1 + 1].begin;
    } else {
      assert rs[i].end == rs[i + 1].begin;
    }
  }

  lemma {:induction false} ChunkOf(rs: seq<Range>, count: nat, n: nat, x: nat) returns (k: nat)
    requires Partitions(rs, count) && 0 < n <= |rs| && x < rs[n - 1].end
    ensures k < n && rs[k].begin <= x < rs[k].end
  {
    if rs[n - 1].begin <= x {
      k := n - 1;
    } else {
      assert rs[n - 2].end == rs[n - 2 + 1].begin;
      k := ChunkOf(rs, count, n - 1, x);
    }
  }

  /** Every index lies in exactly one chunk. */
  lemma EachIndexOnce(rs: seq<Range>, count: nat, x: nat)
    requires Partitions(rs, count)
    ensures x < count <==> exists k :: 0 <= k < |rs| && rs[k].begin <= x < rs[k].end
    ensures forall i, j ::
              0 <= i < |rs| && 0 <= j < |rs| && rs[i].begin <= x < rs[i].end && rs[j].begin <= x < rs[j].end ==> i == j
  {
    if x < count {
      var k := ChunkOf(rs, count, |rs|, x);
    }
    if k :| 0 <= k < |rs| && rs[k].begin <= x < rs[k].end {
      if k < |rs| - 1 {
        PartitionIsOrdered(rs, count, k, |rs| - 1);
      }
    }
    forall i, j | 0 <= i < |rs| && 0 <= j < |rs| && rs[i].begin <= x < rs[i].end && rs[j].begin <= x < rs[j].end
      ensures i == j {
      if i < j { PartitionIsOrdered(rs, count, i, j); }
      if j < i { PartitionIsOrdered(rs, count, j, i); }
    }
  }

  /** Chunks write disjoint spans of the result storage, `n` references to an index. */
  lemma SpansAreDisjoint(rs: seq<Range>, count: nat, n: nat, i: nat, j: nat)
    requires Partitions(rs, count) && i < j < |rs|
    ensures rs[i].end * n <= rs[j].begin * n && rs[j].end * n <= count * n
  {
    PartitionIsOrdered(rs, count, i, j);
    Scale(rs[i].end, rs[j].begin, n);
    if j < |rs| - 1 { PartitionIsOrdered(rs, count, j, |rs| - 1); }
    Scale(rs[j].end, count, n);
  }

  lemma Scale(a: nat, b: nat, n: nat)
    requires a <= b
    ensures a * n <= b * n
  {
  }

  // ----- the shared state -----

  type GroupId = nat

  datatype Job = Job(group: GroupId, chunk: nat)

  /** A position in the call stack of a thread. */
  datatype Place = Place(thread: nat, depth: nat)

  /** What a thread is in the middle of: a chunk's body, or waiting for (and helping) a group. */
  datatype Activity = Executing(job: Job) | Coordinating(group: GroupId)

  datatype Group = Group(limit: nat, chunks: nat, published: nat, pending: nat, active: nat, place: Place)

  datatype JobState = Queued | Running(place: Place) | Done

  /** `jobs` is a history: what became of every job ever published. Thread 0 is the caller, the others are workers. */
  datatype State = State(groups: map<GroupId, Group>, ready: seq<Job>, stacks: seq<seq<Activity>>, next: GroupId,
                         jobs: map<Job, JobState>)

  predicate Takeable(groups: map<GroupId, Group>, j: Job) {
    j.group in groups && groups[j.group].active < groups[j.group].limit
  }

  /** The first job in the list whose group is below its limit. */
  ghost predicate IsFirst(groups: map<GroupId, Group>, ready: seq<Job>, k: nat) {
    k < |ready| && Takeable(groups, ready[k]) && forall i :: 0 <= i < k ==> !Takeable(groups, ready[i])
  }

  method Take(groups: map<GroupId, Group>, ready: seq<Job>) returns (k: Option<nat>)
    ensures k.Some? ==> IsFirst(groups, ready, k.value)
    ensures k.None? ==> forall j :: j in ready ==> !Takeable(groups, j)
  {
    var i := 0;
    while i < |ready|
      invariant 0 <= i <= |ready| && forall n :: 0 <= n < i ==> !Takeable(groups, ready[n])
    {
      if Takeable(groups, ready[i]) { return Some(i); }
      i := i + 1;
    }
    return None;
  }

  // ----- steps -----

  ghost predicate OnTop(s: State, t: nat, a: Activity) {
    t < |s.stacks| && |s.stacks[t]| > 0 && s.stacks[t][|s.stacks[t]| - 1] == a
  }

  function Push(s: State, t: nat, a: Activity): seq<seq<Activity>>
    requires t < |s.stacks|
  {
    s.stacks[t := s.stacks[t] + [a]]
  }

  function Pop(s: State, t: nat): seq<seq<Activity>>
    requires t < |s.stacks| && |s.stacks[t]| > 0
  {
    s.stacks[t := s.stacks[t][..|s.stacks[t]| - 1]]
  }

  /** A worker without work, or a coordinator that has published everything and still waits. */
  ghost predicate Waiting(s: State, t: nat) {
    && t < |s.stacks|
    && if |s.stacks[t]| == 0 then t > 0
       else var a := s.stacks[t][|s.stacks[t]| - 1];
            a.Coordinating? && a.group in s.groups && s.groups[a.group].published == s.groups[a.group].chunks
            && s.groups[a.group].pending != 0
  }

  datatype Action =
    | Open(t: nat, limit: nat, chunks: nat)
    | Publish(t: nat, g: GroupId)
    | Begin(t: nat, k: nat)
    | Finish(t: nat, j: Job)
    | Close(t: nat, g: GroupId)

  ghost predicate Does(a: Action, s: State, u: State) {
    match a
    case Open(t, limit, chunks) =>
      // A body starts a nested group, or the caller starts the outermost one.
      && t < |s.stacks| && limit >= 1 && chunks >= 1
      && (if |s.stacks[t]| == 0 then t == 0 && s.groups == map[] else s.stacks[t][|s.stacks[t]| - 1].Executing?)
      && u == s.(groups := s.groups[s.next := Group(limit, chunks, 0, chunks, 0, Place(t, |s.stacks[t]|))],
                 stacks := Push(s, t, Coordinating(s.next)), next := s.next + 1)
    case Publish(t, g) =>
      && OnTop(s, t, Coordinating(g)) && g in s.groups && s.groups[g].published < s.groups[g].chunks
      && var j := Job(g, s.groups[g].published);
      u == s.(groups := s.groups[g := s.groups[g].(published := s.groups[g].published + 1)], ready := [j] + s.ready,
              jobs := s.jobs[j := Queued])
    case Begin(t, k) =>
      && Waiting(s, t) && IsFirst(s.groups, s.ready, k)
      && var j := s.ready[k];
      u == s.(groups := s.groups[j.group := s.groups[j.group].(active := s.groups[j.group].active + 1)],
              ready := s.ready[..k] + s.ready[k + 1..],
              stacks := Push(s, t, Executing(j)), jobs := s.jobs[j := Running(Place(t, |s.stacks[t]|))])
    case Finish(t, j) =>
      && OnTop(s, t, Executing(j)) && j.group in s.groups && s.groups[j.group].active > 0
         && s.groups[j.group].pending > 0
      && u == s.(groups := s.groups[j.group := s.groups[j.group].(active := s.groups[j.group].active - 1,
                                                                  pending := s.groups[j.group].pending - 1)],
                 stacks := Pop(s, t), jobs := s.jobs[j := Done])
    case Close(t, g) =>
      && OnTop(s, t, Coordinating(g)) && g in s.groups
      && s.groups[g].published == s.groups[g].chunks && s.groups[g].pending == 0
      && u == s.(groups := s.groups - {g}, stacks := Pop(s, t))
  }

  // ----- the invariant -----

  ghost function RunningOf(s: State, g: GroupId): set<Job> {
    set j | j in s.jobs && j.group == g && s.jobs[j].Running?
  }

  ghost function DoneOf(s: State, g: GroupId): set<Job> {
    set j | j in s.jobs && j.group == g && s.jobs[j].Done?
  }

  ghost predicate At(s: State, p: Place, a: Activity) {
    p.thread < |s.stacks| && p.depth < |s.stacks[p.thread]| && s.stacks[p.thread][p.depth] == a
  }

  ghost predicate GroupOk(s: State, g: GroupId)
    requires g in s.groups
  {
    var x := s.groups[g];
    && g < s.next && 1 <= x.limit && x.published <= x.chunks
    && x.active == |RunningOf(s, g)| && x.active <= x.limit
    && x.pending == x.chunks - |DoneOf(s, g)|
    && At(s, x.place, Coordinating(g))
    && forall c: nat :: Job(g, c) in s.jobs <==> c < x.published
  }

  ghost predicate JobOk(s: State, j: Job)
    requires j in s.jobs
  {
    && j.group < s.next
    && (!s.jobs[j].Done? ==> j.group in s.groups)
    && (s.jobs[j].Running? ==> At(s, s.jobs[j].place, Executing(j)))
  }

  ghost function GroupOf(a: Activity): GroupId {
    match a
    case Executing(j) => j.group
    case Coordinating(g) => g
  }

  ghost predicate FrameOk(s: State, p: Place, a: Activity) {
    match a
    case Executing(j) => j in s.jobs && s.jobs[j] == Running(p)
    case Coordinating(g) => g in s.groups && s.groups[g].place == p
  }

  ghost predicate ReadyOk(s: State) {
    && (forall j :: j in s.ready <==> j in s.jobs && s.jobs[j] == Queued)
    && forall i, k :: 0 <= i < k < |s.ready| ==> s.ready[i] != s.ready[k]
  }

  ghost predicate FramesOk(s: State) {
    forall p, a {:trigger FrameOk(s, p, a)} :: At(s, p, a) ==> FrameOk(s, p, a)
  }

  /** A group's coordinator stands above activities of older groups only. */
  ghost predicate OrderOk(s: State) {
    forall p, q, a, g {:trigger Below(p, q), At(s, p, a), At(s, q, Coordinating(g))} ::
      Below(p, q) && At(s, p, a) && At(s, q, Coordinating(g)) ==> GroupOf(a) < g
  }

  ghost predicate Below(p: Place, q: Place) {
    p.thread == q.thread && p.depth < q.depth
  }

  ghost predicate GroupsOk(s: State) {
    forall g {:trigger GroupOk(s, g)} :: g in s.groups ==> GroupOk(s, g)
  }

  ghost predicate JobsOk(s: State) {
    forall j {:trigger JobOk(s, j)} :: j in s.jobs ==> JobOk(s, j)
  }

  ghost predicate Invariant(s: State) {
    GroupsOk(s) && JobsOk(s) && ReadyOk(s) && FramesOk(s) && OrderOk(s)
  }

  lemma AtPush(s: State, u: State, t: nat, a: Activity)
    requires t < |s.stacks| && u.stacks == Push(s, t, a)
    ensures forall p, b :: At(u, p, b) <==> At(s, p, b) || (p == Place(t, |s.stacks[t]|) && b == a)
  {
  }

  lemma AtPop(s: State, u: State, t: nat)
    requires t < |s.stacks| && |s.stacks[t]| > 0 && u.stacks == Pop(s, t)
    ensures forall p, b :: At(u, p, b) <==> At(s, p, b) && p != Place(t, |s.stacks[t]| - 1)
  {
  }

  ghost predicate SamePlaces(s: State, u: State) {
    forall p, a :: At(u, p, a) <==> At(s, p, a)
  }

  lemma OrderShrinks(s: State, u: State)
    requires OrderOk(s) && forall p, a :: At(u, p, a) ==> At(s, p, a)
    ensures OrderOk(u)
  {
  }

  lemma OrderPushed(s: State, u: State, t: nat, a: Activity)
    requires OrderOk(s) && t < |s.stacks| && u.stacks == Push(s, t, a)
    requires a.Coordinating? ==> forall p, b :: At(s, p, b) ==> GroupOf(b) < a.group
    ensures OrderOk(u)
  {
    AtPush(s, u, t, a);
    forall p, q, b, g | Below(p, q) && At(u, p, b) && At(u, q, Coordinating(g)) ensures GroupOf(b) < g {
      assert At(s, p, b);
    }
  }

  lemma GroupIsOld(s: State, p: Place, a: Activity)
    requires GroupsOk(s) && JobsOk(s) && FrameOk(s, p, a)
    ensures GroupOf(a) < s.next && GroupOf(a) in s.groups
  {
    match a
    case Executing(j) => assert JobOk(s, j);
    case Coordinating(g) => assert GroupOk(s, g);
  }

  /** Setting one job's state moves it between the running and done sets of its own group only. */
  lemma JobSetsAfter(s: State, u: State, j: Job, x: JobState, h: GroupId)
    requires u.jobs == s.jobs[j := x]
    ensures h != j.group ==> RunningOf(u, h) == RunningOf(s, h) && DoneOf(u, h) == DoneOf(s, h)
    ensures h == j.group ==> RunningOf(u, h) == (RunningOf(s, h) - {j}) + if x.Running? then {j} else {}
    ensures h == j.group ==> DoneOf(u, h) == (DoneOf(s, h) - {j}) + if x.Done? then {j} else {}
  {
  }

  lemma PlaceKept(s: State, u: State, t: nat, a: Activity, p: Place, b: Activity)
    requires t < |s.stacks| && u.stacks == Push(s, t, a) && At(s, p, b)
    ensures At(u, p, b)
  {
  }

  /** A group whose jobs, counters and place did not change. */
  lemma GroupUntouched(s: State, u: State, h: GroupId)
    requires h in s.groups && GroupOk(s, h) && h in u.groups && u.groups[h] == s.groups[h] && s.next <= u.next
    requires RunningOf(u, h) == RunningOf(s, h) && DoneOf(u, h) == DoneOf(s, h)
    requires forall c: nat :: Job(h, c) in u.jobs <==> Job(h, c) in s.jobs
    requires At(u, s.groups[h].place, Coordinating(h))
    ensures GroupOk(u, h)
  {
  }

  lemma OpenKeeps(s: State, u: State, t: nat, limit: nat, chunks: nat)
    requires Invariant(s) && Does(Open(t, limit, chunks), s, u)
    ensures Invariant(u)
  {
    forall p, a | At(s, p, a) ensures GroupOf(a) < s.next {
      assert FrameOk(s, p, a);
      GroupIsOld(s, p, a);
    }
    OrderPushed(s, u, t, Coordinating(s.next));
    OpenKeepsGroups(s, u, t, limit, chunks);
    OpenKeepsRest(s, u, t, limit, chunks);
  }

  lemma OpenKeepsRest(s: State, u: State, t: nat, limit: nat, chunks: nat)
    requires GroupsOk(s) && JobsOk(s) && ReadyOk(s) && FramesOk(s) && Does(Open(t, limit, chunks), s, u)
    ensures JobsOk(u) && ReadyOk(u) && FramesOk(u)
  {
    AtPush(s, u, t, Coordinating(s.next));
    forall j | j in u.jobs ensures JobOk(u, j) { assert JobOk(s, j); }
    forall p, a | At(u, p, a) ensures FrameOk(u, p, a) {
      if At(s, p, a) {
        assert FrameOk(s, p, a);
        GroupIsOld(s, p, a);
      }
    }
  }

  lemma OpenKeepsGroups(s: State, u: State, t: nat, limit: nat, chunks: nat)
    requires GroupsOk(s) && JobsOk(s) && Does(Open(t, limit, chunks), s, u)
    ensures GroupsOk(u)
  {
    forall g | g in u.groups ensures GroupOk(u, g) {
      if g == s.next {
        forall j | j in s.jobs ensures j.group != s.next { assert JobOk(s, j); }
        assert RunningOf(u, g) == {} && DoneOf(u, g) == {};
      } else {
        assert GroupOk(s, g);
        PlaceKept(s, u, t, Coordinating(s.next), s.groups[g].place, Coordinating(g));
        assert RunningOf(u, g) == RunningOf(s, g) && DoneOf(u, g) == DoneOf(s, g);
        GroupUntouched(s, u, g);
      }
    }
  }

  lemma PublishKeeps(s: State, u: State, t: nat, g: GroupId)
    requires Invariant(s) && Does(Publish(t, g), s, u)
    ensures Invariant(u)
  {
    assert SamePlaces(s, u);
    OrderShrinks(s, u);
    PublishKeepsGroups(s, u, t, g);
    assert GroupOk(s, g);
    PublishKeepsRest(s, u, t, g);
  }

  lemma PublishKeepsRest(s: State, u: State, t: nat, g: GroupId)
    requires JobsOk(s) && ReadyOk(s) && FramesOk(s) && Does(Publish(t, g), s, u)
    requires GroupOk(s, g)
    ensures JobsOk(u) && ReadyOk(u) && FramesOk(u)
  {
    var j := Job(g, s.groups[g].published);
    assert j !in s.jobs && j !in s.ready;
    forall i | i in u.jobs ensures JobOk(u, i) {
      if i != j { assert JobOk(s, i); }
    }
    forall p, a | At(u, p, a) ensures FrameOk(u, p, a) {
      assert At(s, p, a) && FrameOk(s, p, a);
    }
  }

  lemma PublishKeepsGroups(s: State, u: State, t: nat, g: GroupId)
    requires GroupsOk(s) && Does(Publish(t, g), s, u)
    ensures GroupsOk(u)
  {
    var j := Job(g, s.groups[g].published);
    assert GroupOk(s, g);
    forall h | h in u.groups ensures GroupOk(u, h) {
      assert GroupOk(s, h);
      JobSetsAfter(s, u, j, Queued, h);
      assert At(u, s.groups[h].place, Coordinating(h));
      if h == g {
        assert j !in RunningOf(s, g) && j !in DoneOf(s, g);
      } else {
        GroupUntouched(s, u, h);
      }
    }
  }

  lemma RemovedFromReady(ready: seq<Job>, k: nat)
    requires k < |ready| && forall i, n :: 0 <= i < n < |ready| ==> ready[i] != ready[n]
    ensures var rest := ready[..k] + ready[k + 1..];
            && (forall j :: j in rest <==> j in ready && j != ready[k])
            && forall i, n :: 0 <= i < n < |rest| ==> rest[i] != rest[n]
  {
    var rest := ready[..k] + ready[k + 1..];
    forall j | j in ready && j != ready[k] ensures j in rest {
      var i :| 0 <= i < |ready| && ready[i] == j;
      assert rest[if i < k then i else i - 1] == j;
    }
  }

  lemma BeginKeeps(s: State, u: State, t: nat, k: nat)
    requires Invariant(s) && Does(Begin(t, k), s, u)
    ensures Invariant(u)
  {
    OrderPushed(s, u, t, Executing(s.ready[k]));
    assert s.ready[k] in s.ready;
    BeginKeepsGroups(s, u, t, k);
    BeginKeepsRest(s, u, t, k);
    RemovedFromReady(s.ready, k);
  }

  lemma BeginKeepsRest(s: State, u: State, t: nat, k: nat)
    requires JobsOk(s) && FramesOk(s) && Does(Begin(t, k), s, u)
    requires s.ready[k] in s.jobs && s.jobs[s.ready[k]] == Queued
    ensures JobsOk(u) && FramesOk(u)
  {
    var j := s.ready[k];
    AtPush(s, u, t, Executing(j));
    forall i | i in u.jobs ensures JobOk(u, i) { assert JobOk(s, i); }
    forall p, a | At(u, p, a) ensures FrameOk(u, p, a) {
      if At(s, p, a) { assert FrameOk(s, p, a); }
    }
  }

  lemma BeginKeepsGroups(s: State, u: State, t: nat, k: nat)
    requires GroupsOk(s) && Does(Begin(t, k), s, u)
    requires s.ready[k] in s.jobs && s.jobs[s.ready[k]] == Queued
    ensures GroupsOk(u)
  {
    var j := s.ready[k];
    forall h | h in u.groups ensures GroupOk(u, h) {
      assert GroupOk(s, h);
      PlaceKept(s, u, t, Executing(j), s.groups[h].place, Coordinating(h));
      JobSetsAfter(s, u, j, Running(Place(t, |s.stacks[t]|)), h);
      if h == j.group {
        assert j !in RunningOf(s, h) && j !in DoneOf(s, h);
      } else {
        GroupUntouched(s, u, h);
      }
    }
  }

  lemma FinishKeeps(s: State, u: State, t: nat, j: Job)
    requires Invariant(s) && Does(Finish(t, j), s, u)
    ensures Invariant(u)
  {
    assert At(s, Place(t, |s.stacks[t]| - 1), Executing(j)) && FrameOk(s, Place(t, |s.stacks[t]| - 1), Executing(j));
    AtPop(s, u, t);
    OrderShrinks(s, u);
    FinishKeepsGroups(s, u, t, j);
    FinishKeepsRest(s, u, t, j);
  }

  lemma FinishKeepsRest(s: State, u: State, t: nat, j: Job)
    requires JobsOk(s) && ReadyOk(s) && FramesOk(s) && Does(Finish(t, j), s, u)
    requires j in s.jobs && s.jobs[j] == Running(Place(t, |s.stacks[t]| - 1))
    ensures JobsOk(u) && ReadyOk(u) && FramesOk(u)
  {
    AtPop(s, u, t);
    forall i | i in u.jobs ensures JobOk(u, i) { assert JobOk(s, i); }
    forall p, a | At(u, p, a) ensures FrameOk(u, p, a) { assert FrameOk(s, p, a); }
  }

  lemma FinishKeepsGroups(s: State, u: State, t: nat, j: Job)
    requires GroupsOk(s) && Does(Finish(t, j), s, u) && j in s.jobs && s.jobs[j].Running?
    ensures GroupsOk(u)
  {
    AtPop(s, u, t);
    forall h | h in u.groups ensures GroupOk(u, h) {
      assert GroupOk(s, h);
      JobSetsAfter(s, u, j, Done, h);
      assert At(u, s.groups[h].place, Coordinating(h));
      if h == j.group {
        assert j in RunningOf(s, h) && j !in DoneOf(s, h);
      } else {
        GroupUntouched(s, u, h);
      }
    }
  }

  /** With nothing pending, every chunk of the group has run. */
  lemma NothingPending(s: State, g: GroupId)
    requires Invariant(s) && g in s.groups && s.groups[g].pending == 0
    ensures s.groups[g].published == s.groups[g].chunks
    ensures forall c: nat :: c < s.groups[g].chunks ==> Job(g, c) in s.jobs && s.jobs[Job(g, c)] == Done
  {
    var n := s.groups[g].chunks;
    assert GroupOk(s, g);
    var all := JobsBelow(g, n);
    JobsBelowSize(g, n);
    assert DoneOf(s, g) <= all;
    SubsetIsAll(DoneOf(s, g), all);
    forall c: nat | c < n ensures Job(g, c) in s.jobs && s.jobs[Job(g, c)] == Done {
      assert Job(g, c) in all;
    }
    assert n == 0 || Job(g, n - 1) in s.jobs;
  }

  ghost function JobsBelow(g: GroupId, n: nat): set<Job> {
    set c | 0 <= c < n :: Job(g, c)
  }

  lemma {:induction false} JobsBelowSize(g: GroupId, n: nat)
    ensures |JobsBelow(g, n)| == n
  {
    if n > 0 {
      JobsBelowSize(g, n - 1);
      assert JobsBelow(g, n) == JobsBelow(g, n - 1) + {Job(g, n - 1)};
    }
  }

  lemma SubsetIsAll(a: set<Job>, b: set<Job>)
    requires a <= b && |a| >= |b|
    ensures a == b
  {
    assert b == a + (b - a);
  }

  lemma CloseKeeps(s: State, u: State, t: nat, g: GroupId)
    requires Invariant(s) && Does(Close(t, g), s, u)
    ensures Invariant(u)
  {
    var place := Place(t, |s.stacks[t]| - 1);
    assert At(s, place, Coordinating(g)) && FrameOk(s, place, Coordinating(g)) && GroupOk(s, g);
    AtPop(s, u, t);
    OrderShrinks(s, u);
    NothingPending(s, g);
    CloseKeepsGroups(s, u, t, g);
    CloseKeepsRest(s, u, t, g);
  }

  lemma CloseKeepsGroups(s: State, u: State, t: nat, g: GroupId)
    requires GroupsOk(s) && Does(Close(t, g), s, u)
    ensures GroupsOk(u)
  {
    AtPop(s, u, t);
    forall h | h in u.groups ensures GroupOk(u, h) {
      assert GroupOk(s, h);
      assert RunningOf(u, h) == RunningOf(s, h) && DoneOf(u, h) == DoneOf(s, h);
      assert At(u, s.groups[h].place, Coordinating(h));
      GroupUntouched(s, u, h);
    }
  }

  lemma CloseKeepsRest(s: State, u: State, t: nat, g: GroupId)
    requires JobsOk(s) && ReadyOk(s) && FramesOk(s) && Does(Close(t, g), s, u)
    requires s.groups[g].place == Place(t, |s.stacks[t]| - 1)
    requires forall c: nat :: Job(g, c) in s.jobs ==> s.jobs[Job(g, c)] == Done
    ensures JobsOk(u) && ReadyOk(u) && FramesOk(u)
  {
    AtPop(s, u, t);
    forall i | i in u.jobs ensures JobOk(u, i) {
      assert JobOk(s, i) && i == Job(i.group, i.chunk);
    }
    forall p, a | At(u, p, a) ensures FrameOk(u, p, a) { assert FrameOk(s, p, a); }
  }

  lemma StepKeeps(a: Action, s: State, u: State)
    requires Invariant(s) && Does(a, s, u)
    ensures Invariant(u)
  {
    match a
    case Open(t, limit, chunks) => OpenKeeps(s, u, t, limit, chunks);
    case Publish(t, g) => PublishKeeps(s, u, t, g);
    case Begin(t, k) => BeginKeeps(s, u, t, k);
    case Finish(t, j) => FinishKeeps(s, u, t, j);
    case Close(t, g) => CloseKeeps(s, u, t, g);
  }

  /** The caller and its workers, all idle. */
  ghost predicate Initial(s: State) {
    && s.groups == map[] && s.ready == [] && s.jobs == map[] && |s.stacks| > 0
    && forall t :: 0 <= t < |s.stacks| ==> s.stacks[t] == []
  }

  ghost predicate IsTrace(states: seq<State>, actions: seq<Action>) {
    && |states| == |actions| + 1 && Initial(states[0])
    && forall i :: 0 <= i < |actions| ==> Does(actions[i], states[i], states[i + 1])
  }

  lemma {:induction false} InvariantAlways(states: seq<State>, actions: seq<Action>, i: nat)
    requires IsTrace(states, actions) && i < |states|
    ensures Invariant(states[i])
  {
    if i > 0 {
      InvariantAlways(states, actions, i - 1);
      assert Does(actions[i - 1], states[i - 1], states[i - 1 + 1]);
      StepKeeps(actions[i - 1], states[i - 1], states[i]);
    }
  }

  // ----- no deadlock -----

  /** States that satisfy the invariant; by InvariantAlways these include every state of every trace. */
  type Reached = s: State | Invariant(s) ghost witness State(map[], [], [], 0, map[])

  ghost predicate CanStep(s: State, t: nat) {
    exists a, u :: Does(a, s, u) && a.t == t && !a.Open?
  }

  lemma ExecutingCanStep(s: Reached, t: nat, j: Job)
    requires OnTop(s, t, Executing(j))
    ensures CanStep(s, t)
  {
    var p := Place(t, |s.stacks[t]| - 1);
    assert At(s, p, Executing(j)) && FrameOk(s, p, Executing(j)) && JobOk(s, j) && GroupOk(s, j.group);
    assert j in RunningOf(s, j.group);
    assert s.groups[j.group].pending > 0 by {
      NotAllDone(s, j);
    }
    var g := s.groups[j.group];
    var u :=
      s.(groups := s.groups[j.group := g.(active := g.active - 1, pending := g.pending - 1)], stacks := Pop(s, t),
         jobs := s.jobs[j := Done]);
    assert Does(Finish(t, j), s, u);
  }

  lemma NotAllDone(s: Reached, j: Job)
    requires j in s.jobs && j.group in s.groups && !s.jobs[j].Done?
    ensures s.groups[j.group].pending > 0
  {
    assert GroupOk(s, j.group) && j == Job(j.group, j.chunk);
    if s.groups[j.group].pending == 0 {
      NothingPending(s, j.group);
    }
  }

  lemma PublishEnabled(s: Reached, t: nat, g: GroupId)
    requires OnTop(s, t, Coordinating(g)) && g in s.groups && s.groups[g].published < s.groups[g].chunks
    ensures CanStep(s, t)
  {
    var j := Job(g, s.groups[g].published);
    var u :=
      s.(groups := s.groups[g := s.groups[g].(published := s.groups[g].published + 1)], ready := [j] + s.ready,
         jobs := s.jobs[j := Queued]);
    assert Does(Publish(t, g), s, u);
  }

  lemma CloseEnabled(s: Reached, t: nat, g: GroupId)
    requires OnTop(s, t, Coordinating(g)) && g in s.groups && s.groups[g].published == s.groups[g].chunks
             && s.groups[g].pending == 0
    ensures CanStep(s, t)
  {
    assert Does(Close(t, g), s, s.(groups := s.groups - {g}, stacks := Pop(s, t)));
  }

  /** A coordinator on top of its stack that cannot step has published everything and still waits. */
  lemma CoordinatorWaits(s: Reached, t: nat, g: GroupId)
    requires OnTop(s, t, Coordinating(g)) && !CanStep(s, t)
    ensures g in s.groups && Waiting(s, t)
  {
    var p := Place(t, |s.stacks[t]| - 1);
    assert At(s, p, Coordinating(g)) && FrameOk(s, p, Coordinating(g)) && GroupOk(s, g);
    if s.groups[g].published < s.groups[g].chunks {
      PublishEnabled(s, t, g);
    } else if s.groups[g].pending == 0 {
      CloseEnabled(s, t, g);
    }
  }

  lemma WaitingCanTake(s: State, t: nat, j: Job)
    requires Waiting(s, t) && j in s.ready && Takeable(s.groups, j)
    ensures CanStep(s, t)
  {
    var n :| 0 <= n < |s.ready| && s.ready[n] == j;
    var k := FirstTakeable(s.groups, s.ready, n);
    var i := s.ready[k];
    var u := s.(groups := s.groups[i.group := s.groups[i.group].(active := s.groups[i.group].active + 1)],
                ready := s.ready[..k] + s.ready[k + 1..],
                stacks := Push(s, t, Executing(i)), jobs := s.jobs[i := Running(Place(t, |s.stacks[t]|))]);
    assert Does(Begin(t, k), s, u);
  }

  lemma {:induction false} FirstTakeable(groups: map<GroupId, Group>, ready: seq<Job>, n: nat) returns (k: nat)
    requires n < |ready| && Takeable(groups, ready[n])
    ensures IsFirst(groups, ready, k)
  {
    if i :| 0 <= i < n && Takeable(groups, ready[i]) {
      k := FirstTakeable(groups, ready, i);
    } else {
      k := n;
    }
  }

  /** A thread in the middle of something can step, or waits as the coordinator of a group that is still pending. */
  lemma StepOrWait(s: Reached, t: nat) returns (g: Option<GroupId>)
    requires t < |s.stacks| && |s.stacks[t]| > 0
    ensures g.None? ==> CanStep(s, t)
    ensures g.Some? ==> At(s, Place(t, |s.stacks[t]| - 1), Coordinating(g.value)) && Waiting(s, t)
    ensures g.Some? ==> g.value in s.groups && s.groups[g.value].pending > 0 && g.value < s.next
  {
    var top := s.stacks[t][|s.stacks[t]| - 1];
    g := None;
    match top
    case Executing(j) => ExecutingCanStep(s, t, j);
    case Coordinating(h) =>
      assert At(s, Place(t, |s.stacks[t]| - 1), Coordinating(h));
      if !CanStep(s, t) {
        CoordinatorWaits(s, t, h);
        assert GroupOk(s, h);
        g := Some(h);
      }
  }

  lemma NewerAbove(s: Reached, p: Place, a: Activity, q: Place, g: GroupId)
    requires At(s, p, a) && At(s, q, Coordinating(g)) && Below(p, q)
    ensures GroupOf(a) < g
  {
  }

  /**
   * While a group has pending jobs, some thread can take a step that is not the start of a new group: a coordinator
   * that can do nothing for its group waits below, or for, an activity of a strictly newer pending group.
   */
  lemma {:induction false} NoDeadlock(s: Reached, g: GroupId) returns (t: nat)
    requires g in s.groups && s.groups[g].pending > 0
    ensures t < |s.stacks| && CanStep(s, t)
    decreases s.next - g
  {
    assert GroupOk(s, g);
    var p := s.groups[g].place;
    t := p.thread;
    var top := StepOrWait(s, t);
    if top.Some? && top.value != g {
      NewerAbove(s, p, Coordinating(g), Place(t, |s.stacks[t]| - 1), top.value);
      t := NoDeadlock(s, top.value);
    } else if top.Some? {
      t := WaitedOn(s, g, t);
    }
  }

  /** A published group that is waited for has a running job, or a queued one that the waiting thread can take. */
  lemma {:induction false} WaitedOn(s: Reached, g: GroupId, t0: nat) returns (t: nat)
    requires g in s.groups && s.groups[g].pending > 0 && OnTop(s, t0, Coordinating(g)) && Waiting(s, t0)
    ensures t < |s.stacks| && CanStep(s, t)
    decreases s.next - g, 0
  {
    assert GroupOk(s, g);
    if RunningOf(s, g) != {} {
      var j :| j in RunningOf(s, g);
      assert JobOk(s, j);
      var p := s.jobs[j].place;
      t := p.thread;
      var top := StepOrWait(s, t);
      if top.Some? {
        NewerAbove(s, p, Executing(j), Place(t, |s.stacks[t]| - 1), top.value);
        t := NoDeadlock(s, top.value);
      }
    } else {
      var j := SomeUnfinished(s, g);
      assert s.jobs[j] == Queued by { assert j !in RunningOf(s, g); }
      t := t0;
      WaitingCanTake(s, t, j);
    }
  }

  lemma SomeUnfinished(s: Reached, g: GroupId) returns (j: Job)
    requires g in s.groups && s.groups[g].pending > 0 && s.groups[g].published == s.groups[g].chunks
    ensures j in s.jobs && j.group == g && !s.jobs[j].Done?
  {
    assert GroupOk(s, g);
    var all := JobsBelow(g, s.groups[g].chunks);
    JobsBelowSize(g, s.groups[g].chunks);
    if all <= DoneOf(s, g) {
      SubsetSize(all, DoneOf(s, g));
    }
    var i :| i in all && i !in DoneOf(s, g);
    j := i;
  }

  // ----- each chunk once -----

  /** A job only ever moves forward: queued, running, done. */
  lemma JobsMoveForward(a: Action, s: Reached, u: State, j: Job)
    requires Does(a, s, u) && j in s.jobs
    ensures j in u.jobs
    ensures u.jobs[j] == s.jobs[j] || (s.jobs[j].Queued? && u.jobs[j].Running? && a.Begin?)
         || (s.jobs[j].Running? && u.jobs[j].Done? && a == Finish(a.t, j))
  {
    match a
    case Publish(t, g) => assert GroupOk(s, g);
    case Begin(t, k) => assert s.ready[k] in s.ready;
    case Finish(t, i) =>
      var p := Place(t, |s.stacks[t]| - 1);
      assert At(s, p, Executing(i)) && FrameOk(s, p, Executing(i));
    case _ =>
  }

  /** When a coordinator frees its jobs, each has run and finished, and none is queued or running. */
  lemma ClosedGroupIsDone(s: Reached, u: State, t: nat, g: GroupId, c: nat)
    requires Does(Close(t, g), s, u)
    ensures c < s.groups[g].chunks ==> Job(g, c) in u.jobs && u.jobs[Job(g, c)] == Done
    ensures Job(g, c) !in u.ready && forall p :: !At(u, p, Executing(Job(g, c)))
  {
    NothingPending(s, g);
    CloseKeeps(s, u, t, g);
    assert GroupOk(s, g);
    assert forall p :: At(u, p, Executing(Job(g, c))) ==> FrameOk(u, p, Executing(Job(g, c)));
  }

  ghost predicate Begins(a: Action, s: State, j: Job) {
    a.Begin? && a.k < |s.ready| && s.ready[a.k] == j
  }

  /** How often a job's body begins in the first `n` steps of a run. */
  ghost function Begun(states: seq<State>, actions: seq<Action>, j: Job, n: nat): nat
    requires n <= |actions| <= |states|
  {
    if n == 0 then 0
    else Begun(states, actions, j, n - 1) + if Begins(actions[n - 1], states[n - 1], j) then 1 else 0
  }

  /** How often it ends. */
  ghost function Ended(actions: seq<Action>, j: Job, n: nat): nat
    requires n <= |actions|
  {
    if n == 0 then 0
    else Ended(actions, j, n - 1) + if actions[n - 1].Finish? && actions[n - 1].j == j then 1 else 0
  }

  /**
   * The state knows how often a body has begun and ended: once from the time it runs, and once from the time it is
   * done.
   */
  ghost predicate Counted(s: State, j: Job, begun: nat, ended: nat) {
    && begun == (if j in s.jobs && !s.jobs[j].Queued? then 1 else 0)
    && ended == (if j in s.jobs && s.jobs[j].Done? then 1 else 0)
  }

  lemma StepCounts(a: Action, s: Reached, u: State, j: Job, begun: nat, ended: nat)
    requires Does(a, s, u) && Counted(s, j, begun, ended)
    ensures Counted(u, j, begun + if Begins(a, s, j) then 1 else 0, ended + if a.Finish? && a.j == j then 1 else 0)
  {
    match a
    case Publish(t, g) => assert GroupOk(s, g);
    case Begin(t, k) => assert s.ready[k] in s.ready;
    case Finish(t, i) =>
      var p := Place(t, |s.stacks[t]| - 1);
      assert At(s, p, Executing(i)) && FrameOk(s, p, Executing(i));
    case _ =>
  }

  lemma {:induction false} RunCounts(states: seq<State>, actions: seq<Action>, j: Job, n: nat)
    requires IsTrace(states, actions) && n <= |actions|
    ensures Counted(states[n], j, Begun(states, actions, j, n), Ended(actions, j, n))
  {
    if n > 0 {
      RunCounts(states, actions, j, n - 1);
      InvariantAlways(states, actions, n - 1);
      StepCounts(actions[n - 1], states[n - 1], states[n - 1 + 1], j, Begun(states, actions, j, n - 1),
                 Ended(actions, j, n - 1));
    }
  }

  /** The step closes the job's group. */
  ghost predicate Closes(a: Action, s: State, j: Job) {
    a.Close? && a.g == j.group && a.g in s.groups && j.chunk < s.groups[a.g].chunks
  }

  /** No body begins or ends twice in any run, and by the time its group closes each has begun and ended once. */
  lemma EachJobOnce(states: seq<State>, actions: seq<Action>, j: Job, n: nat)
    requires IsTrace(states, actions) && n <= |actions|
    ensures Ended(actions, j, n) <= Begun(states, actions, j, n) <= 1
    ensures n < |actions| && Closes(actions[n], states[n], j) ==>
              Begun(states, actions, j, n) == Ended(actions, j, n) == 1
  {
    RunCounts(states, actions, j, n);
    InvariantAlways(states, actions, n);
    if n < |actions| && Closes(actions[n], states[n], j) {
      ClosedGroupIsDone(states[n], states[n + 1], actions[n].t, j.group, j.chunk);
    }
  }

  ghost predicate Covers(r: Range, x: nat) { r.begin <= x < r.end }

  /** By the time a group closes, each of its indices has been run, by one chunk, once. */
  lemma EachIndexRunsOnce(states: seq<State>, actions: seq<Action>, n: nat, rs: seq<Range>, count: nat, x: nat)
    returns (c: nat)
    requires IsTrace(states, actions) && n < |actions| && actions[n].Close? && x < count
    requires Partitions(rs, count) && actions[n].g in states[n].groups && states[n].groups[actions[n].g].chunks == |rs|
    ensures c < |rs| && Covers(rs[c], x) && forall d :: 0 <= d < |rs| && Covers(rs[d], x) ==> d == c
    ensures var j := Job(actions[n].g, c); Begun(states, actions, j, n) == Ended(actions, j, n) == 1
  {
    EachIndexOnce(rs, count, x);
    c :| 0 <= c < |rs| && rs[c].begin <= x < rs[c].end;
    EachJobOnce(states, actions, Job(actions[n].g, c), n);
  }

  lemma PublishedJobs(s: State, g: GroupId)
    requires g in s.groups && GroupOk(s, g) && ReadyOk(s)
    ensures JobsBelow(g, s.groups[g].published) == QueuedOf(s, g) + RunningOf(s, g) + DoneOf(s, g)
  {
    var n := s.groups[g].published;
    forall j: Job ensures j in JobsBelow(g, n) <==> j in QueuedOf(s, g) + RunningOf(s, g) + DoneOf(s, g) {
      assert j == Job(j.group, j.chunk);
    }
  }

  /**
   * The counter a coordinator waits on is what is unpublished, queued and running; the running part respects the limit.
   */
  lemma PendingIsConserved(s: Reached, g: GroupId)
    requires g in s.groups
    ensures s.groups[g].pending == (s.groups[g].chunks - s.groups[g].published) + |QueuedOf(s, g)| + s.groups[g].active
    ensures s.groups[g].active <= s.groups[g].limit
  {
    assert GroupOk(s, g);
    JobsBelowSize(g, s.groups[g].published);
    PublishedJobs(s, g);
    ThreeParts(QueuedOf(s, g), RunningOf(s, g), DoneOf(s, g));
  }

  lemma ThreeParts(q: set<Job>, r: set<Job>, d: set<Job>)
    requires q !! r && (q + r) !! d
    ensures |q + r + d| == |q| + |r| + |d|
  {
  }

  ghost function QueuedOf(s: State, g: GroupId): set<Job> {
    set j | j in s.ready && j.group == g
  }

  // ----- every group completes -----

  ghost function WorkOf(x: Group): nat { if x.published <= x.chunks then 3 * (x.chunks - x.published) + 1 else 1 }

  ghost function GroupWork(s: State): map<GroupId, nat> { map g | g in s.groups :: WorkOf(s.groups[g]) }

  ghost function RunningJobs(s: State): set<Job> { set j | j in s.jobs && s.jobs[j].Running? }

  /** Steps still to be taken: three for a chunk to publish, two for a queued one, one to finish and one to close. */
  ghost function Work(s: State): nat { Total(GroupWork(s)) + 2 * |s.ready| + |RunningJobs(s)| }

  lemma OneGroupWork(s: State, u: State, g: GroupId)
    requires g in s.groups && g in u.groups && u.groups == s.groups[g := u.groups[g]]
    ensures Total(GroupWork(u)) + WorkOf(s.groups[g]) == Total(GroupWork(s)) + WorkOf(u.groups[g])
  {
    TotalWithout(GroupWork(s), g);
    TotalWithout(GroupWork(u), g);
    assert GroupWork(s) - {g} == GroupWork(u) - {g};
  }

  lemma PublishWorks(s: Reached, u: State, t: nat, g: GroupId)
    requires Does(Publish(t, g), s, u)
    ensures Work(u) < Work(s)
  {
    assert GroupOk(s, g);
    OneGroupWork(s, u, g);
    assert Job(g, s.groups[g].published) !in s.jobs;
    assert RunningJobs(u) == RunningJobs(s);
  }

  lemma BeginWorks(s: Reached, u: State, t: nat, k: nat)
    requires Does(Begin(t, k), s, u)
    ensures Work(u) < Work(s)
  {
    var j := s.ready[k];
    OneGroupWork(s, u, j.group);
    assert j in s.ready;
    assert RunningJobs(u) == RunningJobs(s) + {j};
  }

  lemma FinishWorks(s: Reached, u: State, t: nat, j: Job)
    requires Does(Finish(t, j), s, u)
    ensures Work(u) < Work(s)
  {
    OneGroupWork(s, u, j.group);
    var p := Place(t, |s.stacks[t]| - 1);
    assert At(s, p, Executing(j)) && FrameOk(s, p, Executing(j));
    assert RunningJobs(s) == RunningJobs(u) + {j};
  }

  lemma CloseWorks(s: Reached, u: State, t: nat, g: GroupId)
    requires Does(Close(t, g), s, u)
    ensures Work(u) < Work(s)
  {
    TotalWithout(GroupWork(s), g);
    assert GroupWork(s) - {g} == GroupWork(u);
    assert RunningJobs(u) == RunningJobs(s);
  }

  /** Every step but the start of another group brings the end closer. */
  lemma StepsWork(a: Action, s: Reached, u: State)
    requires Does(a, s, u) && !a.Open?
    ensures Work(u) < Work(s)
  {
    match a
    case Publish(t, g) => PublishWorks(s, u, t, g);
    case Begin(t, k) => BeginWorks(s, u, t, k);
    case Finish(t, j) => FinishWorks(s, u, t, j);
    case Close(t, g) => CloseWorks(s, u, t, g);
  }

  /** As long as there is a group, some thread can take a step that starts no other. */
  lemma SomeStep(s: Reached) returns (a: Action, u: State)
    requires s.groups != map[]
    ensures Does(a, s, u) && !a.Open?
  {
    var g :| g in s.groups;
    assert GroupOk(s, g);
    var t := s.groups[g].place.thread;
    var top := StepOrWait(s, t);
    if top.Some? { t := NoDeadlock(s, top.value); }
    a, u :| Does(a, s, u) && a.t == t && !a.Open?;
  }

  ghost predicate IsRunFrom(s: State, states: seq<State>, actions: seq<Action>) {
    && |states| == |actions| + 1 && states[0] == s
    && forall i :: 0 <= i < |actions| ==> Does(actions[i], states[i], states[i + 1]) && !actions[i].Open?
  }

  /**
   * From every state that can be reached there is a run that starts no other group and closes all there are, and it
   * takes no more steps than there is work.
   */
  lemma {:induction false} GroupsComplete(s: Reached) returns (states: seq<State>, actions: seq<Action>)
    ensures IsRunFrom(s, states, actions) && states[|actions|].groups == map[] && |actions| <= Work(s)
    decreases Work(s)
  {
    if s.groups == map[] {
      states, actions := [s], [];
    } else {
      var a, u := SomeStep(s);
      StepKeeps(a, s, u);
      StepsWork(a, s, u);
      var more, acts := GroupsComplete(u);
      states, actions := [s] + more, [a] + acts;
      forall i | 0 <= i < |actions| ensures Does(actions[i], states[i], states[i + 1]) && !actions[i].Open? {
        if i > 0 { assert Does(acts[i - 1], more[i - 1], more[i - 1 + 1]); }
      }
    }
  }

  /** No run that starts no other group is longer. */
  lemma {:induction false} RunsAreShort(s: Reached, states: seq<State>, actions: seq<Action>)
    requires IsRunFrom(s, states, actions)
    ensures |actions| <= Work(s)
    decreases |actions|
  {
    if |actions| > 0 {
      assert Does(actions[0], states[0], states[0 + 1]);
      StepKeeps(actions[0], s, states[1]);
      StepsWork(actions[0], s, states[1]);
      forall i | 0 <= i < |actions[1..]| ensures Does(actions[1..][i], states[1..][i], states[1..][i + 1]) {
        assert Does(actions[i + 1], states[i + 1], states[i + 1 + 1]);
      }
      RunsAreShort(states[1], states[1..], actions[1..]);
    }
  }

  /** A caller with any number of workers, even none, can start a group of any size and see it to its end. */
  lemma CallerCompletes(workers: nat, limit: nat, chunks: nat) returns (states: seq<State>, actions: seq<Action>)
    requires limit >= 1 && chunks >= 1
    ensures IsTrace(states, actions) && |states[0].stacks| == workers + 1
    ensures |actions| > 0 && actions[0] == Open(0, limit, chunks) && states[|actions|].groups == map[]
  {
    var idle: seq<Activity> := [];
    var s := State(map[], [], seq(workers + 1, i => idle), 0, map[]);
    var x := Group(limit, chunks, 0, chunks, 0, Place(0, 0));
    var u := s.(groups := s.groups[0 := x], stacks := Push(s, 0, Coordinating(0)), next := 1);
    assert Does(Open(0, limit, chunks), s, u);
    assert Initial(s);
    assert IsTrace([s], []);
    InvariantAlways([s], [], 0);
    StepKeeps(Open(0, limit, chunks), s, u);
    var more, acts := GroupsComplete(u);
    states, actions := [s] + more, [Open(0, limit, chunks)] + acts;
    forall i | 0 <= i < |actions| ensures Does(actions[i], states[i], states[i + 1]) {
      if i > 0 { assert Does(acts[i - 1], more[i - 1], more[i - 1 + 1]); }
    }
  }

  // ----- who does what -----

  /** On the caller's stack a group lies at the bottom, on a worker's a body; above, bodies and groups take turns. */
  ghost predicate TakesTurns(p: Place, a: Activity) {
    a.Coordinating? <==> (p.thread == 0 <==> p.depth % 2 == 0)
  }

  ghost predicate Shaped(s: State) {
    && |s.stacks| > 0 && (forall g :: g in s.groups ==> s.groups[g].chunks >= 1)
    && forall p, a {:trigger At(s, p, a)} :: At(s, p, a) ==> TakesTurns(p, a)
  }

  lemma PushShapes(s: State, u: State, t: nat, a: Activity)
    requires Shaped(s) && t < |s.stacks| && u.stacks == Push(s, t, a) && TakesTurns(Place(t, |s.stacks[t]|), a)
    requires forall g :: g in u.groups ==> u.groups[g].chunks >= 1
    ensures Shaped(u)
  {
    AtPush(s, u, t, a);
  }

  lemma TopTakesTurns(s: State, t: nat)
    requires Shaped(s) && t < |s.stacks| && |s.stacks[t]| > 0
    ensures var n := |s.stacks[t]| - 1; TakesTurns(Place(t, n), s.stacks[t][n])
  {
    var n := |s.stacks[t]| - 1;
    assert At(s, Place(t, n), s.stacks[t][n]);
  }

  lemma StepShapes(a: Action, s: State, u: State)
    requires Does(a, s, u) && Shaped(s)
    ensures Shaped(u)
  {
    if a.t < |s.stacks| && |s.stacks[a.t]| > 0 { TopTakesTurns(s, a.t); }
    match a
    case Open(t, limit, chunks) => PushShapes(s, u, t, Coordinating(s.next));
    case Publish(t, g) => assert forall p, b :: At(u, p, b) ==> At(s, p, b);
    case Begin(t, k) => PushShapes(s, u, t, Executing(s.ready[k]));
    case Finish(t, j) => AtPop(s, u, t);
    case Close(t, g) => AtPop(s, u, t);
  }

  /** In every run only the caller starts a group from nothing, only workers start bodies so, and no group is empty. */
  lemma {:induction false} ShapedAlways(states: seq<State>, actions: seq<Action>, i: nat)
    requires IsTrace(states, actions) && i < |states|
    ensures Shaped(states[i])
  {
    if i > 0 {
      ShapedAlways(states, actions, i - 1);
      assert Does(actions[i - 1], states[i - 1], states[i - 1 + 1]);
      StepShapes(actions[i - 1], states[i - 1], states[i]);
    }
  }

  /** Jobs are published, and the group is closed, by the frame that opened it. */
  lemma OwnCoordinator(a: Action, s: Reached, u: State)
    requires Does(a, s, u) && (a.Publish? || a.Close?)
    ensures a.t < |s.stacks| && a.g in s.groups && s.groups[a.g].place == Place(a.t, |s.stacks[a.t]| - 1)
  {
    var p := Place(a.t, |s.stacks[a.t]| - 1);
    assert At(s, p, Coordinating(a.g)) && FrameOk(s, p, Coordinating(a.g));
  }

  /** No worker stays idle while there is a job that may be taken. */
  lemma IdleWorkerTakes(s: State, t: nat, j: Job)
    requires 0 < t < |s.stacks| && s.stacks[t] == [] && j in s.ready && Takeable(s.groups, j)
    ensures exists k, u :: Does(Begin(t, k), s, u)
  {
    WaitingCanTake(s, t, j);
    var a, u :| Does(a, s, u) && a.t == t && !a.Open?;
    assert a.Begin? && Does(Begin(t, a.k), s, u);
  }
}
