/** The node's rebuild queue (src/rebuild.rs): what its lock protects, one step for each
    critical section, and what every interleaving of them keeps. */
module RebuildQueue {
  import opened Options
  import opened Sets

  type VolumeId = nat
  type Key = (nat, nat, VolumeId)

  /** Finished jobs remembered. */
  const HISTORY: nat := 64

  datatype Health = Healthy | Unhealthy

  datatype RebuildState = Queued | Running | Done | Partial | Cancelled
  {
    predicate Finished() {
      Done? || Partial? || Cancelled?
    }
  }

  /** One volume within a job; `covered` is when the pass that ended it began. */
  datatype Entry = Entry(volume: VolumeId, state: RebuildState, margin: nat, covered: Option<nat>)

  datatype Job = Job(state: RebuildState, volumes: seq<Entry>, asked: nat)

  /** A rebuild under way: its cancel flag, and when it began. */
  datatype Pass = Pass(cancel: bool, began: nat)

  /** `clock` counts steps and stands for the wall clock; `begun` is every pass there ever was;
      `requeueing` are volumes between the two critical sections at the end of a pass; `pumps`
      are the calls of `pump` still to come. */
  datatype Inner = Inner(
    nextId: nat,
    arrivals: nat,
    jobs: map<nat, Job>,
    queue: set<Key>,
    queued: map<VolumeId, (nat, nat)>,
    running: map<VolumeId, Pass>,
    rerun: set<VolumeId>,
    parallel: nat,
    requeueing: set<VolumeId>,
    pumps: nat,
    clock: nat,
    begun: set<(VolumeId, nat)>)

  datatype Step =
    | Start(entries: seq<(VolumeId, nat)>)
    | Cancel(id: nat)
    | Pump
    | FinishPass(volume: VolumeId, health: Option<Health>)
    | Requeue(volume: VolumeId, margin: nat)
    | SetParallel(n: nat)

  const Idle: Inner := Inner(0, 0, map[], {}, map[], map[], {}, 4, {}, 0, 0, {})

  // ---------------------------------------------------------------- jobs

  predicate AllFinished(es: seq<Entry>) {
    forall e <- es :: e.state.Finished()
  }

  predicate AnyIn(es: seq<Entry>, st: RebuildState) {
    exists e <- es :: e.state == st
  }

  /** A job's state from its volumes. */
  function Settle(job: Job): (r: Job)
    ensures r.volumes == job.volumes && r.asked == job.asked
    ensures (job.state.Finished() ==> AllFinished(job.volumes)) ==> (r.state.Finished() <==> AllFinished(r.volumes))
  {
    if job.state.Finished() then job
    else if !AllFinished(job.volumes) then
      if AnyIn(job.volumes, Running) then job.(state := Running) else job
    else job.(state :=
      if AnyIn(job.volumes, Cancelled) then Cancelled
      else if AnyIn(job.volumes, Partial) then Partial
      else Done)
  }

  function PromoteEntry(e: Entry, vol: VolumeId): Entry {
    if e.volume == vol && e.state == Queued then e.(state := Running) else e
  }

  function RequeueEntry(e: Entry, vol: VolumeId): Entry {
    if e.volume == vol && e.state == Running then e.(state := Queued) else e
  }

  function EndEntry(e: Entry, vol: VolumeId, end: RebuildState, began: nat): Entry {
    if e.volume == vol && e.state == Running then e.(state := end, covered := Some(began)) else e
  }

  function CancelEntry(e: Entry): Entry {
    if e.state.Finished() then e else e.(state := Cancelled)
  }

  function PromoteJob(job: Job, vol: VolumeId): (r: Job)
    ensures |r.volumes| == |job.volumes| && r.asked == job.asked
  {
    if job.state.Finished() then job else
    Settle(job.(volumes := seq(|job.volumes|, i requires 0 <= i < |job.volumes| => PromoteEntry(job.volumes[i], vol))))
  }

  function RequeueJob(job: Job, vol: VolumeId): (r: Job)
    ensures |r.volumes| == |job.volumes| && r.asked == job.asked
  {
    job.(volumes := seq(|job.volumes|, i requires 0 <= i < |job.volumes| => RequeueEntry(job.volumes[i], vol)))
  }

  /** The end of a pass in one job; `again` leaves its entries running for the next pass. */
  function EndJob(job: Job, vol: VolumeId, again: bool, end: RebuildState, began: nat): (r: Job)
    ensures |r.volumes| == |job.volumes| && r.asked == job.asked
  {
    if job.state.Finished() then job else
    if again then Settle(job) else
    Settle(job.(volumes :=
      seq(|job.volumes|, i requires 0 <= i < |job.volumes| => EndEntry(job.volumes[i], vol, end, began))))
  }

  function CancelEntries(es: seq<Entry>): (r: seq<Entry>)
    ensures |r| == |es|
  {
    seq(|es|, i requires 0 <= i < |es| => CancelEntry(es[i]))
  }

  function CancelJob(job: Job): (r: Job)
    ensures |r.volumes| == |job.volumes| && r.asked == job.asked
  {
    Settle(job.(volumes := CancelEntries(job.volumes)))
  }

  ghost function PromoteJobs(jobs: map<nat, Job>, vol: VolumeId): (r: map<nat, Job>)
    ensures r.Keys == jobs.Keys && forall id <- jobs :: r[id] == PromoteJob(jobs[id], vol)
  {
    map id | id in jobs :: PromoteJob(jobs[id], vol)
  }

  ghost function RequeueJobs(jobs: map<nat, Job>, vol: VolumeId): (r: map<nat, Job>)
    ensures r.Keys == jobs.Keys && forall id <- jobs :: r[id] == RequeueJob(jobs[id], vol)
  {
    map id | id in jobs :: RequeueJob(jobs[id], vol)
  }

  ghost function EndJobs(jobs: map<nat, Job>, vol: VolumeId, again: bool, end: RebuildState, began: nat):
        (r: map<nat, Job>)
    ensures r.Keys == jobs.Keys && forall id <- jobs :: r[id] == EndJob(jobs[id], vol, again, end, began)
  {
    map id | id in jobs :: EndJob(jobs[id], vol, again, end, began)
  }

  /** Whether a job still waits for this volume. */
  predicate Wants(job: Job, vol: VolumeId) {
    !job.state.Finished() && exists e <- job.volumes :: e.volume == vol && !e.state.Finished()
  }

  predicate WantedElsewhere(s: Inner, id: nat, vol: VolumeId) {
    exists j <- s.jobs :: j != id && Wants(s.jobs[j], vol)
  }

  // ---------------------------------------------------------------- the queue

  predicate Less(a: Key, b: Key) {
    a.0 < b.0 || (a.0 == b.0 && (a.1 < b.1 || (a.1 == b.1 && a.2 < b.2)))
  }

  ghost predicate IsFirst(q: set<Key>, k: Key) {
    k in q && forall x <- q :: x == k || Less(k, x)
  }

  lemma {:induction false} FirstExists(q: set<Key>)
    requires q != {}
    ensures exists k :: IsFirst(q, k)
    decreases |q|
  {
    var x :| x in q;
    if q == {x} {
      assert IsFirst(q, x);
    } else {
      assert q - {x} != {};
      FirstExists(q - {x});
      var k :| IsFirst(q - {x}, k);
      assert forall y <- q :: y == x || y in q - {x};
      if Less(x, k) {
        assert IsFirst(q, x);
      } else {
        assert IsFirst(q, k);
      }
    }
  }

  /** The most endangered volume, the longest waiting of those. */
  ghost function First(q: set<Key>): (k: Key)
    requires q != {}
    ensures IsFirst(q, k)
  {
    FirstExists(q);
    var k :| IsFirst(q, k);
    k
  }

  /** One volume of a start: a rerun when it is being rebuilt, else queued once at the most
      urgent margin anyone gave it. */
  function Enqueue(s: Inner, vol: VolumeId, margin: nat): Inner {
    if vol in s.running then s.(rerun := s.rerun + {vol})
    else
      var t := s.(arrivals := s.arrivals + 1);
      if vol in s.queued && s.queued[vol].0 <= margin then t
      else
        var was := if vol in s.queued then {(s.queued[vol].0, s.queued[vol].1, vol)} else {};
        t.(queue := s.queue - was + {(margin, s.arrivals, vol)}, queued := s.queued[vol := (margin, s.arrivals)])
  }

  function NewEntry(s: Inner, vol: VolumeId, margin: nat): Entry {
    Entry(vol, if vol in s.running then Running else Queued, margin, None)
  }

  ghost function EnqueueAll(s: Inner, es: seq<(VolumeId, nat)>): Inner {
    if es == [] then s else
    var n := |es| - 1;
    Enqueue(EnqueueAll(s, es[..n]), es[n].0, es[n].1)
  }

  ghost function FinishedIds(jobs: map<nat, Job>): set<nat> {
    set id | id in jobs && jobs[id].state.Finished()
  }

  /** Only the last finished jobs are remembered. */
  ghost function Trim(jobs: map<nat, Job>): (r: map<nat, Job>)
    ensures r.Keys <= jobs.Keys && forall id <- r :: r[id] == jobs[id]
    ensures forall id <- jobs :: !jobs[id].state.Finished() ==> id in r
    ensures |FinishedIds(r)| <= HISTORY
    decreases |jobs|
  {
    if |FinishedIds(jobs)| <= HISTORY then jobs else
    Trim(jobs - {Least(FinishedIds(jobs))})
  }

  ghost function NewEntries(s: Inner, es: seq<(VolumeId, nat)>): (r: seq<Entry>)
    ensures |r| == |es|
  {
    seq(|es|, i requires 0 <= i < |es| => NewEntry(s, es[i].0, es[i].1))
  }

  ghost function StartJob(s: Inner, es: seq<(VolumeId, nat)>): Inner {
    var t := EnqueueAll(s, es);
    var job := Settle(Job(Queued, NewEntries(s, es), s.clock));
    t.(nextId := s.nextId + 1, jobs := Trim(s.jobs[s.nextId + 1 := job]), pumps := s.pumps + 1)
  }

  /** Drop a volume only the cancelled job wanted. */
  function Unwant(s: Inner, vol: VolumeId): Inner {
    s.(queue := if vol in s.queued then s.queue - {(s.queued[vol].0, s.queued[vol].1, vol)} else s.queue,
       queued := s.queued - {vol},
       running := if vol in s.running then s.running[vol := s.running[vol].(cancel := true)] else s.running,
       rerun := s.rerun - {vol})
  }

  ghost function UnwantAll(s: Inner, id: nat, es: seq<Entry>): Inner {
    if es == [] then s else
    var t := UnwantAll(s, id, es[..|es| - 1]);
    var e := es[|es| - 1];
    if !e.state.Finished() && !WantedElsewhere(s, id, e.volume) then Unwant(t, e.volume) else t
  }

  ghost function CancelById(s: Inner, id: nat): Inner {
    if id !in s.jobs || s.jobs[id].state.Finished() then s else
    UnwantAll(s, id, s.jobs[id].volumes).(jobs := s.jobs[id := CancelJob(s.jobs[id])])
  }

  ghost function Promote(s: Inner, k: Key): Inner {
    s.(queue := s.queue - {k},
       queued := s.queued - {k.2},
       running := s.running[k.2 := Pass(false, s.clock)],
       jobs := PromoteJobs(s.jobs, k.2),
       begun := s.begun + {(k.2, s.clock)})
  }

  ghost predicate Room(s: Inner) {
    |s.running| < s.parallel && s.queue != {}
  }

  /** Start queued volumes while there is room. */
  ghost function PumpAll(s: Inner): Inner
    decreases |s.queue|
  {
    if !Room(s) then s else PumpAll(Promote(s, First(s.queue)))
  }

  function EndState(cancelled: bool, health: Option<Health>): RebuildState {
    if cancelled then Cancelled
    else if health == None || health == Some(Healthy) then Done
    else Partial
  }

  /** The first critical section at the end of a pass. */
  ghost function EndPass(s: Inner, vol: VolumeId, health: Option<Health>): Inner
    requires vol in s.running
  {
    var pass := s.running[vol];
    var again := vol in s.rerun && !pass.cancel;
    s.(running := s.running - {vol},
       rerun := s.rerun - {vol},
       jobs := EndJobs(s.jobs, vol, again, EndState(pass.cancel, health), pass.began),
       requeueing := if again then s.requeueing + {vol} else s.requeueing,
       pumps := if again then s.pumps else s.pumps + 1)
  }

  /** The second: back into the queue for another pass. */
  ghost function RequeueVolume(s: Inner, vol: VolumeId, margin: nat): Inner {
    s.(arrivals := s.arrivals + 1,
       queue := s.queue + {(margin, s.arrivals, vol)},
       queued := s.queued[vol := (margin, s.arrivals)],
       jobs := RequeueJobs(s.jobs, vol),
       requeueing := s.requeueing - {vol},
       pumps := s.pumps + 1)
  }

  /** When a step can happen. A start names each volume once. */
  ghost predicate Enabled(s: Inner, a: Step) {
    match a
    case Start(es) => forall i, j :: 0 <= i < j < |es| ==> es[i].0 != es[j].0
    case Pump => true
    case FinishPass(vol, _) => vol in s.running
    case Requeue(vol, _) => vol in s.requeueing
    case Cancel(_) => true
    case SetParallel(_) => true
  }

  function Less1(n: nat): nat {
    if n == 0 then 0 else n - 1
  }

  ghost function Do(s: Inner, a: Step): Inner
    requires Enabled(s, a)
  {
    var t := match a
      case Start(es) => StartJob(s, es)
      case Cancel(id) => CancelById(s, id)
      case Pump => PumpAll(s).(pumps := Less1(s.pumps))
      case FinishPass(vol, health) => EndPass(s, vol, health)
      case Requeue(vol, margin) => RequeueVolume(s, vol, margin)
      case SetParallel(n) => s.(parallel := if n < 1 then 1 else n, pumps := s.pumps + 1);
    t.(clock := s.clock + 1)
  }

  // ---------------------------------------------------------------- what every step keeps

  /** The ordered queue and the index over it say the same. */
  ghost predicate Indexed(s: Inner) {
    && (forall v <- s.queued :: (s.queued[v].0, s.queued[v].1, v) in s.queue)
    && (forall k <- s.queue :: k.2 in s.queued && s.queued[k.2] == (k.0, k.1))
  }

  ghost predicate Apart(s: Inner) {
    && s.queued.Keys !! s.running.Keys
    && s.requeueing !! s.queued.Keys
    && s.requeueing !! s.running.Keys
    && s.rerun <= s.running.Keys
  }

  /** Arrival numbers are handed out once. */
  ghost predicate Arrived(s: Inner) {
    && (forall v <- s.queued :: s.queued[v].1 < s.arrivals)
    && (forall u <- s.queued, v <- s.queued :: u != v ==> s.queued[u].1 != s.queued[v].1)
  }

  /** Where an unfinished entry of a job asked for at `asked` is waiting: in the queue, between
      two passes, or under a pass that will cover it, be run again, or was cancelled. */
  ghost predicate Held(s: Inner, e: Entry, asked: nat) {
    match e.state
    case Queued => e.volume in s.queued
    case Running =>
      e.volume in s.requeueing ||
      (e.volume in s.running &&
       (e.volume in s.rerun || s.running[e.volume].cancel || asked < s.running[e.volume].began))
    case _ => true
  }

  /** An entry that ends Done or Partial was covered by a pass begun after it was asked for. */
  ghost predicate Covered(s: Inner, e: Entry, asked: nat) {
    e.state in {Done, Partial} ==>
      e.covered.Some? && asked < e.covered.value && (e.volume, e.covered.value) in s.begun
  }

  ghost predicate JobOk(s: Inner, job: Job) {
    && (forall i, j :: 0 <= i < j < |job.volumes| ==> job.volumes[i].volume != job.volumes[j].volume)
    && (job.state.Finished() <==> AllFinished(job.volumes))
    && job.asked < s.clock
    && (forall i :: 0 <= i < |job.volumes| ==>
      Held(s, job.volumes[i], job.asked) && Covered(s, job.volumes[i], job.asked))
  }

  ghost predicate Passes(s: Inner) {
    forall v <- s.running :: s.running[v].began <= s.clock && (v, s.running[v].began) in s.begun
  }

  /** Nothing waits while there is room, unless a pump is still to come. */
  ghost predicate NoStall(s: Inner) {
    s.pumps > 0 || s.requeueing != {} || s.queue == {} || |s.running| >= s.parallel
  }

  ghost predicate Jobs(s: Inner) {
    forall id <- s.jobs :: id <= s.nextId && JobOk(s, s.jobs[id])
  }

  ghost predicate Inv(s: Inner) {
    Indexed(s) && Apart(s) && Arrived(s) && Jobs(s) && Passes(s) && NoStall(s) && s.parallel >= 1
  }

  /** Nothing a waiting entry relies on was taken away between `s` and `t`. */
  ghost predicate Keeps(s: Inner, t: Inner) {
    && s.queued.Keys <= t.queued.Keys
    && s.requeueing <= t.requeueing
    && (forall v <- s.running :: v in t.running && t.running[v] == s.running[v])
    && s.rerun <= t.rerun
    && s.begun <= t.begun
    && s.clock <= t.clock
  }

  lemma JobStays(s: Inner, t: Inner, job: Job)
    requires JobOk(s, job) && Keeps(s, t)
    ensures JobOk(t, job)
  {
  }

  lemma JobsStay(s: Inner, t: Inner)
    requires Jobs(s) && Keeps(s, t) && t.jobs == s.jobs && s.nextId <= t.nextId
    ensures Jobs(t)
  {
    forall id <- t.jobs
      ensures JobOk(t, t.jobs[id])
    {
      JobStays(s, t, s.jobs[id]);
    }
  }

  // ---- start

  ghost predicate QueueOk(s: Inner) {
    Indexed(s) && Apart(s) && Arrived(s)
  }

  /** Only the queue, its index, the arrival counter and the reruns differ. */
  ghost predicate QueueOnly(s: Inner, t: Inner) {
    t == s.(arrivals := t.arrivals, queue := t.queue, queued := t.queued, rerun := t.rerun)
  }

  /** A volume asked for is queued, or being rebuilt and due another pass. */
  ghost predicate Taken(s: Inner, vol: VolumeId) {
    if vol in s.running then vol in s.rerun else vol in s.queued
  }

  lemma EnqueueKeeps(s: Inner, vol: VolumeId, margin: nat)
    requires QueueOk(s) && vol !in s.requeueing
    ensures var t := Enqueue(s, vol, margin);
      && QueueOk(t) && Keeps(s, t) && QueueOnly(s, t) && Taken(t, vol)
      && (vol in t.queued ==> t.queued[vol].0 <= margin)
  {
    var t := Enqueue(s, vol, margin);
    if vol !in s.running && (vol in s.queued ==> margin < s.queued[vol].0) {
      assert t.queued == s.queued[vol := (margin, s.arrivals)];
      forall v <- t.queued
        ensures (t.queued[v].0, t.queued[v].1, v) in t.queue
      {
      }
      forall k <- t.queue
        ensures k.2 in t.queued && t.queued[k.2] == (k.0, k.1)
      {
      }
    }
  }

  /** The margin a volume waits at once it is asked for: the most urgent anyone gave it. */
  function MarginAfter(s: Inner, e: (VolumeId, nat)): nat {
    if e.0 in s.queued && s.queued[e.0].0 <= e.1 then s.queued[e.0].0 else e.1
  }

  /** A volume that waits at least as urgently keeps its place; any other comes after all that were
      there before. */
  ghost predicate PlaceAfter(s: Inner, t: Inner, e: (VolumeId, nat))
    requires e.0 in t.queued
  {
    if e.0 in s.queued && s.queued[e.0].0 <= e.1 then t.queued[e.0] == s.queued[e.0]
    else t.queued[e.0].1 >= s.arrivals
  }

  ghost predicate AskedAt(s: Inner, t: Inner, e: (VolumeId, nat)) {
    if e.0 in s.running then e.0 in t.rerun
    else e.0 in t.queued && t.queued[e.0].0 == MarginAfter(s, e) && PlaceAfter(s, t, e)
  }

  /** What a start does to the queue: each volume asked for is due another pass if it is being
      rebuilt, and else waits at the most urgent margin; all others wait as they did. */
  ghost predicate Asked(s: Inner, t: Inner, es: seq<(VolumeId, nat)>) {
    && (forall i :: 0 <= i < |es| ==> AskedAt(s, t, es[i]))
    && t.rerun == s.rerun + Volumes(es) * s.running.Keys
    && (forall v <- s.queued :: v !in Volumes(es) ==> v in t.queued && t.queued[v] == s.queued[v])
    && t.queued.Keys <= s.queued.Keys + Volumes(es)
  }

  ghost function Volumes(es: seq<(VolumeId, nat)>): (r: set<VolumeId>)
    ensures forall i :: 0 <= i < |es| ==> es[i].0 in r
  {
    set i | 0 <= i < |es| :: es[i].0
  }

  lemma VolumesMore(es: seq<(VolumeId, nat)>, n: nat)
    requires |es| == n + 1 && forall i, j :: 0 <= i < j < |es| ==> es[i].0 != es[j].0
    ensures Volumes(es) == Volumes(es[..n]) + {es[n].0} && es[n].0 !in Volumes(es[..n])
  {
  }

  lemma {:induction false} EnqueueAllAsks(s: Inner, es: seq<(VolumeId, nat)>)
    requires forall i, j :: 0 <= i < j < |es| ==> es[i].0 != es[j].0
    ensures QueueOnly(s, EnqueueAll(s, es)) && Asked(s, EnqueueAll(s, es), es)
    ensures s.arrivals <= EnqueueAll(s, es).arrivals
  {
    if es != [] {
      var n := |es| - 1;
      var m := EnqueueAll(s, es[..n]);
      EnqueueAllAsks(s, es[..n]);
      EnqueueAsks(m, es[n]);
      AskedMore(s, m, Enqueue(m, es[n].0, es[n].1), es, n);
    }
  }

  /** One volume asked for, and the others as they were. */
  ghost predicate AskedOne(s: Inner, t: Inner, e: (VolumeId, nat)) {
    && t.rerun == s.rerun + (if e.0 in s.running then {e.0} else {})
    && s.arrivals <= t.arrivals
    && (forall v :: v != e.0 ==> (v in t.queued <==> v in s.queued) && (v in s.queued ==> t.queued[v] == s.queued[v]))
    && (if e.0 in s.running then e.0 in t.rerun && t.queued == s.queued
        else e.0 in t.queued && t.queued[e.0].0 == MarginAfter(s, e) && PlaceAfter(s, t, e))
  }

  lemma EnqueueAsks(s: Inner, e: (VolumeId, nat))
    ensures QueueOnly(s, Enqueue(s, e.0, e.1)) && AskedOne(s, Enqueue(s, e.0, e.1), e)
  {
  }

  lemma AskedMore(s: Inner, m: Inner, t: Inner, es: seq<(VolumeId, nat)>, n: nat)
    requires |es| == n + 1 && forall i, j :: 0 <= i < j < |es| ==> es[i].0 != es[j].0
    requires m.running == s.running && s.arrivals <= m.arrivals && Asked(s, m, es[..n]) && AskedOne(m, t, es[n])
    ensures Asked(s, t, es)
  {
    VolumesMore(es, n);
    forall i | 0 <= i < n
      ensures es[..n][i] == es[i] && es[i].0 != es[n].0 && AskedAt(s, m, es[i]) && AskedAt(s, t, es[i])
    {
      assert AskedAt(s, m, es[..n][i]);
    }
    assert es[n].0 !in Volumes(es[..n]);
    assert AskedAt(s, t, es[n]);
    assert t.rerun == s.rerun + Volumes(es) * s.running.Keys;
  }

  lemma {:induction false} EnqueueAllKeeps(s: Inner, es: seq<(VolumeId, nat)>)
    requires QueueOk(s)
    requires forall i :: 0 <= i < |es| ==> es[i].0 !in s.requeueing
    ensures var t := EnqueueAll(s, es);
      QueueOk(t) && Keeps(s, t) && QueueOnly(s, t) && forall i :: 0 <= i < |es| ==> Taken(t, es[i].0)
  {
    if es != [] {
      var n := |es| - 1;
      EnqueueAllKeeps(s, es[..n]);
      var m := EnqueueAll(s, es[..n]);
      EnqueueKeeps(m, es[n].0, es[n].1);
      forall i | 0 <= i < n
        ensures Taken(m, es[i].0)
      {
        assert es[..n][i] == es[i];
      }
    }
  }

  /** The gap at the end of a pass is the one place a start must not land (src/rebuild.rs:530-536). */
  ghost predicate Clear(s: Inner, a: Step) {
    a.Start? ==> forall i :: 0 <= i < |a.entries| ==> a.entries[i].0 !in s.requeueing
  }

  lemma NewJobOk(s: Inner, t: Inner, es: seq<(VolumeId, nat)>)
    requires Enabled(s, Start(es)) && s.clock < t.clock && t.running == s.running
    requires forall i :: 0 <= i < |es| ==> Taken(t, es[i].0)
    ensures JobOk(t, Settle(Job(Queued, NewEntries(s, es), s.clock)))
  {
    var entries := NewEntries(s, es);
    forall i | 0 <= i < |es|
      ensures Held(t, entries[i], s.clock)
    {
      assert Taken(t, es[i].0);
    }
  }

  lemma StartAsks(s: Inner, es: seq<(VolumeId, nat)>)
    requires Enabled(s, Start(es))
    ensures Asked(s, Do(s, Start(es)), es)
  {
    EnqueueAllAsks(s, es);
    AskedStays(s, EnqueueAll(s, es), Do(s, Start(es)), es);
  }

  lemma AskedStays(s: Inner, t: Inner, u: Inner, es: seq<(VolumeId, nat)>)
    requires Asked(s, t, es) && u.queued == t.queued && u.rerun == t.rerun
    ensures Asked(s, u, es)
  {
    forall i | 0 <= i < |es|
      ensures AskedAt(s, u, es[i])
    {
      assert AskedAt(s, t, es[i]);
    }
  }

  /** A start keeps everything in agreement, and each volume it names is due another pass or
      waits once, at the most urgent margin. */
  lemma StartKeeps(s: Inner, es: seq<(VolumeId, nat)>)
    requires Inv(s) && Enabled(s, Start(es)) && Clear(s, Start(es))
    ensures Inv(Do(s, Start(es))) && Asked(s, Do(s, Start(es)), es)
  {
    StartAsks(s, es);
    StartKeepsInv(s, es);
  }

  lemma StartKeepsInv(s: Inner, es: seq<(VolumeId, nat)>)
    requires Inv(s) && Enabled(s, Start(es)) && Clear(s, Start(es))
    ensures Inv(Do(s, Start(es)))
  {
    EnqueueAllKeeps(s, es);
    var t := Do(s, Start(es));
    NewJobOk(s, t, es);
    assert QueueOk(t);
    forall id <- t.jobs
      ensures id <= t.nextId && JobOk(t, t.jobs[id])
    {
      if id != s.nextId + 1 {
        JobStays(s, t, s.jobs[id]);
      }
    }
  }

  // ---- cancel

  /** What unwanting volumes leaves alone: everything about a volume another job wants. */
  ghost predicate Spares(s: Inner, t: Inner, id: nat) {
    && t.running.Keys == s.running.Keys
    && (forall v <- s.running :: t.running[v].began == s.running[v].began)
    && (forall v | WantedElsewhere(s, id, v) ::
          (v in t.queued <==> v in s.queued) && (v in t.rerun <==> v in s.rerun) &&
          (v in s.running ==> t.running[v] == s.running[v]))
    && t.queue <= s.queue && t.rerun <= s.rerun
    && t == s.(queue := t.queue, queued := t.queued, running := t.running, rerun := t.rerun)
  }

  lemma UnwantSpares(s: Inner, t: Inner, id: nat, vol: VolumeId)
    requires QueueOk(t) && Spares(s, t, id) && !WantedElsewhere(s, id, vol)
    ensures QueueOk(Unwant(t, vol)) && Spares(s, Unwant(t, vol), id)
  {
    var u := Unwant(t, vol);
    assert u.running.Keys == t.running.Keys;
    assert forall v <- t.queued :: v != vol ==> v in u.queued;
  }

  lemma {:induction false} UnwantAllSpares(s: Inner, id: nat, es: seq<Entry>)
    requires QueueOk(s)
    ensures QueueOk(UnwantAll(s, id, es)) && Spares(s, UnwantAll(s, id, es), id)
  {
    if es != [] {
      UnwantAllSpares(s, id, es[..|es| - 1]);
      var e := es[|es| - 1];
      if !e.state.Finished() && !WantedElsewhere(s, id, e.volume) {
        UnwantSpares(s, UnwantAll(s, id, es[..|es| - 1]), id, e.volume);
      }
    }
  }

  lemma CancelKeeps(s: Inner, id: nat)
    requires Inv(s)
    ensures Inv(Do(s, Cancel(id)))
  {
    var t := Do(s, Cancel(id));
    if id !in s.jobs || s.jobs[id].state.Finished() {
      JobsStay(s, t);
    } else {
      UnwantAllSpares(s, id, s.jobs[id].volumes);
      forall j <- t.jobs
        ensures j <= t.nextId && JobOk(t, t.jobs[j])
      {
        if j == id {
          CancelledJob(s, t, s.jobs[id]);
        } else {
          OtherJobSpared(s, t, id, j);
        }
      }
    }
  }

  lemma CancelledJob(s: Inner, t: Inner, job: Job)
    requires JobOk(s, job) && !job.state.Finished() && s.begun <= t.begun && s.clock <= t.clock
    ensures JobOk(t, CancelJob(job)) && CancelJob(job).state.Finished()
  {
    var r := CancelJob(job);
    assert forall i :: 0 <= i < |r.volumes| ==> r.volumes[i] == CancelEntry(job.volumes[i]);
  }

  lemma OtherJobSpared(s: Inner, t: Inner, id: nat, j: nat)
    requires Jobs(s) && j in s.jobs && j != id
    requires Spares(s, t.(jobs := s.jobs, clock := s.clock), id) && s.clock <= t.clock
    ensures JobOk(t, s.jobs[j])
  {
    var job := s.jobs[j];
    forall i | 0 <= i < |job.volumes|
      ensures Held(t, job.volumes[i], job.asked)
    {
      var e := job.volumes[i];
      if !e.state.Finished() {
        assert e in job.volumes;
        assert Wants(job, e.volume);
        assert WantedElsewhere(s, id, e.volume);
      }
    }
  }

  lemma {:induction false} UnwantAllFrame(s: Inner, id: nat, es: seq<Entry>)
    ensures var t := UnwantAll(s, id, es);
      t == s.(queue := t.queue, queued := t.queued, running := t.running, rerun := t.rerun)
  {
    if es != [] {
      UnwantAllFrame(s, id, es[..|es| - 1]);
    }
  }

  /** Cancelling one job leaves every other job as it was, and every volume another job wants
      as it was: still queued, or still running and not told to stop. */
  lemma CancelSparesOthers(s: Inner, id: nat, j: nat)
    requires Inv(s) && j in s.jobs && j != id
    ensures var t := Do(s, Cancel(id));
      && j in t.jobs && t.jobs[j] == s.jobs[j]
      && forall v :: Wants(s.jobs[j], v) ==>
           (v in t.queued <==> v in s.queued) && (v in t.rerun <==> v in s.rerun) &&
           (v in s.running ==> v in t.running && t.running[v] == s.running[v])
  {
    if id in s.jobs {
      UnwantAllSpares(s, id, s.jobs[id].volumes);
    }
  }

  // ---- pump

  ghost function PromoteEntries(es: seq<Entry>, vol: VolumeId): (r: seq<Entry>)
    ensures |r| == |es| && forall i :: 0 <= i < |es| ==> r[i] == PromoteEntry(es[i], vol)
  {
    seq(|es|, i requires 0 <= i < |es| => PromoteEntry(es[i], vol))
  }

  lemma PromotedEntry(s: Inner, k: Key, e: Entry, asked: nat)
    requires Indexed(s) && Apart(s) && k in s.queue && asked < s.clock
    requires Held(s, e, asked) && Covered(s, e, asked)
    ensures Held(Promote(s, k), PromoteEntry(e, k.2), asked) && Covered(Promote(s, k), PromoteEntry(e, k.2), asked)
  {
  }

  lemma PromotedJob(s: Inner, k: Key, job: Job)
    requires Indexed(s) && Apart(s) && JobOk(s, job) && k in s.queue
    ensures JobOk(Promote(s, k), PromoteJob(job, k.2))
  {
    var r := PromoteJob(job, k.2);
    forall i | 0 <= i < |job.volumes|
      ensures Held(Promote(s, k), PromoteEntry(job.volumes[i], k.2), job.asked)
      ensures Covered(Promote(s, k), PromoteEntry(job.volumes[i], k.2), job.asked)
    {
      PromotedEntry(s, k, job.volumes[i], job.asked);
    }
    if job.state.Finished() {
      forall i | 0 <= i < |job.volumes|
        ensures PromoteEntry(job.volumes[i], k.2) == job.volumes[i]
      {
        assert job.volumes[i] in job.volumes;
      }
    } else {
      assert r.volumes == PromoteEntries(job.volumes, k.2);
      SameFinished(job.volumes, r.volumes);
    }
  }

  lemma PromoteQueue(s: Inner, k: Key)
    requires QueueOk(s) && k in s.queue
    ensures QueueOk(Promote(s, k))
  {
    var t := Promote(s, k);
    assert t.queued.Keys == s.queued.Keys - {k.2};
    assert t.running.Keys == s.running.Keys + {k.2};
    assert Indexed(t);
    assert Apart(t);
    assert Arrived(t);
  }

  lemma AddedSize(m: map<VolumeId, Pass>, v: VolumeId, p: Pass)
    requires v !in m
    ensures |m[v := p]| == |m| + 1
  {
    assert m[v := p].Keys == m.Keys + {v};
  }

  lemma PromotePasses(s: Inner, k: Key)
    requires Passes(s)
    ensures Passes(Promote(s, k))
  {
    forall v <- Promote(s, k).running
      ensures Promote(s, k).running[v].began <= s.clock && (v, Promote(s, k).running[v].began) in Promote(s, k).begun
    {
    }
  }

  lemma PromoteKeeps(s: Inner, k: Key)
    requires QueueOk(s) && Jobs(s) && Passes(s) && k in s.queue
    ensures var t := Promote(s, k);
      && QueueOk(t) && Jobs(t) && Passes(t)
      && |t.queue| == |s.queue| - 1 && |t.running| == |s.running| + 1
  {
    PromoteQueue(s, k);
    PromotePasses(s, k);
    AddedSize(s.running, k.2, Pass(false, s.clock));
    forall id <- Promote(s, k).jobs
      ensures JobOk(Promote(s, k), PromoteJob(s.jobs[id], k.2))
    {
      PromotedJob(s, k, s.jobs[id]);
    }
  }

  /** Pump stops only with the queue empty or the node full, and never goes past the limit. */
  lemma {:induction false} PumpAllKeeps(s: Inner)
    requires Indexed(s) && Apart(s) && Arrived(s) && Jobs(s) && Passes(s)
    ensures var t := PumpAll(s);
      && Indexed(t) && Apart(t) && Arrived(t) && Jobs(t) && Passes(t)
      && t.parallel == s.parallel && t.clock == s.clock && t.pumps == s.pumps && t.nextId == s.nextId
      && t.requeueing == s.requeueing && t.rerun == s.rerun && t.arrivals == s.arrivals
      && (t.queue == {} || |t.running| >= t.parallel)
      && |t.running| <= (if |s.running| < s.parallel then s.parallel else |s.running|)
      && |t.queue| + |t.running| == |s.queue| + |s.running| && |s.running| <= |t.running|
    decreases |s.queue|
  {
    if Room(s) {
      PromoteKeeps(s, First(s.queue));
      PumpAllKeeps(Promote(s, First(s.queue)));
    }
  }

  lemma PumpKeeps(s: Inner)
    requires Inv(s) && Enabled(s, Pump)
    ensures Inv(Do(s, Pump))
    ensures
      var t := Do(s, Pump);
      && (t.queue == {} || |t.running| >= s.parallel)
      && |t.running| <= (if |s.running| < s.parallel then s.parallel else |s.running|)
  {
    PumpAllKeeps(s);
    var t, e := PumpAll(s), Do(s, Pump);
    assert e == t.(pumps := Less1(s.pumps), clock := s.clock + 1);
    JobsStay(t, e);
    assert QueueOk(e) && Passes(e);
  }

  // ---- the end of a pass

  lemma EndedEntry(s: Inner, vol: VolumeId, health: Option<Health>, e: Entry, asked: nat)
    requires Apart(s) && Passes(s) && vol in s.running && Held(s, e, asked) && Covered(s, e, asked)
    ensures
      var pass := s.running[vol];
      var t := EndPass(s, vol, health);
      var r := if vol in s.rerun && !pass.cancel then e else EndEntry(e, vol, EndState(pass.cancel, health),
        pass.began);
      Held(t, r, asked) && Covered(t, r, asked)
  {
  }

  lemma EndedJob(s: Inner, vol: VolumeId, health: Option<Health>, job: Job)
    requires Apart(s) && Passes(s) && JobOk(s, job) && vol in s.running
    ensures
      var pass := s.running[vol];
      var again := vol in s.rerun && !pass.cancel;
      JobOk(EndPass(s, vol, health), EndJob(job, vol, again, EndState(pass.cancel, health), pass.began))
  {
    var pass := s.running[vol];
    var again := vol in s.rerun && !pass.cancel;
    var end := EndState(pass.cancel, health);
    var r := EndJob(job, vol, again, end, pass.began);
    if job.state.Finished() || again {
      forall i | 0 <= i < |r.volumes|
        ensures Held(EndPass(s, vol, health), r.volumes[i], job.asked)
        ensures Covered(EndPass(s, vol, health), r.volumes[i], job.asked)
      {
        assert again || job.volumes[i] in job.volumes;
        EndedEntry(s, vol, health, job.volumes[i], job.asked);
      }
    } else {
      forall i | 0 <= i < |r.volumes|
        ensures Held(EndPass(s, vol, health), r.volumes[i], job.asked)
        ensures Covered(EndPass(s, vol, health), r.volumes[i], job.asked)
      {
        EndedEntry(s, vol, health, job.volumes[i], job.asked);
        assert r.volumes[i] == EndEntry(job.volumes[i], vol, end, pass.began);
      }
    }
  }

  lemma FinishPassKeeps(s: Inner, vol: VolumeId, health: Option<Health>)
    requires Inv(s) && Enabled(s, FinishPass(vol, health))
    ensures Inv(Do(s, FinishPass(vol, health)))
  {
    var e := EndPass(s, vol, health);
    forall id <- e.jobs
      ensures JobOk(e, e.jobs[id])
    {
      EndedJob(s, vol, health, s.jobs[id]);
    }
    JobsStay(e, Do(s, FinishPass(vol, health)));
  }

  lemma SameFinished(a: seq<Entry>, b: seq<Entry>)
    requires |a| == |b|
    requires forall i :: 0 <= i < |a| ==> (a[i].state.Finished() <==> b[i].state.Finished())
    ensures AllFinished(a) <==> AllFinished(b)
  {
    if !AllFinished(a) {
      var i :| 0 <= i < |a| && !a[i].state.Finished();
      assert b[i] in b;
    }
    if !AllFinished(b) {
      var i :| 0 <= i < |b| && !b[i].state.Finished();
      assert a[i] in a;
    }
  }

  lemma RequeuedJob(s: Inner, vol: VolumeId, margin: nat, job: Job)
    requires JobOk(s, job) && vol in s.requeueing && vol !in s.running
    ensures JobOk(RequeueVolume(s, vol, margin), RequeueJob(job, vol))
  {
    var t := RequeueVolume(s, vol, margin);
    var r := RequeueJob(job, vol);
    assert forall i :: 0 <= i < |r.volumes| ==> r.volumes[i] == RequeueEntry(job.volumes[i], vol);
    SameFinished(job.volumes, r.volumes);
    forall i | 0 <= i < |r.volumes|
      ensures Held(t, r.volumes[i], r.asked) && Covered(t, r.volumes[i], r.asked)
    {
      assert Held(s, job.volumes[i], job.asked) && Covered(s, job.volumes[i], job.asked);
    }
  }

  lemma RequeueQueue(s: Inner, vol: VolumeId, margin: nat)
    requires QueueOk(s) && vol in s.requeueing
    ensures QueueOk(RequeueVolume(s, vol, margin))
  {
  }

  lemma RequeueKeeps(s: Inner, vol: VolumeId, margin: nat)
    requires Inv(s) && Enabled(s, Requeue(vol, margin))
    ensures Inv(Do(s, Requeue(vol, margin)))
  {
    var r := RequeueVolume(s, vol, margin);
    RequeueQueue(s, vol, margin);
    forall id <- r.jobs
      ensures JobOk(r, r.jobs[id])
    {
      RequeuedJob(s, vol, margin, s.jobs[id]);
    }
    JobsStay(r, Do(s, Requeue(vol, margin)));
  }

  /** Every critical section keeps the queue, its index, the running set and the job table in
      agreement, as long as no start lands in the gap. */
  lemma StepKeeps(s: Inner, a: Step)
    requires Inv(s) && Enabled(s, a) && Clear(s, a)
    ensures Inv(Do(s, a))
  {
    match a
    case Start(es) => StartKeeps(s, es);
    case Cancel(id) => CancelKeeps(s, id);
    case Pump => PumpKeeps(s);
    case FinishPass(vol, health) => FinishPassKeeps(s, vol, health);
    case Requeue(vol, margin) => RequeueKeeps(s, vol, margin);
    case SetParallel(_) => JobsStay(s, Do(s, a));
  }

  // ---------------------------------------------------------------- whole runs

  ghost function Run(s: Inner, h: seq<Step>): Inner
    requires Legal(s, h)
    decreases |h|, 1
  {
    if h == [] then s else Do(Run(s, h[..|h| - 1]), h[|h| - 1])
  }

  /** Every step was possible when it was taken, and no start landed in the gap. */
  ghost predicate Legal(s: Inner, h: seq<Step>)
    decreases |h|, 0
  {
    h == [] ||
    (Legal(s, h[..|h| - 1]) &&
     Enabled(Run(s, h[..|h| - 1]), h[|h| - 1]) && Clear(Run(s, h[..|h| - 1]), h[|h| - 1]))
  }

  lemma {:induction false} RunKeeps(s: Inner, h: seq<Step>)
    requires Inv(s) && Legal(s, h)
    ensures Inv(Run(s, h))
  {
    if h != [] {
      RunKeeps(s, h[..|h| - 1]);
      StepKeeps(Run(s, h[..|h| - 1]), h[|h| - 1]);
    }
  }

  /** No report is lost: whatever interleaved, an entry that ended Done or Partial was ended by a
      pass of its volume that began after the job was asked for. */
  lemma NoReportIsLost(h: seq<Step>, id: nat, i: nat)
    requires Legal(Idle, h) && id in Run(Idle, h).jobs && i < |Run(Idle, h).jobs[id].volumes|
    requires Run(Idle, h).jobs[id].volumes[i].state in {Done, Partial}
    ensures var job := Run(Idle, h).jobs[id];
      var e := job.volumes[i];
      e.covered.Some? && (e.volume, e.covered.value) in Run(Idle, h).begun && job.asked < e.covered.value
  {
    RunKeeps(Idle, h);
    var s := Run(Idle, h);
    assert JobOk(s, s.jobs[id]);
  }

  /** No job is stranded: while one is unfinished, a pass is running, or one is about to be
      requeued, or a pump is still to come. */
  lemma NeverStranded(s: Inner, id: nat)
    requires Inv(s) && id in s.jobs && !s.jobs[id].state.Finished()
    ensures s.running != map[] || s.requeueing != {} || s.pumps > 0
  {
    assert JobOk(s, s.jobs[id]);
    var e :| e in s.jobs[id].volumes && !e.state.Finished();
    var i :| 0 <= i < |s.jobs[id].volumes| && s.jobs[id].volumes[i] == e;
    assert Held(s, e, s.jobs[id].asked);
    if e.state == Queued {
      assert (s.queued[e.volume].0, s.queued[e.volume].1, e.volume) in s.queue;
      assert s.queue != {};
    }
  }

  /** A finished job never changes; only a later start may forget it. */
  lemma FinishedJobsStay(s: Inner, a: Step, id: nat)
    requires Inv(s) && Enabled(s, a) && id in s.jobs && s.jobs[id].state.Finished()
    ensures id in Do(s, a).jobs ==> Do(s, a).jobs[id] == s.jobs[id]
    ensures !a.Start? ==> id in Do(s, a).jobs
  {
    assert JobOk(s, s.jobs[id]);
    match a
    case Start(es) => EnqueueAllJobs(s, es);
    case Cancel(other) =>
    case Pump => PumpFinished(s, id);
    case FinishPass(_, _) =>
    case Requeue(vol, _) =>
      var was, now := s.jobs[id], RequeueJob(s.jobs[id], vol);
      assert was.volumes == now.volumes by {
        forall i | 0 <= i < |was.volumes|
          ensures was.volumes[i] == now.volumes[i]
        {
          assert was.volumes[i] in was.volumes;
        }
      }
    case SetParallel(_) =>
  }

  lemma {:induction false} EnqueueAllJobs(s: Inner, es: seq<(VolumeId, nat)>)
    ensures QueueOnly(s, EnqueueAll(s, es))
  {
    if es != [] {
      EnqueueAllJobs(s, es[..|es| - 1]);
    }
  }

  lemma {:induction false} PumpFinished(s: Inner, id: nat)
    requires id in s.jobs && s.jobs[id].state.Finished()
    ensures id in PumpAll(s).jobs && PumpAll(s).jobs[id] == s.jobs[id]
    decreases |s.queue|
  {
    if Room(s) {
      PumpFinished(Promote(s, First(s.queue)), id);
    }
  }

  /** What pump leaves queued is less urgent than anything it started. */
  lemma {:induction false} PumpTakesTheMostUrgent(s: Inner, k: Key, x: Key)
    requires k in s.queue && k !in PumpAll(s).queue && x in PumpAll(s).queue
    ensures x in s.queue && Less(k, x)
    decreases |s.queue|
  {
    if Room(s) {
      var t := Promote(s, First(s.queue));
      PumpShrinks(t);
      assert x in t.queue;
      if k in t.queue {
        PumpTakesTheMostUrgent(t, k, x);
      }
    }
  }

  lemma {:induction false} PumpShrinks(s: Inner)
    ensures PumpAll(s).queue <= s.queue
    decreases |s.queue|
  {
    if Room(s) {
      PumpShrinks(Promote(s, First(s.queue)));
    }
  }

  // ---------------------------------------------------------------- every job ends

  ghost function Work(s: Inner): nat {
    3 * |s.rerun| + 2 * |s.queue| + |s.running| + 3 * |s.requeueing|
  }

  ghost predicate Ends(a: Step) {
    a.FinishPass? || a.Requeue?
  }

  lemma RunningSizes(m: map<VolumeId, Pass>, n: map<VolumeId, Pass>)
    requires m.Keys == n.Keys
    ensures |m| == |n|
  {
    assert |m| == |m.Keys| && |n| == |n.Keys|;
  }

  lemma RemovedSize(m: map<VolumeId, Pass>, v: VolumeId)
    requires v in m
    ensures |m - {v}| == |m| - 1
  {
    assert (m - {v}).Keys == m.Keys - {v};
  }

  lemma {:induction false} PumpWork(s: Inner)
    requires QueueOk(s) && Jobs(s) && Passes(s)
    ensures Work(PumpAll(s)) <= Work(s)
  {
    PumpAllKeeps(s);
  }

  lemma CancelWork(s: Inner, id: nat)
    requires QueueOk(s)
    ensures Work(CancelById(s, id)) <= Work(s)
  {
    if id in s.jobs && !s.jobs[id].state.Finished() {
      var t := UnwantAll(s, id, s.jobs[id].volumes);
      UnwantAllSpares(s, id, s.jobs[id].volumes);
      SubsetSize(t.queue, s.queue);
      SubsetSize(t.rerun, s.rerun);
      RunningSizes(t.running, s.running);
    }
  }

  lemma FinishPassWork(s: Inner, vol: VolumeId, health: Option<Health>)
    requires QueueOk(s) && vol in s.running
    ensures Work(EndPass(s, vol, health)) < Work(s)
  {
    RemovedSize(s.running, vol);
  }

  lemma RequeueWork(s: Inner, vol: VolumeId, margin: nat)
    requires QueueOk(s) && vol in s.requeueing
    ensures Work(RequeueVolume(s, vol, margin)) < Work(s)
  {
    var t := RequeueVolume(s, vol, margin);
    assert |t.queue| <= |s.queue| + 1;
    assert |t.requeueing| == |s.requeueing| - 1;
  }

  /** Only a start brings work; every end of a pass takes some. */
  lemma WorkFalls(s: Inner, a: Step)
    requires Inv(s) && Enabled(s, a) && !a.Start?
    ensures Work(Do(s, a)) + (if Ends(a) then 1 else 0) <= Work(s)
  {
    match a
    case Cancel(id) => CancelWork(s, id);
    case Pump => PumpWork(s);
    case FinishPass(vol, health) => FinishPassWork(s, vol, health);
    case Requeue(vol, margin) => RequeueWork(s, vol, margin);
    case SetParallel(_) =>
  }

  ghost function EndsIn(h: seq<Step>): nat {
    if h == [] then 0 else EndsIn(h[..|h| - 1]) + if Ends(h[|h| - 1]) then 1 else 0
  }

  /** With no new starts, the passes that can still end are bounded by the work at hand. */
  lemma {:induction false} WorkBoundsTheRun(s: Inner, h: seq<Step>)
    requires Inv(s) && Legal(s, h) && forall a <- h :: !a.Start?
    ensures Work(Run(s, h)) + EndsIn(h) <= Work(s)
  {
    if h != [] {
      var n := |h| - 1;
      WorkBoundsTheRun(s, h[..n]);
      RunKeeps(s, h[..n]);
      WorkFalls(Run(s, h[..n]), h[n]);
    }
  }

  /** With no work and no pump to come, every job has ended. */
  lemma NoWorkLeftMeansAllEnded(s: Inner, id: nat)
    requires Inv(s) && Work(s) == 0 && s.pumps == 0 && id in s.jobs
    ensures s.jobs[id].state.Finished()
  {
    assert s.running.Keys == {};
    if !s.jobs[id].state.Finished() {
      NeverStranded(s, id);
    }
  }

  // ---------------------------------------------------------------- the gap

  /** Requeueing keeps the queue and its index in agreement exactly when nothing queued or
      started the volume in the gap. */
  lemma RequeueIff(s: Inner, vol: VolumeId, margin: nat)
    requires Indexed(s) && Arrived(s) && s.queued.Keys !! s.running.Keys
    ensures
      var t := RequeueVolume(s, vol, margin);
      (Indexed(t) && t.queued.Keys !! t.running.Keys) <==> vol !in s.queued && vol !in s.running
  {
    var t := RequeueVolume(s, vol, margin);
    if vol in s.queued {
      assert (s.queued[vol].0, s.queued[vol].1, vol) in t.queue;
      assert t.queued[vol].1 == s.arrivals > s.queued[vol].1;
    } else if vol in s.running {
      assert vol in t.queued && vol in t.running;
    }
  }

  /** The run that breaks it: a volume hit again while rebuilding, and a third start in the gap. */
  lemma AStartInTheGapBreaksTheIndex()
    ensures
      var s1 := Do(Idle, Start([(7, 0)]));
      var s2 := Do(s1, Pump);
      var s3 := Do(s2, Start([(7, 0)]));
      7 in s2.running && 7 in s3.running &&
      var s4 := EndPass(s3, 7, Some(Healthy));
      7 in s4.requeueing &&
      var s5 := StartJob(s4, [(7, 0)]);
      !Indexed(RequeueVolume(s5, 7, 0))
  {
    var s1 := Do(Idle, Start([(7, 0)]));
    EnqueueOne(Idle, 7, 0);
    assert s1.queue == {(0, 0, 7)};
    assert First(s1.queue) == (0, 0, 7);
    var p := Promote(s1, (0, 0, 7));
    assert PumpAll(s1) == PumpAll(p) && PumpAll(p) == p;
    var s2 := Do(s1, Pump);
    EnqueueOne(s2, 7, 0);
    var s3 := Do(s2, Start([(7, 0)]));
    var s4 := EndPass(s3, 7, Some(Healthy));
    EnqueueOne(s4, 7, 0);
    var s5 := StartJob(s4, [(7, 0)]);
    assert (0, 1, 7) in RequeueVolume(s5, 7, 0).queue;
  }

  lemma EnqueueOne(s: Inner, vol: VolumeId, margin: nat)
    ensures EnqueueAll(s, [(vol, margin)]) == Enqueue(s, vol, margin)
  {
    assert [(vol, margin)][..0] == [];
  }

  // ---------------------------------------------------------------- which starts get a pass

  /** The volume's pass under way was told to stop. */
  ghost predicate Doomed(s: Inner, vol: VolumeId) {
    vol in s.running && s.running[vol].cancel
  }

  ghost predicate HasEntry(s: Inner, id: nat, i: nat, vol: VolumeId) {
    id in s.jobs ==> i < |s.jobs[id].volumes| && s.jobs[id].volumes[i].volume == vol
  }

  /** An entry that no pass told to stop has under it, nor had. */
  ghost predicate Safe(s: Inner, id: nat, i: nat, vol: VolumeId) {
    && id <= s.nextId && HasEntry(s, id, i, vol)
    && (id in s.jobs ==>
          var e := s.jobs[id].volumes[i];
          e.state != Cancelled && (e.state == Running ==> !Doomed(s, vol)))
  }

  /** One that a pass told to stop still has under it, or had. */
  ghost predicate Dropped(s: Inner, id: nat, i: nat, vol: VolumeId) {
    && id <= s.nextId && HasEntry(s, id, i, vol)
    && (id in s.jobs ==>
          var e := s.jobs[id].volumes[i];
          e.state == Cancelled || (e.state == Running && Doomed(s, vol)))
  }

  /** What a start does to the entries it makes. */
  lemma NewEntryIs(s: Inner, es: seq<(VolumeId, nat)>, i: nat)
    requires Inv(s) && Enabled(s, Start(es)) && Clear(s, Start(es)) && i < |es|
    ensures
      var t, id := Do(s, Start(es)), s.nextId + 1;
      if Doomed(s, es[i].0) then Dropped(t, id, i, es[i].0) else Safe(t, id, i, es[i].0)
  {
    EnqueueAllJobs(s, es);
    var t, id := Do(s, Start(es)), s.nextId + 1;
    assert t.running == s.running && t.nextId == id;
    assert id in t.jobs ==> t.jobs[id].volumes[i] == NewEntry(s, es[i].0, es[i].1);
  }

  lemma SafeWants(s: Inner, id: nat, i: nat, vol: VolumeId)
    requires Inv(s) && Safe(s, id, i, vol) && id in s.jobs && s.jobs[id].volumes[i].state == Running
    ensures Wants(s.jobs[id], vol)
  {
    assert JobOk(s, s.jobs[id]) && s.jobs[id].volumes[i] in s.jobs[id].volumes;
  }

  /** A step that leaves jobs alone, or forgets some, and makes no running pass stop. */
  lemma StartSafe(s: Inner, es: seq<(VolumeId, nat)>, id: nat, i: nat, vol: VolumeId)
    requires Inv(s) && Enabled(s, Start(es))
    ensures Safe(s, id, i, vol) ==> Safe(Do(s, Start(es)), id, i, vol)
    ensures Dropped(s, id, i, vol) ==> Dropped(Do(s, Start(es)), id, i, vol)
  {
    EnqueueAllJobs(s, es);
    var t := Do(s, Start(es));
    assert t.running == s.running && (id in t.jobs && id <= s.nextId ==> id in s.jobs && t.jobs[id] == s.jobs[id]);
  }

  lemma {:induction false} UnwantAllStops(s: Inner, id: nat, es: seq<Entry>)
    ensures
      var t := UnwantAll(s, id, es);
      t.running.Keys == s.running.Keys && forall v <- s.running :: s.running[v].cancel ==> t.running[v].cancel
  {
    if es != [] {
      UnwantAllStops(s, id, es[..|es| - 1]);
    }
  }

  lemma CancelSafe(s: Inner, other: nat, id: nat, i: nat, vol: VolumeId)
    requires Inv(s) && other != id
    ensures Safe(s, id, i, vol) ==> Safe(Do(s, Cancel(other)), id, i, vol)
    ensures Dropped(s, id, i, vol) ==> Dropped(Do(s, Cancel(other)), id, i, vol)
  {
    if other in s.jobs {
      UnwantAllStops(s, other, s.jobs[other].volumes);
      UnwantAllFrame(s, other, s.jobs[other].volumes);
    }
    if id in s.jobs {
      CancelSparesOthers(s, other, id);
      if Safe(s, id, i, vol) && s.jobs[id].volumes[i].state == Running {
        SafeWants(s, id, i, vol);
      }
    }
  }

  /** A pump promotes only what waits, and starts each pass untold to stop. */
  lemma PromoteSafe(s: Inner, k: Key, id: nat, i: nat, vol: VolumeId)
    requires Indexed(s) && Apart(s) && k in s.queue
    ensures Safe(s, id, i, vol) ==> Safe(Promote(s, k), id, i, vol)
    ensures Dropped(s, id, i, vol) ==> Dropped(Promote(s, k), id, i, vol)
  {
    if id in s.jobs && i < |s.jobs[id].volumes| {
      var job := s.jobs[id];
      assert Promote(s, k).jobs[id] == PromoteJob(job, k.2);
      assert PromoteJob(job, k.2).volumes[i] == job.volumes[i] ||
        PromoteJob(job, k.2).volumes[i] == PromoteEntry(job.volumes[i], k.2);
    }
  }

  lemma {:induction false} PumpAllSafe(s: Inner, id: nat, i: nat, vol: VolumeId)
    requires QueueOk(s) && Jobs(s) && Passes(s)
    ensures Safe(s, id, i, vol) ==> Safe(PumpAll(s), id, i, vol)
    ensures Dropped(s, id, i, vol) ==> Dropped(PumpAll(s), id, i, vol)
    decreases |s.queue|
  {
    if Room(s) {
      PromoteKeeps(s, First(s.queue));
      PromoteSafe(s, First(s.queue), id, i, vol);
      PumpAllSafe(Promote(s, First(s.queue)), id, i, vol);
    }
  }

  lemma FinishSafe(s: Inner, v: VolumeId, health: Option<Health>, id: nat, i: nat, vol: VolumeId)
    requires Inv(s) && v in s.running
    ensures Safe(s, id, i, vol) ==> Safe(Do(s, FinishPass(v, health)), id, i, vol)
    ensures Dropped(s, id, i, vol) ==> Dropped(Do(s, FinishPass(v, health)), id, i, vol)
  {
    var pass, t := s.running[v], EndPass(s, v, health);
    var again := v in s.rerun && !pass.cancel;
    if id in s.jobs && i < |s.jobs[id].volumes| {
      var job := s.jobs[id];
      assert JobOk(s, job) && job.volumes[i] in job.volumes;
      assert t.jobs[id] == EndJob(job, v, again, EndState(pass.cancel, health), pass.began);
      assert t.jobs[id].volumes[i] == job.volumes[i] ||
        t.jobs[id].volumes[i] == EndEntry(job.volumes[i], v, EndState(pass.cancel, health), pass.began);
    }
  }

  lemma RequeueSafe(s: Inner, v: VolumeId, margin: nat, id: nat, i: nat, vol: VolumeId)
    requires Inv(s) && v in s.requeueing
    ensures Safe(s, id, i, vol) ==> Safe(Do(s, Requeue(v, margin)), id, i, vol)
    ensures Dropped(s, id, i, vol) ==> Dropped(Do(s, Requeue(v, margin)), id, i, vol)
  {
    if id in s.jobs && i < |s.jobs[id].volumes| {
      assert RequeueVolume(s, v, margin).jobs[id].volumes[i] == RequeueEntry(s.jobs[id].volumes[i], v);
    }
  }

  lemma StepSafe(s: Inner, a: Step, id: nat, i: nat, vol: VolumeId)
    requires Inv(s) && Enabled(s, a) && a != Cancel(id)
    ensures Safe(s, id, i, vol) ==> Safe(Do(s, a), id, i, vol)
    ensures Dropped(s, id, i, vol) ==> Dropped(Do(s, a), id, i, vol)
  {
    match a
    case Start(es) => StartSafe(s, es, id, i, vol);
    case Cancel(other) => CancelSafe(s, other, id, i, vol);
    case Pump => PumpAllSafe(s, id, i, vol);
    case FinishPass(v, health) => FinishSafe(s, v, health, id, i, vol);
    case Requeue(v, margin) => RequeueSafe(s, v, margin, id, i, vol);
    case SetParallel(_) =>
  }

  lemma {:induction false} RunSafe(s: Inner, h: seq<Step>, id: nat, i: nat, vol: VolumeId)
    requires Inv(s) && Legal(s, h) && Cancel(id) !in h
    ensures Safe(s, id, i, vol) ==> Safe(Run(s, h), id, i, vol)
    ensures Dropped(s, id, i, vol) ==> Dropped(Run(s, h), id, i, vol)
  {
    if h != [] {
      var n := |h| - 1;
      RunSafe(s, h[..n], id, i, vol);
      RunKeeps(s, h[..n]);
      StepSafe(Run(s, h[..n]), h[n], id, i, vol);
    }
  }

  /** When a job was asked for never changes, and no later job takes its number. */
  lemma StepKeepsAsked(s: Inner, a: Step, id: nat)
    requires Enabled(s, a) && id <= s.nextId && id in Do(s, a).jobs
    ensures id <= Do(s, a).nextId && id in s.jobs && Do(s, a).jobs[id].asked == s.jobs[id].asked
  {
    match a
    case Start(es) => EnqueueAllJobs(s, es);
    case Cancel(other) =>
      if other in s.jobs {
        UnwantAllFrame(s, other, s.jobs[other].volumes);
      }
    case Pump => PumpKeepsAsked(s, id);
    case FinishPass(_, _) =>
    case Requeue(_, _) =>
    case SetParallel(_) =>
  }

  lemma {:induction false} PumpKeepsAsked(s: Inner, id: nat)
    ensures PumpAll(s).jobs.Keys == s.jobs.Keys && PumpAll(s).nextId == s.nextId
    ensures id in s.jobs ==> PumpAll(s).jobs[id].asked == s.jobs[id].asked
    decreases |s.queue|
  {
    if Room(s) {
      PumpKeepsAsked(Promote(s, First(s.queue)), id);
    }
  }

  lemma {:induction false} RunKeepsAsked(s: Inner, h: seq<Step>, id: nat)
    requires Legal(s, h) && id <= s.nextId
    ensures id <= Run(s, h).nextId
    ensures id in Run(s, h).jobs ==> id in s.jobs && Run(s, h).jobs[id].asked == s.jobs[id].asked
  {
    if h != [] {
      var m := Run(s, h[..|h| - 1]);
      RunKeepsAsked(s, h[..|h| - 1], id);
      if id in Run(s, h).jobs {
        StepKeepsAsked(m, h[|h| - 1], id);
      } else {
        StepKeepsNumbers(m, h[|h| - 1]);
      }
    }
  }

  lemma StepKeepsNumbers(s: Inner, a: Step)
    requires Enabled(s, a)
    ensures s.nextId <= Do(s, a).nextId
  {
    match a
    case Cancel(other) =>
      if other in s.jobs {
        UnwantAllFrame(s, other, s.jobs[other].volumes);
      }
    case Pump => PumpKeepsAsked(s, 0);
    case _ =>
  }

  /** Not every start gets a pass. Over every run, an entry of a job that nobody cancels ends
      Cancelled exactly when its volume's pass, at the start, had been told to stop; every other
      is ended by a pass that began after the start. */
  lemma AnEntryEndsCancelledIff(s: Inner, es: seq<(VolumeId, nat)>, h: seq<Step>, i: nat)
    requires Inv(s) && Enabled(s, Start(es)) && Clear(s, Start(es)) && i < |es|
    requires Legal(Do(s, Start(es)), h) && Cancel(s.nextId + 1) !in h
    requires s.nextId + 1 in Run(Do(s, Start(es)), h).jobs
    ensures
      var job := Run(Do(s, Start(es)), h).jobs[s.nextId + 1];
      && i < |job.volumes| && job.volumes[i].volume == es[i].0
      && var e := job.volumes[i];
         e.state.Finished() ==>
           && (e.state == Cancelled <==> Doomed(s, es[i].0))
           && (!Doomed(s, es[i].0) ==> e.covered.Some? && s.clock < e.covered.value)
  {
    var t, id := Do(s, Start(es)), s.nextId + 1;
    StartKeeps(s, es);
    NewEntryIs(s, es, i);
    RunSafe(t, h, id, i, es[i].0);
    RunKeeps(t, h);
    TheNewJobIs(s, es);
    RunKeepsAsked(t, h, id);
    assert JobOk(Run(t, h), Run(t, h).jobs[id]);
  }

  /** It does happen: a volume is asked for, its pass begins, the job is cancelled, and before the
      pass has stopped the volume is asked for again. */
  lemma AStartUnderACancelledPassIsCancelled(health: Option<Health>)
    ensures
      var s1 := Do(Idle, Start([(7, 0)]));
      var s2 := Do(Do(s1, Pump), Cancel(1));
      Inv(s2) && Doomed(s2, 7) &&
      var s3 := Do(s2, Start([(7, 0)]));
      7 in s3.running &&
      var s4 := Do(s3, FinishPass(7, health));
      2 in s4.jobs && s4.jobs[2].volumes == [Entry(7, Cancelled, 0, Some(1))]
  {
    var s1 := Do(Idle, Start([(7, 0)]));
    OneStarted();
    StartKeeps(Idle, [(7, 0)]);
    PumpKeeps(s1);
    var r := Do(s1, Pump);
    CancelKeeps(r, 1);
    var s2 := Do(r, Cancel(1));
    CancelledOne(r);
    StartOverDoomed(s2, health);
  }

  lemma OneAsked()
    ensures
      var s := Do(Idle, Start([(7, 0)]));
      && s.jobs.Keys == {1} && s.jobs[1].volumes == [Entry(7, Queued, 0, None)] && !s.jobs[1].state.Finished()
      && s.queue == {(0, 0, 7)} && s.running == map[] && s.nextId == 1 && s.parallel == 4 && s.clock == 1
  {
    EnqueueOne(Idle, 7, 0);
    var es := NewEntries(Idle, [(7, 0)]);
    assert es == [Entry(7, Queued, 0, None)] && es[0] in es;
    var s := Do(Idle, Start([(7, 0)]));
    assert 1 in s.jobs && s.jobs[1].volumes == es;
  }

  lemma OneStarted()
    ensures
      var r := Do(Do(Idle, Start([(7, 0)])), Pump);
      && r.jobs.Keys == {1} && r.jobs[1].volumes == [Entry(7, Running, 0, None)] && !r.jobs[1].state.Finished()
      && r.running == map[7 := Pass(false, 1)] && r.nextId == 1
  {
    OneAsked();
    OnePromoted(Do(Idle, Start([(7, 0)])));
  }

  lemma OnePromoted(s: Inner)
    requires s.jobs.Keys == {1} && s.jobs[1].volumes == [Entry(7, Queued, 0, None)] && !s.jobs[1].state.Finished()
    requires s.queue == {(0, 0, 7)} && s.running == map[] && s.parallel == 4 && s.clock == 1
    ensures
      var r := PumpAll(s);
      && r.jobs.Keys == {1} && r.jobs[1].volumes == [Entry(7, Running, 0, None)] && !r.jobs[1].state.Finished()
      && r.running == map[7 := Pass(false, 1)] && r.nextId == s.nextId
  {
    assert First(s.queue) == (0, 0, 7);
    var p := Promote(s, (0, 0, 7));
    assert PumpAll(s) == PumpAll(p) && PumpAll(p) == p;
    assert p.jobs[1] == PromoteJob(s.jobs[1], 7);
    assert p.jobs[1].volumes == [Entry(7, Running, 0, None)];
    assert p.jobs[1].volumes[0] in p.jobs[1].volumes;
  }

  lemma CancelledOne(r: Inner)
    requires r.jobs.Keys == {1} && r.jobs[1].volumes == [Entry(7, Running, 0, None)] && !r.jobs[1].state.Finished()
    requires r.running == map[7 := Pass(false, 1)] && r.nextId == 1
    ensures var s := Do(r, Cancel(1)); s.running == map[7 := Pass(true, 1)] && s.nextId == 1
  {
    var es := r.jobs[1].volumes;
    assert es[..0] == [] && !WantedElsewhere(r, 1, 7);
    assert UnwantAll(r, 1, es) == Unwant(r, 7);
  }

  lemma StartOverDoomed(s: Inner, health: Option<Health>)
    requires s.running == map[7 := Pass(true, 1)] && s.nextId == 1
    ensures
      var t := Do(s, Start([(7, 0)]));
      7 in t.running &&
      var u := Do(t, FinishPass(7, health));
      2 in u.jobs && u.jobs[2].volumes == [Entry(7, Cancelled, 0, Some(1))]
  {
    EnqueueOne(s, 7, 0);
    var t := Do(s, Start([(7, 0)]));
    var es := NewEntries(s, [(7, 0)]);
    assert es == [Entry(7, Running, 0, None)] && es[0] in es;
    assert 2 in t.jobs && t.jobs[2].volumes == es && !t.jobs[2].state.Finished();
    assert Do(t, FinishPass(7, health)).jobs[2] == EndJob(t.jobs[2], 7, false, Cancelled, 1);
  }

  // ---------------------------------------------------------------- what becomes of an entry

  /** This step ends the pass under an entry, told to stop or not, and the volume was not hit again. */
  ghost predicate PassEnds(s: Inner, a: Step, e: Entry, told: bool) {
    && a.FinishPass? && a.volume == e.volume && e.state == Running
    && a.volume in s.running && s.running[a.volume].cancel == told
    && (told || a.volume !in s.rerun)
  }

  /** What a step to `t` makes of an entry `e` of this job. */
  ghost predicate Became(s: Inner, a: Step, t: Inner, id: nat, e: Entry, f: Entry) {
    && f.volume == e.volume && f.margin == e.margin
    && (f.state == Done <==>
          e.state == Done || (PassEnds(s, a, e, false) && (a.health == None || a.health == Some(Healthy))))
    && (f.state == Partial <==> e.state == Partial || (PassEnds(s, a, e, false) && a.health == Some(Unhealthy)))
    && (f.state == Cancelled <==>
          e.state == Cancelled || PassEnds(s, a, e, true) || (a == Cancel(id) && e.state in {Queued, Running}))
    && (f.state == Queued <==>
          || (e.state == Queued && a != Cancel(id) && !(a.Pump? && e.volume in t.running))
          || (e.state == Running && a.Requeue? && a.volume == e.volume))
  }

  /** What one step of any run makes of one entry: it is done when a pass nobody told to stop ends
      with the volume healthy or gone, partial when it ends with it unhealthy, and cancelled with
      its job or when a pass told to stop ends. It runs from the pump that starts its volume and
      waits again from the requeue. */
  lemma HowAnEntryChanges(s: Inner, a: Step, id: nat, i: nat)
    requires Inv(s) && Enabled(s, a) && id in s.jobs && id in Do(s, a).jobs && i < |s.jobs[id].volumes|
    ensures |Do(s, a).jobs[id].volumes| == |s.jobs[id].volumes|
    ensures Became(s, a, Do(s, a), id, s.jobs[id].volumes[i], Do(s, a).jobs[id].volumes[i])
  {
    var e := s.jobs[id].volumes[i];
    assert JobOk(s, s.jobs[id]) && e in s.jobs[id].volumes;
    match a
    case Start(es) => EnqueueAllJobs(s, es);
    case Cancel(other) => CancelBecame(s, other, id, i);
    case Pump => PumpedEntry(s, id, i);
    case FinishPass(vol, health) => FinishBecame(s, vol, health, id, i);
    case Requeue(vol, margin) =>
      assert RequeueJob(s.jobs[id], vol).volumes[i] == RequeueEntry(e, vol);
    case SetParallel(_) =>
  }

  lemma CancelBecame(s: Inner, other: nat, id: nat, i: nat)
    requires Jobs(s) && id in s.jobs && i < |s.jobs[id].volumes|
    ensures id in CancelById(s, other).jobs && |CancelById(s, other).jobs[id].volumes| == |s.jobs[id].volumes|
    ensures var e, f := s.jobs[id].volumes[i], CancelById(s, other).jobs[id].volumes[i];
      f == if other == id && e.state in {Queued, Running} then e.(state := Cancelled) else e
  {
    assert JobOk(s, s.jobs[id]) && s.jobs[id].volumes[i] in s.jobs[id].volumes;
    if other in s.jobs {
      UnwantAllFrame(s, other, s.jobs[other].volumes);
    }
  }

  lemma FinishBecame(s: Inner, vol: VolumeId, health: Option<Health>, id: nat, i: nat)
    requires Jobs(s) && vol in s.running && id in s.jobs && i < |s.jobs[id].volumes|
    ensures
      var t := EndPass(s, vol, health);
      && id in t.jobs && |t.jobs[id].volumes| == |s.jobs[id].volumes|
      && Became(s, FinishPass(vol, health), t, id, s.jobs[id].volumes[i], t.jobs[id].volumes[i])
  {
    var pass := s.running[vol];
    var again := vol in s.rerun && !pass.cancel;
    assert JobOk(s, s.jobs[id]) && s.jobs[id].volumes[i] in s.jobs[id].volumes;
    EndedIs(s.jobs[id], vol, again, EndState(pass.cancel, health), pass.began, i);
    assert health == None || health == Some(Healthy) || health == Some(Unhealthy) by {
      assert health.Some? ==> health.value.Healthy? || health.value.Unhealthy?;
    }
  }

  lemma EndedIs(job: Job, vol: VolumeId, again: bool, end: RebuildState, began: nat, i: nat)
    requires i < |job.volumes|
    ensures EndJob(job, vol, again, end, began).volumes[i] ==
      if job.state.Finished() || again then job.volumes[i] else EndEntry(job.volumes[i], vol, end, began)
  {
  }

  /** A pump starts, with a pass begun now and not told to stop, what it takes off the queue. */
  lemma {:induction false} PumpStarts(s: Inner)
    requires QueueOk(s) && Jobs(s) && Passes(s)
    ensures
      var t := PumpAll(s);
      && (forall v <- s.running :: v in t.running && t.running[v] == s.running[v])
      && (forall v <- t.running :: v in s.running || (v in s.queued && t.running[v] == Pass(false, s.clock)))
      && (forall v <- s.queued :: v in t.queued <==> v !in t.running)
      && (forall v <- t.queued :: v in s.queued && t.queued[v] == s.queued[v])
    decreases |s.queue|
  {
    if Room(s) {
      var k := First(s.queue);
      PromoteKeeps(s, k);
      PumpStarts(Promote(s, k));
    }
  }

  lemma {:induction false} PumpedEntry(s: Inner, id: nat, i: nat)
    requires QueueOk(s) && Jobs(s) && Passes(s) && id in s.jobs && i < |s.jobs[id].volumes|
    ensures id in PumpAll(s).jobs && |PumpAll(s).jobs[id].volumes| == |s.jobs[id].volumes|
    ensures
      var e, t := s.jobs[id].volumes[i], PumpAll(s);
      t.jobs[id].volumes[i] == if e.state == Queued && e.volume in t.running then e.(state := Running) else e
    decreases |s.queue|
  {
    var e := s.jobs[id].volumes[i];
    assert Held(s, e, s.jobs[id].asked);
    if Room(s) {
      var k := First(s.queue);
      var t := Promote(s, k);
      PromoteKeeps(s, k);
      PromotedIs(s.jobs[id], k.2, i);
      PumpStarts(t);
      assert e in s.jobs[id].volumes;
      PumpedEntry(t, id, i);
    }
  }

  lemma PromotedIs(job: Job, vol: VolumeId, i: nat)
    requires i < |job.volumes|
    ensures PromoteJob(job, vol).volumes[i] ==
      if job.state.Finished() then job.volumes[i] else PromoteEntry(job.volumes[i], vol)
  {
  }

  // ---- what a job's own state says of its entries

  ghost predicate Says(job: Job) {
    match job.state
    case Done => forall e <- job.volumes :: e.state == Done
    case Partial =>
      (exists e <- job.volumes :: e.state == Partial) && forall e <- job.volumes :: e.state in {Done, Partial}
    case Cancelled =>
      && (exists e <- job.volumes :: e.state == Cancelled)
      && forall e <- job.volumes :: e.state in {Done, Partial, Cancelled}
    case Running => exists e <- job.volumes :: e.state in {Queued, Running}
    case Queued =>
      (exists e <- job.volumes :: e.state == Queued) && forall e <- job.volumes :: e.state != Running
  }

  ghost predicate AllSay(s: Inner) {
    forall id <- s.jobs :: Says(s.jobs[id])
  }

  lemma SettledSays(job: Job)
    requires job.state.Finished() ==> Says(job)
    ensures Says(Settle(job))
  {
    if !job.state.Finished() && !AllFinished(job.volumes) {
      var e :| e in job.volumes && !e.state.Finished();
      assert e.state in {Queued, Running};
    }
  }

  lemma RequeuedSays(job: Job, vol: VolumeId)
    requires Says(job)
    ensures Says(RequeueJob(job, vol))
  {
    var r := RequeueJob(job, vol);
    assert forall i :: 0 <= i < |r.volumes| ==> r.volumes[i] == RequeueEntry(job.volumes[i], vol);
    if job.state.Finished() || job.state == Queued {
      forall i | 0 <= i < |r.volumes|
        ensures r.volumes[i] == job.volumes[i]
      {
        assert job.volumes[i] in job.volumes;
      }
      assert r.volumes == job.volumes;
    } else {
      var i :| 0 <= i < |job.volumes| && job.volumes[i].state in {Queued, Running};
      assert r.volumes[i] in r.volumes;
    }
  }

  lemma PromotedSays(job: Job, vol: VolumeId)
    requires Says(job)
    ensures Says(PromoteJob(job, vol))
  {
    if !job.state.Finished() {
      SettledSays(job.(volumes := PromoteEntries(job.volumes, vol)));
    }
  }

  lemma EndedSays(job: Job, vol: VolumeId, again: bool, end: RebuildState, began: nat)
    requires Says(job)
    ensures Says(EndJob(job, vol, again, end, began))
  {
    if !job.state.Finished() {
      SettledSays(if again then job else job.(volumes :=
        seq(|job.volumes|, i requires 0 <= i < |job.volumes| => EndEntry(job.volumes[i], vol, end, began))));
    }
  }

  lemma {:induction false} PumpAllSays(s: Inner)
    requires AllSay(s)
    ensures AllSay(PumpAll(s))
    decreases |s.queue|
  {
    if Room(s) {
      var t := Promote(s, First(s.queue));
      forall id <- t.jobs
        ensures Says(t.jobs[id])
      {
        PromotedSays(s.jobs[id], First(s.queue).2);
      }
      PumpAllSays(t);
    }
  }

  lemma StepSays(s: Inner, a: Step)
    requires AllSay(s) && Enabled(s, a)
    ensures AllSay(Do(s, a))
  {
    forall id <- Do(s, a).jobs
      ensures Says(Do(s, a).jobs[id])
    {
      match a
      case Start(es) =>
        EnqueueAllJobs(s, es);
        SettledSays(Job(Queued, NewEntries(s, es), s.clock));
      case Cancel(other) =>
        if other in s.jobs {
          UnwantAllFrame(s, other, s.jobs[other].volumes);
          if !s.jobs[other].state.Finished() {
            SettledSays(s.jobs[other].(volumes := CancelEntries(s.jobs[other].volumes)));
          }
        }
      case Pump => PumpAllSays(s);
      case FinishPass(vol, health) =>
        var again := vol in s.rerun && !s.running[vol].cancel;
        EndedSays(s.jobs[id], vol, again, EndState(s.running[vol].cancel, health), s.running[vol].began);
      case Requeue(vol, _) => RequeuedSays(s.jobs[id], vol);
      case SetParallel(_) =>
    }
  }

  /** Over every run a job is done only with all its entries, partial only with one that is and
      none cancelled, cancelled only with one that is, and in no other state once all have ended. */
  lemma {:induction false} JobStatesSay(s: Inner, h: seq<Step>)
    requires Legal(s, h) && AllSay(s)
    ensures AllSay(Run(s, h))
  {
    if h != [] {
      JobStatesSay(s, h[..|h| - 1]);
      StepSays(Run(s, h[..|h| - 1]), h[|h| - 1]);
    }
  }

  // ---- what a cancel takes

  /** A volume waits to be rebuilt, or is being, for this job. */
  ghost predicate Unfinished(job: Job, v: VolumeId) {
    exists e <- job.volumes :: e.volume == v && e.state in {Queued, Running}
  }

  ghost predicate NoOtherWaits(s: Inner, id: nat, v: VolumeId) {
    forall j <- s.jobs :: j != id && s.jobs[j].state in {Queued, Running} ==> !Unfinished(s.jobs[j], v)
  }

  lemma WantsIs(job: Job, v: VolumeId)
    ensures Wants(job, v) <==> job.state in {Queued, Running} && Unfinished(job, v)
  {
    if Unfinished(job, v) {
      var e :| e in job.volumes && e.volume == v && e.state in {Queued, Running};
      assert !e.state.Finished();
    }
    if Wants(job, v) {
      var e :| e in job.volumes && e.volume == v && !e.state.Finished();
      assert e.state in {Queued, Running};
    }
  }

  /** What is so of a volume once it was dropped, or not. */
  ghost predicate DroppedIf(s: Inner, t: Inner, v: VolumeId, dropped: bool) {
    && (v in t.queued <==> v in s.queued && !dropped) && (v in t.queued ==> t.queued[v] == s.queued[v])
    && (v in t.rerun <==> v in s.rerun && !dropped)
    && (v in t.running <==> v in s.running)
    && (v in s.running ==> t.running[v] == s.running[v].(cancel := s.running[v].cancel || dropped))
    && forall k: Key | k.2 == v :: k in t.queue <==> k in s.queue && !dropped
  }

  lemma DropOne(s: Inner, m: Inner, v: VolumeId, w: VolumeId, dropped: bool)
    requires QueueOk(s) && QueueOk(m) && DroppedIf(s, m, v, dropped)
    ensures DroppedIf(s, Unwant(m, w), v, dropped || v == w)
  {
  }

  lemma {:induction false} UnwantAllDrops(s: Inner, id: nat, es: seq<Entry>, v: VolumeId)
    requires QueueOk(s)
    ensures DroppedIf(s, UnwantAll(s, id, es), v,
      !WantedElsewhere(s, id, v) && exists e <- es :: e.volume == v && e.state in {Queued, Running})
  {
    if es != [] {
      var n := |es| - 1;
      var rest, e := es[..n], es[n];
      UnwantAllDrops(s, id, rest, v);
      UnwantAllSpares(s, id, rest);
      var before := !WantedElsewhere(s, id, v) && exists x <- rest :: x.volume == v && x.state in {Queued, Running};
      var now := !WantedElsewhere(s, id, v) && exists x <- es :: x.volume == v && x.state in {Queued, Running};
      assert forall x :: x in es <==> x in rest || x == e;
      var drops := !e.state.Finished() && !WantedElsewhere(s, id, e.volume);
      assert now == (before || (drops && v == e.volume));
      if drops {
        DropOne(s, UnwantAll(s, id, rest), v, e.volume, before);
      }
    }
  }

  /** A cancel of a job that has not ended takes each volume that it alone still waits for: out of
      the queue, not run again, and its pass told to stop. Every other volume stays as it was. */
  lemma WhatACancelTakes(s: Inner, id: nat, v: VolumeId)
    requires Inv(s) && id in s.jobs && s.jobs[id].state in {Queued, Running}
    ensures DroppedIf(s, Do(s, Cancel(id)), v, Unfinished(s.jobs[id], v) && NoOtherWaits(s, id, v))
  {
    UnwantAllDrops(s, id, s.jobs[id].volumes, v);
    WantedElsewhereIs(s, id, v);
    assert Do(s, Cancel(id)) == UnwantAll(s, id, s.jobs[id].volumes).(
      jobs := Do(s, Cancel(id)).jobs, clock := s.clock + 1) by {
      UnwantAllFrame(s, id, s.jobs[id].volumes);
    }
  }

  lemma WantedElsewhereIs(s: Inner, id: nat, v: VolumeId)
    ensures !WantedElsewhere(s, id, v) <==> NoOtherWaits(s, id, v)
  {
    forall j <- s.jobs
      ensures Wants(s.jobs[j], v) <==> s.jobs[j].state in {Queued, Running} && Unfinished(s.jobs[j], v)
    {
      WantsIs(s.jobs[j], v);
    }
  }

  // ---- which finished jobs are remembered

  ghost function NewerFinished(jobs: map<nat, Job>, id: nat): set<nat> {
    set x | x in jobs && x > id && jobs[x].state in {Done, Partial, Cancelled}
  }

  /** A job is forgotten exactly when it has ended and 64 newer ones have. */
  lemma {:induction false} ForgottenIff(jobs: map<nat, Job>, id: nat)
    requires id in jobs
    ensures id !in Trim(jobs) <==> jobs[id].state in {Done, Partial, Cancelled} && |NewerFinished(jobs, id)| >= 64
    decreases |jobs|
  {
    var f := FinishedIds(jobs);
    if |f| <= 64 {
      if jobs[id].state.Finished() {
        SubsetSize(NewerFinished(jobs, id), f - {id});
      }
    } else {
      var m := Least(f);
      assert |f - {m}| >= 64;
      if id == m {
        assert NewerFinished(jobs, m) == f - {m};
      } else if jobs[id].state.Finished() {
        assert id in f && m <= id;
        assert NewerFinished(jobs - {m}, id) == NewerFinished(jobs, id);
        ForgottenIff(jobs - {m}, id);
      }
    }
  }

  /** A start remembers its job, with an entry for each volume named, in order: running where the
      volume is being rebuilt, else waiting. */
  lemma TheNewJobIs(s: Inner, es: seq<(VolumeId, nat)>)
    requires Inv(s) && Enabled(s, Start(es))
    ensures
      var t, id := Do(s, Start(es)), s.nextId + 1;
      && t.nextId == id && id in t.jobs && t.jobs[id].asked == s.clock && |t.jobs[id].volumes| == |es|
      && forall i :: 0 <= i < |es| ==>
           t.jobs[id].volumes[i] == Entry(es[i].0, if es[i].0 in s.running then Running else Queued, es[i].1, None)
  {
    EnqueueAllJobs(s, es);
    var id := s.nextId + 1;
    var jobs := s.jobs[id := Settle(Job(Queued, NewEntries(s, es), s.clock))];
    ForgottenIff(jobs, id);
    assert NewerFinished(jobs, id) == {};
  }

  // ---------------------------------------------------------------- the queue itself

  /** The volumes of a start that have copies to rebuild from, each once, in the order named. */
  ghost function Entries(volumes: seq<VolumeId>, margin: VolumeId -> Option<nat>): seq<(VolumeId, nat)> {
    if volumes == [] then [] else
    var n := |volumes| - 1;
    Entries(volumes[..n], margin) +
      if volumes[n] in volumes[..n] || margin(volumes[n]).None? then []
      else [(volumes[n], margin(volumes[n]).value)]
  }

  lemma {:induction false} EntriesOnce(volumes: seq<VolumeId>, margin: VolumeId -> Option<nat>)
    ensures var es := Entries(volumes, margin);
      && (forall i, j :: 0 <= i < j < |es| ==> es[i].0 != es[j].0)
      && (forall i :: 0 <= i < |es| ==> es[i].0 in volumes && margin(es[i].0) == Some(es[i].1))
      && (forall v <- volumes :: margin(v).Some? ==> (v, margin(v).value) in es)
  {
    if volumes != [] {
      EntriesOnce(volumes[..|volumes| - 1], margin);
    }
  }

  lemma FirstIsOne(q: set<Key>, a: Key, b: Key)
    requires IsFirst(q, a) && IsFirst(q, b)
    ensures a == b
  {
  }

  method LeastKey(q: set<Key>) returns (k: Key)
    requires q != {}
    ensures k == First(q)
  {
    k :| k in q;
    var rest := q - {k};
    while rest != {}
      invariant k in q && rest <= q
      invariant forall x <- q :: x in rest || x == k || Less(k, x)
      decreases |rest|
    {
      var x :| x in rest;
      if Less(x, k) {
        k := x;
      }
      rest := rest - {x};
    }
    FirstIsOne(q, k, First(q));
  }

  // The loop over every job in each critical section.

  method PromoteEach(jobs: map<nat, Job>, vol: VolumeId) returns (r: map<nat, Job>)
    ensures r == PromoteJobs(jobs, vol)
  {
    r := jobs;
    var ids := jobs.Keys;
    while ids != {}
      invariant ids <= jobs.Keys == r.Keys
      invariant forall id <- jobs :: r[id] == if id in ids then jobs[id] else PromoteJob(jobs[id], vol)
      decreases |ids|
    {
      var id :| id in ids;
      r := r[id := PromoteJob(jobs[id], vol)];
      ids := ids - {id};
    }
  }

  method RequeueEach(jobs: map<nat, Job>, vol: VolumeId) returns (r: map<nat, Job>)
    ensures r == RequeueJobs(jobs, vol)
  {
    r := jobs;
    var ids := jobs.Keys;
    while ids != {}
      invariant ids <= jobs.Keys == r.Keys
      invariant forall id <- jobs :: r[id] == if id in ids then jobs[id] else RequeueJob(jobs[id], vol)
      decreases |ids|
    {
      var id :| id in ids;
      r := r[id := RequeueJob(jobs[id], vol)];
      ids := ids - {id};
    }
  }

  method EndEach(jobs: map<nat, Job>, vol: VolumeId, again: bool, end: RebuildState, began: nat)
        returns (r: map<nat, Job>)
    ensures r == EndJobs(jobs, vol, again, end, began)
  {
    r := jobs;
    var ids := jobs.Keys;
    while ids != {}
      invariant ids <= jobs.Keys == r.Keys
      invariant forall id <- jobs :: r[id] == if id in ids then jobs[id] else EndJob(jobs[id], vol, again, end, began)
      decreases |ids|
    {
      var id :| id in ids;
      r := r[id := EndJob(jobs[id], vol, again, end, began)];
      ids := ids - {id};
    }
  }

  method Named(volumes: seq<VolumeId>, margin: VolumeId -> Option<nat>) returns (es: seq<(VolumeId, nat)>)
    ensures es == Entries(volumes, margin)
  {
    es := [];
    for i := 0 to |volumes|
      invariant es == Entries(volumes[..i], margin)
    {
      assert volumes[..i + 1][..i] == volumes[..i];
      if volumes[i] !in volumes[..i] && margin(volumes[i]).Some? {
        es := es + [(volumes[i], margin(volumes[i]).value)];
      }
    }
    assert volumes[..|volumes|] == volumes;
  }

  /** What a start does once its volumes are queued. */
  lemma StartIs(s: Inner, es: seq<(VolumeId, nat)>)
    ensures
      var t := EnqueueAll(s, es);
      StartJob(s, es) == t.(nextId := t.nextId + 1,
        jobs := Trim(t.jobs[t.nextId + 1 := Settle(Job(Queued, NewEntries(s, es), t.clock))]), pumps := t.pumps + 1)
  {
    EnqueueAllJobs(s, es);
  }

  class Rebuilds {
    var nextId: nat
    var arrivals: nat
    var jobs: map<nat, Job>
    var queue: set<Key>
    var queued: map<VolumeId, (nat, nat)>
    var running: map<VolumeId, Pass>
    var rerun: set<VolumeId>
    var parallel: nat
    var clock: nat
    ghost var requeueing: set<VolumeId>
    ghost var pumps: nat
    ghost var begun: set<(VolumeId, nat)>

    ghost function Abs(): Inner
      reads this
    {
      Inner(nextId, arrivals, jobs, queue, queued, running, rerun, parallel, requeueing, pumps, clock, begun)
    }

    constructor (parallel: nat)
      ensures Abs() == Idle.(parallel := if parallel < 1 then 1 else parallel)
    {
      nextId, arrivals, jobs, queue, queued, running, rerun := 0, 0, map[], {}, map[], map[], {};
      this.parallel := if parallel < 1 then 1 else parallel;
      clock, requeueing, pumps, begun := 0, {}, 0, {};
    }

    /** `start`, up to its pump. */
    method Start(volumes: seq<VolumeId>, margin: VolumeId -> Option<nat>) returns (id: nat)
      modifies this
      ensures Abs() == StartJob(old(Abs()), Entries(volumes, margin)).(clock := old(clock) + 1)
      ensures id == old(nextId) + 1
    {
      var es := Named(volumes, margin);
      id := Enlist(es);
      clock := clock + 1;
    }

    /** The volumes queued, and the job that asked for them. */
    method Enlist(es: seq<(VolumeId, nat)>) returns (id: nat)
      modifies this
      ensures Abs() == StartJob(old(Abs()), es) && id == old(nextId) + 1 && clock == old(clock)
    {
      ghost var s := Abs();
      StartIs(s, es);
      var entries := TakeAll(es);
      id := AddJob(entries);
      assert Abs() == StartJob(s, es);
    }

    method AddJob(entries: seq<Entry>) returns (id: nat)
      modifies this`nextId, this`jobs, this`pumps
      ensures id == nextId == old(nextId) + 1 && pumps == old(pumps) + 1
      ensures jobs == Trim(old(jobs)[id := Settle(Job(Queued, entries, clock))])
    {
      nextId := nextId + 1;
      id := nextId;
      jobs := jobs[id := Settle(Job(Queued, entries, clock))];
      TrimHistory();
      pumps := pumps + 1;
    }

    method TakeAll(es: seq<(VolumeId, nat)>) returns (entries: seq<Entry>)
      modifies this`arrivals, this`queue, this`queued, this`rerun
      ensures Abs() == EnqueueAll(old(Abs()), es)
      ensures entries == NewEntries(old(Abs()), es)
    {
      ghost var s := Abs();
      entries := [];
      for i := 0 to |es|
        invariant Abs() == EnqueueAll(s, es[..i])
        invariant |entries| == i && forall j :: 0 <= j < i ==> entries[j] == NewEntry(s, es[j].0, es[j].1)
      {
        assert es[..i + 1][..i] == es[..i];
        var (vol, m) := es[i];
        var state := Take(vol, m);
        entries := entries + [Entry(vol, state, m, None)];
      }
      assert es[..|es|] == es;
      assert entries == NewEntries(s, es);
    }

    /** Queue one volume, or mark it for another pass. */
    method Take(vol: VolumeId, margin: nat) returns (state: RebuildState)
      modifies this`arrivals, this`queue, this`queued, this`rerun
      ensures Abs() == Enqueue(old(Abs()), vol, margin)
      ensures state == NewEntry(old(Abs()), vol, margin).state
    {
      if vol in running {
        rerun := rerun + {vol};
        return Running;
      }
      var arrival := arrivals;
      arrivals := arrivals + 1;
      if vol !in queued || queued[vol].0 > margin {
        if vol in queued {
          queue := queue - {(queued[vol].0, queued[vol].1, vol)};
        }
        queue := queue + {(margin, arrival, vol)};
        queued := queued[vol := (margin, arrival)];
      }
      state := Queued;
    }

    method TrimHistory()
      modifies this`jobs
      ensures jobs == Trim(old(jobs))
    {
      var finished := set id | id in jobs && jobs[id].state.Finished();
      while |finished| > HISTORY
        invariant finished == FinishedIds(jobs)
        invariant Trim(jobs) == Trim(old(jobs))
        decreases |jobs|
      {
        var oldest := FindLeast(finished);
        jobs := jobs - {oldest};
        finished := finished - {oldest};
      }
    }

    method Cancel(id: nat) returns (known: bool)
      modifies this
      ensures known == (id in old(jobs))
      ensures Abs() == CancelById(old(Abs()), id).(clock := old(clock) + 1)
    {
      if id !in jobs || jobs[id].state.Finished() {
        known := id in jobs;
        clock := clock + 1;
        return;
      }
      ghost var s := old(Abs());
      var es := jobs[id].volumes;
      var marked: seq<Entry> := [];
      for i := 0 to |es|
        invariant Abs() == UnwantAll(s, id, es[..i])
        invariant |marked| == i && forall j :: 0 <= j < i ==> marked[j] == CancelEntry(es[j])
        invariant jobs == s.jobs
      {
        assert es[..i + 1][..i] == es[..i];
        var e := es[i];
        if !e.state.Finished() {
          var wanted := exists j <- jobs :: j != id && Wants(jobs[j], e.volume);
          assert wanted == WantedElsewhere(s, id, e.volume);
          if !wanted {
            Drop(e.volume);
          }
          e := e.(state := Cancelled);
        }
        marked := marked + [e];
      }
      assert es[..|es|] == es;
      assert marked == CancelEntries(es);
      UnwantAllFrame(s, id, es);
      jobs := jobs[id := Settle(jobs[id].(volumes := marked))];
      assert jobs == s.jobs[id := CancelJob(s.jobs[id])];
      assert Abs() == CancelById(s, id);
      clock := clock + 1;
      known := true;
    }

    /** Out of the queue, told to stop, and not run again. */
    method Drop(vol: VolumeId)
      modifies this`queue, this`queued, this`running, this`rerun
      ensures Abs() == Unwant(old(Abs()), vol)
    {
      if vol in queued {
        queue := queue - {(queued[vol].0, queued[vol].1, vol)};
      }
      queued := queued - {vol};
      if vol in running {
        running := running[vol := running[vol].(cancel := true)];
      }
      rerun := rerun - {vol};
    }

    method PumpQueue()
      modifies this
      ensures Abs() == PumpAll(old(Abs())).(pumps := Less1(old(pumps)), clock := old(clock) + 1)
    {
      ghost var s := Abs();
      while |running| < parallel && queue != {}
        invariant PumpAll(Abs()) == PumpAll(s)
        invariant pumps == s.pumps && clock == s.clock
        decreases |queue|
      {
        ghost var before := Abs();
        assert Room(before);
        PromoteFirst();
        assert PumpAll(before) == PumpAll(Abs());
      }
      assert !Room(Abs()) && PumpAll(Abs()) == Abs();
      PumpKeepsCounts(s);
      pumps := Less1(pumps);
      clock := clock + 1;
    }

    method PromoteFirst()
      requires queue != {}
      modifies this
      ensures Abs() == Promote(old(Abs()), First(old(queue)))
      ensures |queue| == |old(queue)| - 1
    {
      var first := LeastKey(queue);
      var vol := first.2;
      queue := queue - {first};
      queued := queued - {vol};
      running := running[vol := Pass(false, clock)];
      jobs := PromoteEach(jobs, vol);
      begun := begun + {(vol, clock)};
    }

    /** `run_one`'s first critical section, with what the pass left the volume's health at. */
    method FinishPass(vol: VolumeId, health: Option<Health>) returns (again: bool)
      requires vol in running
      modifies this
      ensures Abs() == EndPass(old(Abs()), vol, health).(clock := old(clock) + 1)
      ensures again == (vol in old(rerun) && !old(running)[vol].cancel)
    {
      var pass := running[vol];
      running := running - {vol};
      again := vol in rerun && !pass.cancel;
      rerun := rerun - {vol};
      var end := if pass.cancel then Cancelled
        else if health == None || health == Some(Healthy) then Done
        else Partial;
      assert end == EndState(pass.cancel, health);
      jobs := EndEach(jobs, vol, again, end, pass.began);
      if again {
        requeueing := requeueing + {vol};
      } else {
        pumps := pumps + 1;
      }
      clock := clock + 1;
    }

    /** `run_one`'s second critical section, for a volume hit again while it was rebuilding. */
    method RequeueHit(vol: VolumeId, margin: nat)
      requires vol in requeueing
      modifies this
      ensures queued == old(queued)[vol := (margin, old(arrivals))] &&
        queue == old(queue) + {(margin, old(arrivals), vol)}
      ensures Abs() == RequeueVolume(old(Abs()), vol, margin).(clock := old(clock) + 1)
    {
      var arrival := arrivals;
      arrivals := arrivals + 1;
      queue := queue + {(margin, arrival, vol)};
      queued := queued[vol := (margin, arrival)];
      jobs := RequeueEach(jobs, vol);
      requeueing := requeueing - {vol};
      pumps := pumps + 1;
      clock := clock + 1;
    }

    method SetLimit(n: nat)
      modifies this
      ensures Abs() == old(Abs()).(parallel := if n < 1 then 1 else n, pumps := old(pumps) + 1, clock := old(clock) + 1)
    {
      parallel := if n < 1 then 1 else n;
      pumps := pumps + 1;
      clock := clock + 1;
    }
  }

  lemma {:induction false} PumpKeepsCounts(s: Inner)
    ensures PumpAll(s).pumps == s.pumps && PumpAll(s).clock == s.clock
    decreases |s.queue|
  {
    if Room(s) {
      PumpKeepsCounts(Promote(s, First(s.queue)));
    }
  }
}
