/** The dirty-family worker: families marked dirty are scanned for patterns, and no mark is lost
    (internal/evolutionjob/processor.go, internal/evolutionjob/memory.go). */
module EvolutionWorker {
  import opened Wrappers

  datatype Group = Group(tenant: string, kind: string, scope: string, scopeKey: string)

  datatype JobStatus = Pending | Processing | Applied | Failed

  datatype Job = Job(status: JobStatus, updatedAt: nat, created: nat)

  predicate InProgress(jobs: map<Group, Job>, g: Group) { g in jobs && jobs[g].status.Processing? }

  /** The last scan of this family began after its last mark. */
  predicate ScannedSince(marks: map<Group, nat>, scans: map<Group, nat>, g: Group) {
    g in marks ==> g in scans && scans[g] > marks[g]
  }

  predicate Rested(dirty: map<Group, nat>, marks: map<Group, nat>, scans: map<Group, nat>, g: Group) {
    g in dirty || ScannedSince(marks, scans, g)
  }

  /** Every marked family is still dirty, or its job is PROCESSING, or it was scanned since. */
  ghost predicate NoLostWakeUp(dirty: map<Group, nat>, jobs: map<Group, Job>, marks: map<Group, nat>, scans: map<Group, nat>) {
    forall g | g in marks :: InProgress(jobs, g) || Rested(dirty, marks, scans, g)
  }

  /** When a job stops being PROCESSING, no wake-up is lost exactly if its family is dirty or was
      scanned since its last mark. */
  lemma LeavingKeepsIff(dirty: map<Group, nat>, jobs: map<Group, Job>, marks: map<Group, nat>, scans: map<Group, nat>, g: Group, job: Job)
    requires NoLostWakeUp(dirty, jobs, marks, scans) && !job.status.Processing?
    ensures NoLostWakeUp(dirty, jobs[g := job], marks, scans) <==> Rested(dirty, marks, scans, g)
  {
    if Rested(dirty, marks, scans, g) {
      forall h | h in marks ensures InProgress(jobs[g := job], h) || Rested(dirty, marks, scans, h) {
        assert InProgress(jobs, h) || Rested(dirty, marks, scans, h);
      }
    } else {
      assert g in marks && !InProgress(jobs[g := job], g);
    }
  }

  /** How far the last run over a family came: its job is PROCESSING, its dirty flag is cleared, or its
      scan has begun. `seen` tells whether an earlier scan had begun after the mark that was cleared. */
  datatype Stage = Claimed | Cleared(seen: bool) | Scanning

  /** What a stopped run left behind. */
  predicate StageFact(dirty: map<Group, nat>, marks: map<Group, nat>, scans: map<Group, nat>, g: Group, stage: Stage) {
    match stage
    case Cleared(seen) => g in dirty || (seen <==> ScannedSince(marks, scans, g))
    case _ => Rested(dirty, marks, scans, g)
  }

  /** Every job in PROCESSING is where its last run left it. */
  ghost predicate StagesKnown(dirty: map<Group, nat>, jobs: map<Group, Job>, marks: map<Group, nat>, scans: map<Group, nat>,
                              runs: map<Group, Stage>) {
    forall g | InProgress(jobs, g) :: g in runs && StageFact(dirty, marks, scans, g, runs[g])
  }

  // ---------------------------------------------------------------- the store

  datatype Entry = Entry(group: Group, updatedAt: nat)

  ghost predicate Sorted(s: seq<Entry>) {
    forall i, j | 0 <= i < j < |s| :: s[i].updatedAt <= s[j].updatedAt
  }

  /** The first i entries are in place. */
  ghost predicate PrefixSorted(s: seq<Entry>, i: nat) {
    forall x, y | 0 <= x < i && x < y < |s| :: s[x].updatedAt <= s[y].updatedAt
  }

  /** The entries of a map, each once. */
  ghost predicate Entries(s: seq<Entry>, dirty: map<Group, nat>) {
    && (forall i | 0 <= i < |s| :: s[i].group in dirty && dirty[s[i].group] == s[i].updatedAt)
    && (forall i, j | 0 <= i < j < |s| :: s[i].group != s[j].group)
    && (forall g | g in dirty :: Entry(g, dirty[g]) in s)
  }

  lemma SwapKeepsEntries(s: seq<Entry>, dirty: map<Group, nat>, i: nat, j: nat)
    requires Entries(s, dirty) && i < j < |s|
    ensures Entries(s[i := s[j]][j := s[i]], dirty)
  {
    var s' := s[i := s[j]][j := s[i]];
    forall g | g in dirty ensures Entry(g, dirty[g]) in s' {
      var k :| 0 <= k < |s| && s[k] == Entry(g, dirty[g]);
      assert s'[if k == i then j else if k == j then i else k] == s[k];
    }
  }

  lemma EntryCount(s: seq<Entry>, dirty: map<Group, nat>)
    requires Entries(s, dirty)
    ensures |s| == |dirty|
  {
    CountsKeys(s, dirty.Keys);
    assert |dirty| == |dirty.Keys|;
  }

  lemma {:induction false} CountsKeys(s: seq<Entry>, keys: set<Group>)
    requires forall i | 0 <= i < |s| :: s[i].group in keys
    requires forall i, j | 0 <= i < j < |s| :: s[i].group != s[j].group
    requires forall g | g in keys :: exists i :: 0 <= i < |s| && s[i].group == g
    ensures |s| == |keys|
  {
    if s != [] {
      var g := s[0].group;
      forall h | h in keys - {g} ensures exists i :: 0 <= i < |s[1..]| && s[1..][i].group == h {
        var i :| 0 <= i < |s| && s[i].group == h;
        assert s[1..][i - 1] == s[i];
      }
      CountsKeys(s[1..], keys - {g});
    }
  }

  /** The oldest dirty families, oldest first. */
  ghost predicate Oldest(out: seq<Group>, dirty: map<Group, nat>, limit: int) {
    && (forall i | 0 <= i < |out| :: out[i] in dirty)
    && (forall i, j | 0 <= i < j < |out| :: out[i] != out[j] && dirty[out[i]] <= dirty[out[j]])
    && (forall g, i | g in dirty && g !in out && 0 <= i < |out| :: dirty[out[i]] <= dirty[g])
    && |out| == if 0 < limit < |dirty| then limit else |dirty|
  }

  lemma TakesOldest(s: seq<Entry>, dirty: map<Group, nat>, limit: int, out: seq<Group>)
    requires Entries(s, dirty) && Sorted(s)
    requires |out| == (if 0 < limit < |s| then limit else |s|) && forall i | 0 <= i < |out| :: out[i] == s[i].group
    ensures Oldest(out, dirty, limit)
    ensures |out| == |s| ==> forall g | g in dirty :: g in out
  {
    EntryCount(s, dirty);
    forall k | 0 <= k < |out| ensures s[k].group in out {
      assert out[k] in out;
    }
    forall g, i | g in dirty && g !in out && 0 <= i < |out| ensures dirty[out[i]] <= dirty[g] {
      var k :| 0 <= k < |s| && s[k] == Entry(g, dirty[g]);
    }
    forall g | |out| == |s| && g in dirty ensures g in out {
      var k :| 0 <= k < |s| && s[k] == Entry(g, dirty[g]);
      assert out[k] == g;
    }
  }

  method SortByAge(a: array<Entry>, ghost dirty: map<Group, nat>)
    requires Entries(a[..], dirty)
    modifies a
    ensures Entries(a[..], dirty) && Sorted(a[..])
  {
    hide Entries;
    for i := 0 to a.Length
      invariant Entries(a[..], dirty) && PrefixSorted(a[..], i)
    {
      for j := i + 1 to a.Length
        invariant Entries(a[..], dirty) && PrefixSorted(a[..], i)
        invariant forall y | i < y < j :: a[i].updatedAt <= a[y].updatedAt
      {
        if a[j].updatedAt < a[i].updatedAt {
          ghost var was := a[..];
          SwapKeepsEntries(was, dirty, i, j);
          a[i], a[j] := a[j], a[i];
          assert a[..] == was[i := was[j]][j := was[i]];
        }
      }
    }
  }

  class MemoryJobRepository {
    var dirty: map<Group, nat>
    var jobs: map<Group, Job>

    constructor ()
      ensures dirty == map[] && jobs == map[]
    {
      dirty, jobs := map[], map[];
    }

    method MarkDirty(g: Group, now: nat) returns (ok: bool)
      modifies this`dirty
      ensures ok <==> g.tenant != ""
      ensures dirty == if ok then old(dirty)[g := now] else old(dirty)
    {
      if g.tenant == "" {
        return false;
      }
      dirty := dirty[g := now];
      ok := true;
    }

    method ListDirty(limit: int) returns (out: seq<Group>)
      ensures Oldest(out, dirty, limit)
      ensures !(0 < limit < |dirty|) ==> forall g | g in dirty :: g in out
    {
      hide Entries, Sorted, Oldest;
      var all := Collect();
      var a := new Entry[|all|](i requires 0 <= i < |all| => all[i]);
      assert a[..] == all;
      SortByAge(a, dirty);
      var s := a[..];
      EntryCount(s, dirty);
      var n := if 0 < limit < |s| then limit else |s|;
      out := seq(n, i requires 0 <= i < |s| => s[i].group);
      TakesOldest(s, dirty, limit, out);
    }

    method Collect() returns (all: seq<Entry>)
      ensures Entries(all, dirty)
    {
      all := [];
      var keys := dirty.Keys;
      while keys != {}
        invariant keys <= dirty.Keys
        invariant forall i | 0 <= i < |all| :: all[i].group in dirty && all[i].group !in keys && dirty[all[i].group] == all[i].updatedAt
        invariant forall i, j | 0 <= i < j < |all| :: all[i].group != all[j].group
        invariant forall g | g in dirty && g !in keys :: Entry(g, dirty[g]) in all
      {
        var g :| g in keys;
        keys := keys - {g};
        all := all + [Entry(g, dirty[g])];
      }
    }

    method ClearDirty(g: Group)
      modifies this`dirty
      ensures dirty == old(dirty) - {g}
    {
      dirty := dirty - {g};
    }

    /** A job in PROCESSING stays as it is. */
    method UpsertPending(g: Group, now: nat) returns (job: Job)
      modifies this`jobs
      ensures g in jobs && jobs == old(jobs)[g := job]
      ensures job == if InProgress(old(jobs), g) then old(jobs)[g]
                     else Job(Pending, now, if g in old(jobs) then old(jobs)[g].created else 0)
    {
      if g in jobs {
        if jobs[g].status.Processing? {
          return jobs[g];
        }
        job := jobs[g].(status := Pending, updatedAt := now);
      } else {
        job := Job(Pending, now, 0);
      }
      jobs := jobs[g := job];
    }

    method SetStatus(g: Group, status: JobStatus, created: Option<nat>, now: nat) returns (ok: bool)
      modifies this`jobs
      ensures ok <==> g in old(jobs)
      ensures ok ==> jobs == old(jobs)[g := Job(status, now, if created.Some? then created.value else old(jobs)[g].created)]
      ensures !ok ==> jobs == old(jobs)
    {
      if g !in jobs {
        return false;
      }
      jobs := jobs[g := Job(status, now, if created.Some? then created.value else jobs[g].created)];
      ok := true;
    }

    method ListStaleProcessing(cutoff: int) returns (out: seq<Group>)
      ensures forall g :: g in out <==> InProgress(jobs, g) && jobs[g].updatedAt < cutoff
      ensures forall i, j | 0 <= i < j < |out| :: out[i] != out[j]
    {
      out := [];
      var keys := jobs.Keys;
      while keys != {}
        invariant keys <= jobs.Keys
        invariant forall g :: g in out <==> g !in keys && InProgress(jobs, g) && jobs[g].updatedAt < cutoff
        invariant forall i, j | 0 <= i < j < |out| :: out[i] != out[j]
      {
        var g :| g in keys;
        keys := keys - {g};
        if jobs[g].status.Processing? && jobs[g].updatedAt < cutoff {
          out := out + [g];
        }
      }
    }
  }

  // ---------------------------------------------------------------- the worker

  /** Stopped: the worker crashed or a store call failed. */
  datatype Outcome = Stopped | Busy | Scanned(created: nat) | ScanFailed

  /** One worker. Marks of others, time and crashes come between any two of its steps; `marks` and
      `scans` remember when each family was last marked and when its last scan began, `runs` how far its
      last run came, `trouble` whether anything disturbed this round. */
  class Processor {
    const repo: MemoryJobRepository
    const staleAfter: nat
    const batch: nat
    var now: nat
    ghost var marks: map<Group, nat>
    ghost var scans: map<Group, nat>
    ghost var runs: map<Group, Stage>
    ghost var events: nat
    ghost var trouble: bool

    constructor (repo: MemoryJobRepository, staleAfter: nat, batch: nat)
      requires repo.dirty == map[] && repo.jobs == map[]
      ensures this.repo == repo && this.staleAfter == staleAfter && this.batch == batch
      ensures Sound() && marks == map[] && !trouble
    {
      this.repo, this.staleAfter, this.batch, now := repo, staleAfter, batch, 0;
      marks, scans, runs, events, trouble := map[], map[], map[], 0, false;
    }

    ghost predicate Sound()
      reads this`marks, this`scans, this`runs, this`events, repo
    {
      && NoLostWakeUp(repo.dirty, repo.jobs, marks, scans)
      && StagesKnown(repo.dirty, repo.jobs, marks, scans, runs)
      && Bookkept()
    }

    ghost predicate Bookkept()
      reads this`marks, this`scans, this`events, repo
    {
      && (forall g | g in marks :: marks[g] < events) && (forall g | g in scans :: scans[g] < events)
      && (forall g | g in repo.dirty :: g.tenant != "" && g in marks)
      && (forall g | g in repo.jobs :: g.tenant != "")
    }

    /** Another process marks a family dirty. */
    method MarkDirty(g: Group) returns (ok: bool)
      requires Sound()
      modifies repo`dirty, this`marks, this`events
      ensures Sound() && (ok <==> g.tenant != "") && events >= old(events)
      ensures repo.dirty == if ok then old(repo.dirty)[g := now] else old(repo.dirty)
      ensures ok ==> g in marks && marks == old(marks)[g := old(events)]
      ensures !ok ==> marks == old(marks)
    {
      ok := repo.MarkDirty(g, now);
      if ok {
        marks, events := marks[g := events], events + 1;
        MarkKeeps(old(repo.dirty), repo.jobs, old(marks), scans, runs, g, now, old(events));
      }
    }

    lemma MarkKeeps(dirty: map<Group, nat>, jobs: map<Group, Job>, marks: map<Group, nat>, scans: map<Group, nat>,
                    runs: map<Group, Stage>, g: Group, at: nat, event: nat)
      requires NoLostWakeUp(dirty, jobs, marks, scans) && StagesKnown(dirty, jobs, marks, scans, runs)
      ensures NoLostWakeUp(dirty[g := at], jobs, marks[g := event], scans)
      ensures StagesKnown(dirty[g := at], jobs, marks[g := event], scans, runs)
    {
      forall h | h in marks[g := event] ensures InProgress(jobs, h) || Rested(dirty[g := at], marks[g := event], scans, h) {
        if h != g {
          assert InProgress(jobs, h) || Rested(dirty, marks, scans, h);
        }
      }
    }

    /** Families that others marked meanwhile are dirty; nothing else changed. */
    twostate predicate OnlyMarked()
      reads this, repo
    {
      && old(repo.dirty.Keys) <= repo.dirty.Keys
      && (forall g | g in marks :: g in repo.dirty || (g in old(marks) && marks[g] == old(marks)[g]))
      && now >= old(now) && events >= old(events) && (old(trouble) ==> trouble)
      && (!trouble ==> repo.dirty == old(repo.dirty) && marks == old(marks))
    }

    /** Time passes, and others mark families. */
    method Meanwhile()
      requires Sound()
      modifies repo`dirty, this`marks, this`events, this`now, this`trouble
      ensures Sound() && OnlyMarked()
    {
      hide NoLostWakeUp, Rested;
      var others: nat, later: nat := *, *;
      for i := 0 to others
        invariant Sound() && OnlyMarked()
      {
        var g: Group := *;
        var ok := MarkDirty(g);
        trouble := true;
      }
      now := now + later;
    }

    /** A crash, or a store call that fails. */
    method Down() returns (down: bool)
      modifies this`trouble
      ensures trouble == (old(trouble) || down)
    {
      down := *;
      trouble := trouble || down;
    }

    predicate IsStale(job: Job)
      reads this`now
    {
      job.status.Processing? && now - job.updatedAt >= staleAfter
    }

    /** Only the job of g changed. */
    ghost predicate SameJobs(g: Group, jobs: map<Group, Job>, jobs': map<Group, Job>) { jobs' - {g} == jobs - {g} }

    /** What processing a family leaves as it was. */
    twostate predicate OneProcessed(g: Group)
      reads this, repo
    {
      && SameJobs(g, old(repo.jobs), repo.jobs) && now >= old(now) && events >= old(events) && (old(trouble) ==> trouble)
      && (!trouble ==> marks == old(marks) && repo.dirty.Keys <= old(repo.dirty.Keys))
    }

    /** Takes a family from dirty to scanned; at whatever step it stops, no wake-up is lost. */
    method ProcessGroup(g: Group) returns (r: Outcome)
      requires Sound() && g.tenant != ""
      modifies repo, this`now, this`marks, this`scans, this`runs, this`events, this`trouble
      ensures Sound() && OneProcessed(g)
      ensures !r.Stopped? ==> (r.Busy? <==> InProgress(old(repo.jobs), g) && now - old(repo.jobs)[g].updatedAt < staleAfter)
      ensures r.Scanned? || r.ScanFailed? ==> g in scans && scans[g] >= old(events)
      ensures r.Scanned? ==> g in repo.jobs && repo.jobs[g].status.Applied? && repo.jobs[g].created == r.created
      ensures r.ScanFailed? && !trouble ==> g in repo.jobs && repo.jobs[g].status.Failed?
      ensures !trouble ==> !r.Stopped? && (g in repo.dirty ==> InProgress(repo.jobs, g))
    {
      hide NoLostWakeUp, Rested;
      var down := Down();
      if down {
        return Stopped;
      }
      var job := Queue(g);
      Meanwhile();
      if job.status.Processing? && !IsStale(job) {
        return Busy;
      }
      down := Down();
      if down {
        return Stopped;
      }
      r := ProcessQueued(g);
    }

    /** A job that is not PROCESSING becomes PENDING. */
    method Queue(g: Group) returns (job: Job)
      requires Sound() && g.tenant != ""
      modifies repo`jobs
      ensures Sound() && SameJobs(g, old(repo.jobs), repo.jobs) && g in repo.jobs && repo.jobs[g] == job
      ensures job.status == (if InProgress(old(repo.jobs), g) then Processing else Pending)
      ensures InProgress(old(repo.jobs), g) ==> repo.jobs == old(repo.jobs)
    {
      hide NoLostWakeUp, Rested;
      ghost var jobs0 := repo.jobs;
      job := repo.UpsertPending(g, now);
      UpsertKeeps(repo.dirty, jobs0, marks, scans, g, job);
    }

    /** The job becomes PROCESSING; a stale one stays where its last run left it. */
    method Claim(g: Group)
      requires Sound() && g in repo.jobs
      modifies repo`jobs, this`runs
      ensures Sound() && SameJobs(g, old(repo.jobs), repo.jobs) && InProgress(repo.jobs, g)
      ensures repo.jobs[g].updatedAt == now
      ensures runs == if InProgress(old(repo.jobs), g) then old(runs) else old(runs)[g := Claimed]
    {
      hide NoLostWakeUp, Rested;
      ghost var jobs0 := repo.jobs;
      var ok := repo.SetStatus(g, Processing, None, now);
      UpsertKeeps(repo.dirty, jobs0, marks, scans, g, repo.jobs[g]);
      ClaimKnown(repo.dirty, jobs0, marks, scans, runs, g, repo.jobs[g]);
      if !InProgress(jobs0, g) {
        runs := runs[g := Claimed];
      }
    }

    lemma ClaimKnown(dirty: map<Group, nat>, jobs: map<Group, Job>, marks: map<Group, nat>, scans: map<Group, nat>,
                     runs: map<Group, Stage>, g: Group, job: Job)
      requires NoLostWakeUp(dirty, jobs, marks, scans) && StagesKnown(dirty, jobs, marks, scans, runs)
      ensures StagesKnown(dirty, jobs[g := job], marks, scans, if InProgress(jobs, g) then runs else runs[g := Claimed])
    {
    }

    /** The dirty flag goes. */
    method Clear(g: Group)
      requires Sound() && InProgress(repo.jobs, g)
      modifies repo`dirty, this`runs
      ensures Sound() && repo.dirty == old(repo.dirty) - {g}
      ensures runs == old(runs)[g := Cleared(ScannedSince(marks, scans, g))]
    {
      hide NoLostWakeUp;
      ClearKeeps(repo.dirty, repo.jobs, marks, scans, g);
      repo.ClearDirty(g);
      runs := runs[g := Cleared(ScannedSince(marks, scans, g))];
    }

    lemma UpsertKeeps(dirty: map<Group, nat>, jobs: map<Group, Job>, marks: map<Group, nat>, scans: map<Group, nat>, g: Group, job: Job)
      requires NoLostWakeUp(dirty, jobs, marks, scans) && (InProgress(jobs, g) ==> job.status.Processing?)
      ensures NoLostWakeUp(dirty, jobs[g := job], marks, scans)
    {
      hide Rested;
      forall h | h in marks ensures InProgress(jobs[g := job], h) || Rested(dirty, marks, scans, h) {
        assert InProgress(jobs, h) || Rested(dirty, marks, scans, h);
      }
    }

    /** From the claim on. */
    method ProcessQueued(g: Group) returns (r: Outcome)
      requires Sound() && g in repo.jobs
      modifies repo, this`now, this`marks, this`scans, this`runs, this`events, this`trouble
      ensures Sound() && OneProcessed(g)
      ensures !r.Busy? && (r.Scanned? || r.ScanFailed? ==> g in scans && scans[g] >= old(events))
      ensures r.Scanned? ==> g in repo.jobs && repo.jobs[g].status.Applied? && repo.jobs[g].created == r.created
      ensures r.ScanFailed? && !trouble ==> g in repo.jobs && repo.jobs[g].status.Failed?
      ensures !trouble ==> !r.Stopped? && g !in repo.dirty
    {
      hide NoLostWakeUp, Rested, StagesKnown, Bookkept, ScannedSince;
      Claim(g);
      Meanwhile();
      var down := Down();
      if down {
        return Stopped;
      }
      var kept := Down();
      if !kept {
        Clear(g);
      }
      Meanwhile();
      down := Down();
      if down {
        return Stopped;
      }
      r := Scan(g);
    }

    lemma ClearKeeps(dirty: map<Group, nat>, jobs: map<Group, Job>, marks: map<Group, nat>, scans: map<Group, nat>, g: Group)
      requires NoLostWakeUp(dirty, jobs, marks, scans) && InProgress(jobs, g)
      ensures NoLostWakeUp(dirty - {g}, jobs, marks, scans)
    {
      forall h | h in marks ensures InProgress(jobs, h) || Rested(dirty - {g}, marks, scans, h) {
        assert InProgress(jobs, h) || Rested(dirty, marks, scans, h);
      }
    }

    /** The scan and its outcome; errors of the final status write leave the job PROCESSING. */
    method Scan(g: Group) returns (r: Outcome)
      requires Sound() && InProgress(repo.jobs, g)
      modifies repo, this`now, this`marks, this`scans, this`runs, this`events, this`trouble
      ensures Sound() && OneProcessed(g)
      ensures !r.Busy? && (r.Scanned? || r.ScanFailed? ==> g in scans && scans[g] >= old(events))
      ensures r.Scanned? ==> g in repo.jobs && repo.jobs[g].status.Applied? && repo.jobs[g].created == r.created
      ensures r.ScanFailed? && !trouble ==> g in repo.jobs && repo.jobs[g].status.Failed?
      ensures !trouble ==> !r.Stopped? && repo.dirty == old(repo.dirty)
    {
      hide NoLostWakeUp;
      ScanKeeps(repo.dirty, repo.jobs, marks, scans, g, events);
      scans, runs, events := scans[g := events], runs[g := Scanning], events + 1;
      assert Rested(repo.dirty, marks, scans, g);
      Meanwhile();
      var down := Down();
      if down {
        return Stopped;
      }
      r := Conclude(g);
    }

    method Conclude(g: Group) returns (r: Outcome)
      requires Sound() && InProgress(repo.jobs, g) && Rested(repo.dirty, marks, scans, g)
      modifies repo`jobs, this`trouble
      ensures Sound() && OneProcessed(g) && !r.Busy?
      ensures r.Scanned? ==> g in repo.jobs && repo.jobs[g].status.Applied? && repo.jobs[g].created == r.created
      ensures r.ScanFailed? && !trouble ==> g in repo.jobs && repo.jobs[g].status.Failed?
      ensures !trouble ==> !r.Stopped?
    {
      hide NoLostWakeUp, Rested;
      var fails: bool, created: nat := *, *;
      var down := Down();
      if !down {
        ghost var jobs0 := repo.jobs;
        var ok := repo.SetStatus(g, if fails then Failed else Applied, if fails then None else Some(created), now);
        LeavingKeepsIff(repo.dirty, jobs0, marks, scans, g, repo.jobs[g]);
      }
      r := if fails then ScanFailed else if down then Stopped else Scanned(created);
    }

    lemma ScanKeeps(dirty: map<Group, nat>, jobs: map<Group, Job>, marks: map<Group, nat>, scans: map<Group, nat>, g: Group, event: nat)
      requires NoLostWakeUp(dirty, jobs, marks, scans) && (g in marks ==> marks[g] < event)
      ensures NoLostWakeUp(dirty, jobs, marks, scans[g := event])
    {
      forall h | h in marks ensures InProgress(jobs, h) || Rested(dirty, marks, scans[g := event], h) {
        assert InProgress(jobs, h) || Rested(dirty, marks, scans, h);
      }
    }

    /** Processes the oldest dirty families. Undisturbed, and with room for all of them, it leaves
        dirty only families whose job is PROCESSING. */
    method Sweep() returns (ok: bool)
      requires Sound()
      modifies repo, this`now, this`marks, this`scans, this`runs, this`events, this`trouble
      ensures Sound() && (old(trouble) ==> trouble)
      ensures !trouble ==> marks == old(marks)
      ensures !trouble && (batch == 0 || |old(repo.dirty)| <= batch) ==> forall g | g in repo.dirty :: InProgress(repo.jobs, g)
    {
      hide NoLostWakeUp, Rested, Handled, SameJobs;
      var down := Down();
      if down {
        return false;
      }
      var groups := repo.ListDirty(batch);
      NoneHandled(groups, repo.dirty, repo.jobs);
      for i := 0 to |groups|
        invariant Sound() && (old(trouble) ==> trouble) && (!trouble ==> marks == old(marks))
        invariant !trouble ==> repo.dirty.Keys <= old(repo.dirty.Keys) && Handled(groups, i, repo.dirty, repo.jobs)
      {
        ghost var dirty0, jobs0 := repo.dirty, repo.jobs;
        var r := ProcessGroup(groups[i]);
        if r.Stopped? {
          return false;
        }
        if !trouble {
          HandledNext(groups, i, dirty0, jobs0, repo.dirty, repo.jobs);
        }
      }
      if !trouble {
        AllHandled(groups, repo.dirty, repo.jobs);
      }
      ok := true;
    }

    /** Of the first i families, those still dirty have a job in PROCESSING. */
    ghost predicate Handled(groups: seq<Group>, i: nat, dirty: map<Group, nat>, jobs: map<Group, Job>) {
      forall j | 0 <= j < i && j < |groups| && groups[j] in dirty :: InProgress(jobs, groups[j])
    }

    lemma NoneHandled(groups: seq<Group>, dirty: map<Group, nat>, jobs: map<Group, Job>)
      ensures Handled(groups, 0, dirty, jobs)
    {
    }

    lemma HandledNext(groups: seq<Group>, i: nat, dirty0: map<Group, nat>, jobs0: map<Group, Job>, dirty1: map<Group, nat>, jobs1: map<Group, Job>)
      requires i < |groups| && forall j, k | 0 <= j < k < |groups| :: groups[j] != groups[k]
      requires Handled(groups, i, dirty0, jobs0) && SameJobs(groups[i], jobs0, jobs1) && dirty1.Keys <= dirty0.Keys
      requires groups[i] in dirty1 ==> InProgress(jobs1, groups[i])
      ensures Handled(groups, i + 1, dirty1, jobs1)
    {
      forall j | 0 <= j < i && groups[j] in dirty1 ensures InProgress(jobs1, groups[j]) {
        assert InProgress(jobs0, groups[j]);
        assert groups[j] in jobs0 - {groups[i]} && (jobs0 - {groups[i]})[groups[j]] == jobs0[groups[j]];
        assert groups[j] in jobs1 - {groups[i]} && (jobs1 - {groups[i]})[groups[j]] == jobs1[groups[j]];
      }
    }

    lemma AllHandled(groups: seq<Group>, dirty: map<Group, nat>, jobs: map<Group, Job>)
      requires Handled(groups, |groups|, dirty, jobs)
      ensures (forall g | g in dirty :: g in groups) ==> forall g | g in dirty :: InProgress(jobs, g)
    {
    }

    /** A stale job is failed and its family marked dirty again, as one step. */
    method Requeue(g: Group)
      requires Sound() && InProgress(repo.jobs, g)
      modifies repo, this`marks, this`events
      ensures Sound() && g in repo.dirty && g in repo.jobs && repo.jobs[g].status.Failed?
      ensures repo.jobs.Keys == old(repo.jobs.Keys)
      ensures forall h | h != g && h in repo.jobs :: repo.jobs[h] == old(repo.jobs)[h]
      ensures forall h | h in old(repo.dirty) :: h in repo.dirty
    {
      hide NoLostWakeUp, Rested;
      ghost var dirty0, jobs0, marks0 := repo.dirty, repo.jobs, marks;
      var failed := repo.SetStatus(g, Failed, None, now);
      var marked := repo.MarkDirty(g, now);
      marks, events := marks[g := events], events + 1;
      MarkKeeps(dirty0, jobs0, marks0, scans, runs, g, now, events - 1);
      DirtyIsRested(repo.dirty, marks, scans, g);
      LeavingKeepsIff(repo.dirty, jobs0, marks, scans, g, repo.jobs[g]);
    }

    /** The first write of the recovery alone, as when it crashes before it marks the family dirty. The
        wake-up is lost exactly if the family's dirty flag is down, and the run that left the job in
        PROCESSING had cleared it but not begun to scan, and no earlier scan had seen that mark. */
    method FailStaleJob(g: Group)
      requires Sound() && InProgress(repo.jobs, g)
      modifies repo`jobs
      ensures g in runs && repo.dirty == old(repo.dirty) && g in repo.jobs && repo.jobs[g].status.Failed?
      ensures NoLostWakeUp(repo.dirty, repo.jobs, marks, scans) <==> g in repo.dirty || runs[g] != Cleared(false)
    {
      hide NoLostWakeUp;
      ghost var jobs0 := repo.jobs;
      var failed := repo.SetStatus(g, Failed, None, now);
      LeavingKeepsIff(repo.dirty, jobs0, marks, scans, g, repo.jobs[g]);
      assert StageFact(repo.dirty, marks, scans, g, runs[g]);
    }

    /** A run that stops after it cleared the dirty flag, and a recovery that stops after its first
        write: the family is marked, but neither dirty nor PROCESSING, and was not scanned. */
    method SplitRecoveryLosesWakeUp(g: Group)
      requires Sound() && g.tenant != "" && !InProgress(repo.jobs, g)
      modifies repo, this`now, this`marks, this`runs, this`events
      ensures g in marks && g !in repo.dirty && g in repo.jobs && repo.jobs[g].status.Failed?
      ensures !ScannedSince(marks, scans, g) && !NoLostWakeUp(repo.dirty, repo.jobs, marks, scans)
    {
      hide NoLostWakeUp;
      var marked := MarkDirty(g);
      var job := Queue(g);
      Claim(g);
      Clear(g);
      now := now + staleAfter + 1;
      FailStaleJob(g);
    }

    lemma DirtyIsRested(dirty: map<Group, nat>, marks: map<Group, nat>, scans: map<Group, nat>, g: Group)
      requires g in dirty
      ensures Rested(dirty, marks, scans, g)
    {
    }

    /** Every stale job is failed and its family dirty again, unless the round is cut short. */
    method RecoverStaleJobs() returns (ok: bool)
      requires Sound()
      modifies repo, this`now, this`marks, this`scans, this`runs, this`events, this`trouble
      ensures Sound() && (old(trouble) ==> trouble)
      ensures !trouble ==> forall g | InProgress(repo.jobs, g) :: g in old(repo.jobs) && repo.jobs[g] == old(repo.jobs)[g]
                                                                  && repo.jobs[g].updatedAt >= old(now) - staleAfter
      ensures ok ==> forall g | InProgress(old(repo.jobs), g) && old(repo.jobs)[g].updatedAt < old(now) - staleAfter ::
                g in repo.dirty && g in repo.jobs && repo.jobs[g].status.Failed?
      ensures forall g | g in old(repo.jobs) && !(InProgress(old(repo.jobs), g) && old(repo.jobs)[g].updatedAt < old(now) - staleAfter) ::
                g in repo.jobs && repo.jobs[g] == old(repo.jobs)[g]
    {
      hide NoLostWakeUp, Rested, StagesKnown, Requeued, Bookkept, ScannedSince;
      var down := Down();
      NothingRequeued(repo.jobs, repo.dirty);
      if down {
        return false;
      }
      var stale := repo.ListStaleProcessing(now - staleAfter);
      for i := 0 to |stale|
        invariant Sound() && (old(trouble) ==> trouble)
        invariant Requeued(stale[..i], old(repo.jobs), repo.jobs, repo.dirty)
      {
        ghost var jobs, dirty := repo.jobs, repo.dirty;
        assert stale[i] in stale && stale[i] !in stale[..i];
        StillStale(stale[..i], stale[i], old(repo.jobs), jobs, dirty);
        Requeue(stale[i]);
        Meanwhile();
        RequeuedNext(stale[..i], stale[i], old(repo.jobs), jobs, dirty, repo.jobs, repo.dirty);
        assert stale[..i + 1] == stale[..i] + [stale[i]];
        RequeuedOnly(stale, i + 1, old(repo.jobs), repo.jobs, repo.dirty);
        down := Down();
        if down {
          return false;
        }
      }
      assert stale[..|stale|] == stale;
      RequeuedOnly(stale, |stale|, old(repo.jobs), repo.jobs, repo.dirty);
      ok := true;
    }

    /** These families' jobs were failed and the families are dirty; the other jobs are as before. */
    ghost predicate Requeued(done: seq<Group>, jobs0: map<Group, Job>, jobs: map<Group, Job>, dirty: map<Group, nat>) {
      && jobs.Keys == jobs0.Keys
      && (forall g | g in jobs && g !in done :: jobs[g] == jobs0[g])
      && (forall g | g in done :: g in dirty && g in jobs && jobs[g].status.Failed?)
    }

    lemma NothingRequeued(jobs: map<Group, Job>, dirty: map<Group, nat>)
      ensures Requeued([], jobs, jobs, dirty)
    {
    }

    lemma StillStale(done: seq<Group>, g: Group, jobs0: map<Group, Job>, jobs: map<Group, Job>, dirty: map<Group, nat>)
      requires Requeued(done, jobs0, jobs, dirty) && InProgress(jobs0, g) && g !in done
      ensures InProgress(jobs, g)
    {
    }

    lemma RequeuedNext(done: seq<Group>, g: Group, jobs0: map<Group, Job>, jobs: map<Group, Job>, dirty: map<Group, nat>,
                       jobs': map<Group, Job>, dirty': map<Group, nat>)
      requires Requeued(done, jobs0, jobs, dirty) && jobs'.Keys == jobs.Keys && dirty.Keys <= dirty'.Keys
      requires g in dirty' && g in jobs' && jobs'[g].status.Failed? && forall h | h != g && h in jobs' :: jobs'[h] == jobs[h]
      ensures Requeued(done + [g], jobs0, jobs', dirty')
    {
    }

    lemma RequeuedOnly(stale: seq<Group>, n: nat, jobs0: map<Group, Job>, jobs: map<Group, Job>, dirty: map<Group, nat>)
      requires n <= |stale| && Requeued(stale[..n], jobs0, jobs, dirty)
      ensures forall g | g in jobs0 && g !in stale :: g in jobs && jobs[g] == jobs0[g]
      ensures n == |stale| ==> forall g | g in stale :: g in dirty && g in jobs && jobs[g].status.Failed?
      ensures n == |stale| ==> forall g | InProgress(jobs, g) :: g in jobs0 && jobs[g] == jobs0[g] && g !in stale
    {
      assert forall g | g in stale[..n] :: g in stale;
      assert n == |stale| ==> stale[..n] == stale;
    }

    /** One round of the background loop; `waiting` families are dirty when it starts to sweep. Whatever
        disturbs the round, no wake-up is lost; undisturbed and with room for all of them, it leaves
        every marked family scanned or PROCESSING. */
    method Tick() returns (ghost waiting: nat)
      requires Sound()
      modifies repo, this`now, this`marks, this`scans, this`runs, this`events, this`trouble
      ensures Sound()
      ensures !trouble && (batch == 0 || waiting <= batch) ==>
                forall g | g in marks :: InProgress(repo.jobs, g) || ScannedSince(marks, scans, g)
    {
      hide ScannedSince;
      trouble := false;
      var recovered := RecoverStaleJobs();
      Meanwhile();
      waiting := |repo.dirty|;
      var swept := Sweep();
    }
  }
}
