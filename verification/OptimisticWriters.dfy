/** Concurrent writers of one experience under optimistic locking: reinforcement, usage counting,
    learning, and the applier's rollback, each reading the record and later trying to store what it
    made of it (internal/experience/memory.go, internal/experience/reinforce.go,
    internal/learning/service.go, internal/learning/memory_applier.go). */
module OptimisticWriters {
  import opened BetaLedger
  import opened ExperienceStore
  import opened Wrappers

  /** What a writer does to the record it read. Undo gives it back the posterior of `before`. */
  datatype Job = Reinforce(confidence: real) | Use | Learn(reward: Reward) | Undo(before: Experience)

  /** A writer and the record it read, if it has one. */
  datatype Writer = Writer(job: Job, snapshot: Option<Experience>)

  /** `lock` is the writer that holds the applier's mutex: it has learned, and its event is not marked
      yet. */
  datatype Sys = Sys(record: Experience, writers: seq<Writer>, log: seq<Job>, lock: Option<nat>)

  /** Retire is Supersede or Archive, which set the status without a version check. Release ends the
      applier's call: the event was marked, or the rollback was given up. */
  datatype Action = Arrive(job: Job) | Read(w: nat) | Store(w: nat) | Release | Retire(status: Status)

  function Perform(e: Experience, job: Job): Option<Experience> {
    match job
    case Reinforce(confidence) => Some(e.(confidence := BumpConfidence(e.confidence, confidence)))
    case Use => Some(e.(useCount := e.useCount + 1))
    case Learn(r) => ApplyBetaUpdate(e, r.amount, r.confidence)
    case Undo(before) =>
      Some(e.(utility := before.utility, alpha := before.alpha, beta := before.beta, successes := before.successes,
              failures := before.failures))
  }

  /** Learning needs the mutex, and only its holder can undo. */
  predicate Permitted(s: Sys, w: nat)
    requires w < |s.writers|
  {
    match s.writers[w].job
    case Learn(_) => s.lock.None?
    case Undo(_) => s.lock == Some(w)
    case _ => true
  }

  /** Compare-and-swap of what the writer made of its snapshot; a conflict makes it read again. Who has
      learned holds the mutex and can only undo that. */
  function StoreStep(s: Sys, w: nat): Sys
    requires w < |s.writers| && s.writers[w].snapshot.Some?
  {
    var Writer(job, Some(snapshot)) := s.writers[w];
    var made := Perform(snapshot, job);
    if made.None? || snapshot.version != s.record.version then s.(writers := s.writers[w := Writer(job, None)])
    else
      Sys(made.value.(version := s.record.version + 1),
          s.writers[w := Writer(if job.Learn? then Undo(snapshot) else job, None)],
          s.log + [job],
          if job.Learn? then Some(w) else if job.Undo? then None else s.lock)
  }

  function Next(s: Sys, a: Action): Sys {
    match a
    case Arrive(job) => if job.Undo? then s else s.(writers := s.writers + [Writer(job, None)])
    case Read(w) =>
      if w < |s.writers| then s.(writers := s.writers[w := s.writers[w].(snapshot := Some(s.record))]) else s
    case Store(w) => if w < |s.writers| && s.writers[w].snapshot.Some? && Permitted(s, w) then StoreStep(s, w) else s
    case Release => s.(lock := None)
    case Retire(status) => s.(record := s.record.(status := status))
  }

  function Exec(s: Sys, history: seq<Action>): Sys {
    if history == [] then s else Next(Exec(s, history[..|history| - 1]), history[|history| - 1])
  }

  function Start(e: Experience): Sys { Sys(e, [], [], None) }

  // ---------------------------------------------------------------- the accepted jobs

  function Uses(log: seq<Job>): nat {
    if log == [] then 0 else Uses(log[..|log| - 1]) + if log[|log| - 1].Use? then 1 else 0
  }

  function Front(rs: seq<Reward>): seq<Reward> { if rs == [] then [] else rs[..|rs| - 1] }

  /** The accepted rewards that were not taken back. */
  function Rewards(log: seq<Job>): seq<Reward> {
    if log == [] then []
    else
      var front := Rewards(log[..|log| - 1]);
      match log[|log| - 1]
      case Learn(r) => front + [r]
      case Undo(_) => Front(front)
      case _ => front
  }

  lemma LogNext(log: seq<Job>, job: Job)
    ensures Uses(log + [job]) == Uses(log) + if job.Use? then 1 else 0
    ensures Rewards(log + [job]) ==
            if job.Learn? then Rewards(log) + [job.reward] else if job.Undo? then Front(Rewards(log)) else Rewards(log)
  {
    assert (log + [job])[..|log|] == log;
  }

  ghost predicate StandsBy(record: Experience, e: Experience, rs: seq<Reward>) {
    Stands(record, e, TotalsOf(rs)) && Proper(TotalsOf(rs))
  }

  /** Equal but for the status. */
  predicate SameBut(a: Experience, b: Experience) { a.(status := b.status) == b }

  /** The record is what the accepted jobs made of e, and no snapshot of the current version differs
      from it but in the status. */
  ghost predicate Inv(e: Experience, s: Sys) {
    && s.record.version == e.version + |s.log| && s.record.useCount == e.useCount + Uses(s.log)
    && StandsBy(s.record, e, Rewards(s.log))
    && (forall w | 0 <= w < |s.writers| && s.writers[w].snapshot.Some? ::
          var snapshot := s.writers[w].snapshot.value;
          && snapshot.version <= s.record.version
          && (snapshot.version == s.record.version ==> SameBut(snapshot, s.record)))
    && (s.lock.Some? ==> LockOk(e, s))
  }

  /** The holder of the mutex can give back the posterior of before its reward. */
  ghost predicate LockOk(e: Experience, s: Sys)
    requires s.lock.Some?
  {
    && s.lock.value < |s.writers| && s.writers[s.lock.value].job.Undo?
    && StandsBy(s.writers[s.lock.value].job.before, e, Front(Rewards(s.log)))
  }

  lemma StandsTwice(a: Experience, b: Experience, e: Experience, rs: seq<Reward>)
    requires StandsBy(a, e, rs) && PosteriorOf(a) == PosteriorOf(b) && a.utility == b.utility
    ensures StandsBy(b, e, rs)
  {
  }

  lemma Learns(r: Experience, e: Experience, rs: seq<Reward>, reward: Reward)
    requires StandsBy(r, e, rs) && 0.0 <= reward.confidence <= 1.0
    ensures ApplyBetaUpdate(r, reward.amount, reward.confidence).Some?
    ensures StandsBy(ApplyBetaUpdate(r, reward.amount, reward.confidence).value, e, rs + [reward])
  {
    hide Stands, ApplyBetaUpdate, Delta, Proper;
    StandsAfter(r, e, TotalsOf(rs), reward.amount, reward.confidence);
    assert (rs + [reward])[..|rs|] == rs;
  }

  /** What a job leaves as it was. */
  lemma PerformLeaves(e: Experience, job: Job)
    requires Perform(e, job).Some?
    ensures var made := Perform(e, job).value;
            && made.version == e.version && made.status == e.status
            && made.useCount == e.useCount + (if job.Use? then 1 else 0)
            && (!job.Reinforce? ==> made.confidence == e.confidence)
            && (job.Reinforce? || job.Use? ==> PosteriorOf(made) == PosteriorOf(e) && made.utility == e.utility)
    ensures job.Learn? ==> 0.0 <= job.reward.confidence <= 1.0
  {
  }

  /** A job done to a snapshot of the current version: what then stands, and what an undo would restore. */
  lemma JobStands(e: Experience, s: Sys, w: nat)
    requires Inv(e, s) && w < |s.writers| && s.writers[w].snapshot.Some? && Permitted(s, w)
    requires s.writers[w].snapshot.value.version == s.record.version
    requires Perform(s.writers[w].snapshot.value, s.writers[w].job).Some?
    ensures StandsBy(Perform(s.writers[w].snapshot.value, s.writers[w].job).value, e, Rewards(s.log + [s.writers[w].job]))
    ensures s.writers[w].job.Learn? ==>
              StandsBy(s.writers[w].snapshot.value, e, Front(Rewards(s.log + [s.writers[w].job])))
  {
    hide Stands, ApplyBetaUpdate, Proper, StandsBy;
    var Writer(job, Some(snapshot)) := s.writers[w];
    LogNext(s.log, job);
    PerformLeaves(snapshot, job);
    StandsTwice(s.record, snapshot, e, Rewards(s.log));
    match job
    case Learn(r) =>
      Learns(snapshot, e, Rewards(s.log), r);
    case Undo(before) =>
      StandsTwice(before, Perform(snapshot, job).value, e, Front(Rewards(s.log)));
    case _ =>
      StandsTwice(snapshot, Perform(snapshot, job).value, e, Rewards(s.log));
  }

  lemma StoreKeeps(e: Experience, s: Sys, w: nat)
    requires Inv(e, s) && w < |s.writers| && s.writers[w].snapshot.Some? && Permitted(s, w)
    ensures Inv(e, StoreStep(s, w))
  {
    hide Stands, ApplyBetaUpdate, Proper, StandsBy, Perform, Rewards, Uses;
    var Writer(job, Some(snapshot)) := s.writers[w];
    if Perform(snapshot, job).Some? && snapshot.version == s.record.version {
      JobStands(e, s, w);
      LogNext(s.log, job);
      PerformLeaves(snapshot, job);
      var made := Perform(snapshot, job).value;
      StandsTwice(made, made.(version := s.record.version + 1), e, Rewards(s.log + [job]));
    }
  }

  lemma NextKeeps(e: Experience, s: Sys, a: Action)
    requires Inv(e, s)
    ensures Inv(e, Next(s, a))
  {
    hide Stands, ApplyBetaUpdate, Proper, Perform, Rewards, Uses;
    match a
    case Store(w) =>
      if w < |s.writers| && s.writers[w].snapshot.Some? && Permitted(s, w) {
        StoreKeeps(e, s, w);
      }
    case Retire(status) => StandsTwice(s.record, s.record.(status := status), e, Rewards(s.log));
    case _ =>
  }

  lemma StartInv(e: Experience)
    ensures Inv(e, Start(e))
  {
  }

  lemma {:induction false} ExecKeeps(e: Experience, history: seq<Action>)
    ensures Inv(e, Exec(Start(e), history))
  {
    hide Inv, Next;
    if history == [] {
      StartInv(e);
    } else {
      ExecKeeps(e, history[..|history| - 1]);
      NextKeeps(e, Exec(Start(e), history[..|history| - 1]), history[|history| - 1]);
    }
  }

  // ---------------------------------------------------------------- what no interleaving loses

  /** Under any interleaving of readers and writers, rollbacks included, the version counts the
      accepted writes, every accepted use is in the record, and its posterior is the initial one plus
      every accepted reward that was not taken back. */
  lemma NoUpdateIsLost(e: Experience, history: seq<Action>)
    ensures var s := Exec(Start(e), history);
            && s.record.version == e.version + |s.log|
            && s.record.useCount == e.useCount + Uses(s.log)
            && Stands(s.record, e, TotalsOf(Rewards(s.log)))
  {
    ExecKeeps(e, history);
  }

  predicate ConfidenceInRange(job: Job) { job.Reinforce? ==> 0.0 <= job.confidence <= 1.0 }

  predicate Bounded(s: Sys) {
    && 0.0 <= s.record.confidence <= 1.0
    && forall w | 0 <= w < |s.writers| :: ConfidenceInRange(s.writers[w].job)
  }

  /** With confidences in range, no step of anybody lowers the confidence. */
  lemma ConfidenceNeverDrops(e: Experience, s: Sys, a: Action)
    requires Inv(e, s) && Bounded(s) && (a.Arrive? ==> ConfidenceInRange(a.job))
    ensures Bounded(Next(s, a)) && Next(s, a).record.confidence >= s.record.confidence
  {
    hide Stands, ApplyBetaUpdate, Proper;
    if a.Store? && a.w < |s.writers| && s.writers[a.w].snapshot.Some? {
      var job := s.writers[a.w].job;
      if Perform(s.writers[a.w].snapshot.value, job).Some? {
        PerformLeaves(s.writers[a.w].snapshot.value, job);
      }
      if job.Reinforce? {
        BumpRaises(s.record.confidence, job.confidence);
      }
    }
  }

  lemma {:induction false} ConfidenceIsMonotone(e: Experience, history: seq<Action>, k: nat)
    requires 0.0 <= e.confidence <= 1.0 && k <= |history|
    requires forall i | 0 <= i < |history| && history[i].Arrive? :: ConfidenceInRange(history[i].job)
    ensures Bounded(Exec(Start(e), history))
    ensures Exec(Start(e), history).record.confidence >= Exec(Start(e), history[..k]).record.confidence
  {
    hide Next, Inv;
    if k == |history| {
      assert history[..k] == history;
    }
    if history != [] {
      var front := history[..|history| - 1];
      ConfidenceIsMonotone(e, front, if k < |front| then k else |front|);
      assert front[..|front|] == front;
      assert k <= |front| ==> front[..k] == history[..k];
      ExecKeeps(e, front);
      ConfidenceNeverDrops(e, Exec(Start(e), front), history[|history| - 1]);
    }
  }

  // ---------------------------------------------------------------- the status

  /** The status is not protected: an archived experience comes back to life when a writer that
      read it before stores its record. */
  lemma ArchivingCanBeLost(e: Experience)
    requires e.status == Active
    ensures Exec(Start(e), [Arrive(Use), Read(0), Retire(Archived)]).record.status == Archived
    ensures Exec(Start(e), [Arrive(Use), Read(0), Retire(Archived), Store(0)]).record.status == Active
  {
    var h3 := [Arrive(Use), Read(0), Retire(Archived)];
    assert h3[..2][..1][..0] == [] && h3[..2][..1] == [Arrive(Use)] && h3[..2] == [Arrive(Use), Read(0)];
    var s1 := Next(Start(e), Arrive(Use));
    assert Exec(Start(e), [Arrive(Use)]) == s1;
    var s2 := Next(s1, Read(0));
    assert Exec(Start(e), [Arrive(Use), Read(0)]) == s2;
    var s3 := Next(s2, Retire(Archived));
    assert Exec(Start(e), h3) == s3;
    var h4 := [Arrive(Use), Read(0), Retire(Archived), Store(0)];
    assert h4[..3] == h3;
    assert Exec(Start(e), h4) == Next(s3, Store(0));
  }

  /** Writer w read the record in its current version, but not its current status, and can still store
      what it makes of it. */
  predicate Outdated(s: Sys, w: nat) {
    && w < |s.writers| && s.writers[w].snapshot.Some?
    && s.writers[w].snapshot.value.version == s.record.version
    && s.writers[w].snapshot.value.status != s.record.status
    && Perform(s.writers[w].snapshot.value, s.writers[w].job).Some?
    && (s.writers[w].job.Undo? ==> s.lock == Some(w))
  }

  predicate NoRetirement(history: seq<Action>) {
    forall i | 0 <= i < |history| :: !history[i].Retire?
  }

  /** No continuation without a further retirement changes the status. */
  ghost predicate StatusSurvives(s: Sys) {
    forall more | NoRetirement(more) :: Exec(s, more).record.status == s.record.status
  }

  lemma QuietNext(e: Experience, s: Sys, a: Action)
    requires Inv(e, s) && !a.Retire? && forall w :: !Outdated(s, w)
    ensures Next(s, a).record.status == s.record.status && forall w :: !Outdated(Next(s, a), w)
  {
    hide Stands, ApplyBetaUpdate, Proper, Rewards, Uses, StandsBy;
    var s' := Next(s, a);
    if a.Store? && a.w < |s.writers| && s.writers[a.w].snapshot.Some? && Perform(s.writers[a.w].snapshot.value, s.writers[a.w].job).Some? {
      PerformLeaves(s.writers[a.w].snapshot.value, s.writers[a.w].job);
      assert !Outdated(s, a.w);
    }
    forall w ensures !Outdated(s', w) {
      assert !Outdated(s, w);
    }
  }

  lemma {:induction false} QuietRun(e: Experience, s: Sys, more: seq<Action>)
    requires Inv(e, s) && NoRetirement(more) && forall w :: !Outdated(s, w)
    ensures Inv(e, Exec(s, more)) && Exec(s, more).record.status == s.record.status && forall w :: !Outdated(Exec(s, more), w)
  {
    hide Inv, Next, Outdated;
    if more != [] {
      QuietRun(e, s, more[..|more| - 1]);
      NextKeeps(e, Exec(s, more[..|more| - 1]), more[|more| - 1]);
      QuietNext(e, Exec(s, more[..|more| - 1]), more[|more| - 1]);
    }
  }

  /** What an outdated writer does: as soon as the applier's mutex is free, it stores the old status. */
  lemma OutdatedStores(s: Sys, w: nat)
    requires Outdated(s, w)
    ensures !StatusSurvives(s)
  {
    hide ApplyBetaUpdate;
    PerformLeaves(s.writers[w].snapshot.value, s.writers[w].job);
    if Permitted(s, w) {
      var more := [Store(w)];
      assert more[..0] == [];
      assert Exec(s, more) == Next(Exec(s, more[..0]), more[0]) == StoreStep(s, w);
      assert NoRetirement(more);
    } else {
      var more := [Release, Store(w)];
      var free := Next(s, Release);
      assert more[..1] == [Release] && more[..1][..0] == [];
      assert Exec(s, more[..1]) == free;
      assert Exec(s, more) == Next(free, Store(w)) == StoreStep(free, w);
      assert NoRetirement(more);
    }
  }

  /** A retirement survives every continuation without another one if and only if at that point no
      writer holds the record in its current version with another status and can still store it. */
  lemma RetirementSurvivesIff(e: Experience, history: seq<Action>, status: Status)
    ensures var s := Exec(Start(e), history + [Retire(status)]);
            && s.record.status == status
            && (StatusSurvives(s) <==> forall w :: !Outdated(s, w))
  {
    hide Inv, Outdated;
    var h := history + [Retire(status)];
    assert h[..|history|] == history;
    var s := Exec(Start(e), h);
    ExecKeeps(e, h);
    if w :| Outdated(s, w) {
      OutdatedStores(s, w);
    } else {
      forall more | NoRetirement(more) ensures Exec(s, more).record.status == s.record.status {
        QuietRun(e, s, more);
      }
    }
  }
}
