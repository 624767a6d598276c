/** Writers of one pattern: the pattern applier, and direct rewards from outside its mutex
    (internal/learning/pattern_event_applier.go, internal/experience/pattern_service.go). Each reads
    the pattern and later stores what it made of it. Patterns carry no version, so every store is
    accepted. */
module PatternWriters {
  import opened BetaLedger
  import opened LearningEvents
  import opened PatternLearning
  import opened Wrappers

  /** A pattern as it was read: which rewards were in it, and how many had been stored by then. */
  datatype Snapshot = Snapshot(record: Pattern, kept: seq<Reward>, seen: nat)

  /** A direct reward is refused for a pattern that is no longer learnable. */
  datatype Writer = Writer(reward: Reward, direct: bool, snapshot: Option<Snapshot>)

  /** The stored rewards, and those of them that the record still has. */
  datatype Sys = Sys(record: Pattern, writers: seq<Writer>, log: seq<Reward>, kept: seq<Reward>)

  datatype Action = Arrive(reward: Reward, direct: bool) | Read(w: nat) | Store(w: nat)

  /** What a writer makes of a pattern. */
  function Perform(p: Pattern, w: Writer): Option<Pattern> {
    if w.direct && !Retrievable(p) then None
    else
      var u := ApplyPatternBetaUpdate(p, w.reward.amount, w.reward.confidence);
      if u.None? then None else Some(MaybePromote(u.value))
  }

  /** The writer has read the pattern and can store what it makes of it. */
  predicate CanStore(s: Sys, w: nat) {
    w < |s.writers| && s.writers[w].snapshot.Some? && Perform(s.writers[w].snapshot.value.record, s.writers[w]).Some?
  }

  function Next(s: Sys, a: Action): Sys {
    match a
    case Arrive(reward, direct) => s.(writers := s.writers + [Writer(reward, direct, None)])
    case Read(w) =>
      if w < |s.writers|
      then s.(writers := s.writers[w := s.writers[w].(snapshot := Some(Snapshot(s.record, s.kept, |s.log|)))])
      else s
    case Store(w) =>
      if CanStore(s, w)
      then
        var writer := s.writers[w];
        Sys(Perform(writer.snapshot.value.record, writer).value, s.writers[w := writer.(snapshot := None)],
            s.log + [writer.reward], writer.snapshot.value.kept + [writer.reward])
      else s
  }

  function Exec(s: Sys, history: seq<Action>): Sys {
    if history == [] then s else Next(Exec(s, history[..|history| - 1]), history[|history| - 1])
  }

  function Start(p: Pattern): Sys { Sys(p, [], [], []) }

  // ---------------------------------------------------------------- what the record has

  ghost predicate StandsBy(p: Pattern, initial: Pattern, rs: seq<Reward>) {
    PatternStands(p, initial, TotalsOf(rs)) && Proper(TotalsOf(rs))
  }

  ghost predicate SnapshotOk(initial: Pattern, s: Sys, snapshot: Snapshot) {
    && StandsBy(snapshot.record, initial, snapshot.kept)
    && |snapshot.kept| <= snapshot.seen <= |s.log|
    && (snapshot.seen == |s.log| ==> snapshot.kept == s.kept)
  }

  ghost predicate Inv(initial: Pattern, s: Sys) {
    && StandsBy(s.record, initial, s.kept) && |s.kept| <= |s.log|
    && forall w | 0 <= w < |s.writers| && s.writers[w].snapshot.Some? :: SnapshotOk(initial, s, s.writers[w].snapshot.value)
  }

  lemma PerformStands(p: Pattern, initial: Pattern, rs: seq<Reward>, w: Writer)
    requires StandsBy(p, initial, rs) && Perform(p, w).Some?
    ensures StandsBy(Perform(p, w).value, initial, rs + [w.reward])
  {
    assert 0.0 <= w.reward.confidence <= 1.0;
    DeltaIsProper(w.reward.amount, w.reward.confidence);
    hide PatternStands, ApplyPatternBetaUpdate, MaybePromote, Delta, Plus;
    PatternStandsAfter(p, initial, TotalsOf(rs), w.reward.amount, w.reward.confidence);
    SumIsProper(TotalsOf(rs), Delta(w.reward.amount, w.reward.confidence));
    assert (rs + [w.reward])[..|rs|] == rs;
  }

  lemma NextKeeps(initial: Pattern, s: Sys, a: Action)
    requires Inv(initial, s)
    ensures Inv(initial, Next(s, a))
  {
    hide StandsBy, Perform;
    if a.Store? && CanStore(s, a.w) {
      PerformStands(s.writers[a.w].snapshot.value.record, initial, s.writers[a.w].snapshot.value.kept, s.writers[a.w]);
    }
  }

  lemma StartInv(p: Pattern)
    ensures Inv(p, Start(p))
  {
    NothingIsProper();
  }

  // ---------------------------------------------------------------- when no reward is lost

  /** Nobody stores between the writer's read and its store. */
  predicate Undisturbed(s: Sys, a: Action) {
    a.Store? && CanStore(s, a.w) ==> s.writers[a.w].snapshot.value.seen == |s.log|
  }

  ghost predicate AllUndisturbed(p: Pattern, history: seq<Action>) {
    forall i | 0 <= i < |history| :: Undisturbed(Exec(Start(p), history[..i]), history[i])
  }

  lemma UndisturbedNext(p: Pattern, history: seq<Action>)
    requires history != []
    ensures var front := history[..|history| - 1];
            AllUndisturbed(p, history) <==>
            AllUndisturbed(p, front) && Undisturbed(Exec(Start(p), front), history[|history| - 1])
  {
    hide Undisturbed, Exec;
    var front := history[..|history| - 1];
    assert forall i | 0 <= i < |front| :: front[..i] == history[..i] && front[i] == history[i];
    if AllUndisturbed(p, history) {
      forall i | 0 <= i < |front| ensures Undisturbed(Exec(Start(p), front[..i]), front[i]) {
        assert Undisturbed(Exec(Start(p), history[..i]), history[i]);
      }
    }
    if AllUndisturbed(p, front) && Undisturbed(Exec(Start(p), front), history[|history| - 1]) {
      forall i | 0 <= i < |history| ensures Undisturbed(Exec(Start(p), history[..i]), history[i]) {
        assert i < |front| ==> Undisturbed(Exec(Start(p), front[..i]), front[i]);
      }
    }
  }

  /** A reward that was lost once is lost for good. */
  lemma {:induction false} KeptIff(p: Pattern, history: seq<Action>)
    ensures var s := Exec(Start(p), history);
            && Inv(p, s)
            && (if AllUndisturbed(p, history) then s.kept == s.log else |s.kept| < |s.log|)
  {
    hide StandsBy, Perform;
    if history == [] {
      StartInv(p);
    } else {
      var front := history[..|history| - 1];
      KeptIff(p, front);
      NextKeeps(p, Exec(Start(p), front), history[|history| - 1]);
      UndisturbedNext(p, history);
      hide AllUndisturbed;
    }
  }

  lemma {:induction false} TotalsCount(rs: seq<Reward>)
    ensures TotalsOf(rs).wins + TotalsOf(rs).losses == |rs|
  {
    if rs != [] {
      TotalsCount(rs[..|rs| - 1]);
    }
  }

  lemma SameNumber(p: Pattern, initial: Pattern, t: Totals, u: Totals)
    requires PatternStands(p, initial, t) && PatternStands(p, initial, u)
    ensures t.wins + t.losses == u.wins + u.losses
  {
  }

  /** Under any interleaving of the writers, the pattern has all stored rewards if and only if nobody
      ever stored between another's read and its store. */
  lemma NoRewardIsLostIff(p: Pattern, history: seq<Action>)
    ensures var s := Exec(Start(p), history);
            PatternStands(s.record, p, TotalsOf(s.log)) <==> AllUndisturbed(p, history)
  {
    KeptIff(p, history);
    var s := Exec(Start(p), history);
    TotalsCount(s.kept);
    TotalsCount(s.log);
    if PatternStands(s.record, p, TotalsOf(s.log)) {
      SameNumber(s.record, p, TotalsOf(s.kept), TotalsOf(s.log));
    }
  }

  lemma ExecAppend(s: Sys, history: seq<Action>, a: Action)
    ensures Exec(s, history + [a]) == Next(Exec(s, history), a)
  {
    assert (history + [a])[..|history|] == history;
  }

  /** Both have read the pattern as it was. */
  function BothRead(p: Pattern, learned: Reward, direct: Reward): Sys {
    Sys(p, [Writer(learned, false, Some(Snapshot(p, [], 0))), Writer(direct, true, Some(Snapshot(p, [], 0)))], [], [])
  }

  lemma BothReadFirst(p: Pattern, learned: Reward, direct: Reward)
    ensures Exec(Start(p), [] + [Arrive(learned, false)] + [Arrive(direct, true)] + [Read(0)] + [Read(1)]) == BothRead(p, learned, direct)
  {
    hide Perform;
    ExecAppend(Start(p), [], Arrive(learned, false));
    ExecAppend(Start(p), [] + [Arrive(learned, false)], Arrive(direct, true));
    ExecAppend(Start(p), [] + [Arrive(learned, false)] + [Arrive(direct, true)], Read(0));
    ExecAppend(Start(p), [] + [Arrive(learned, false)] + [Arrive(direct, true)] + [Read(0)], Read(1));
  }

  /** A direct reward that reads before the applier stores, and stores after it, erases the applier's
      update although its event is APPLIED. */
  lemma DirectRewardErasesEvent(p: Pattern, learned: Reward, direct: Reward)
    requires Retrievable(p) && 0.0 <= learned.confidence <= 1.0 && 0.0 <= direct.confidence <= 1.0
    ensures exists history ::
              var s := Exec(Start(p), history);
              s.log == [learned, direct] && s.kept == [direct] && PatternStands(s.record, p, TotalsOf([direct]))
  {
    var h := [] + [Arrive(learned, false)] + [Arrive(direct, true)] + [Read(0)] + [Read(1)];
    BothReadFirst(p, learned, direct);
    ExecAppend(Start(p), h, Store(0));
    ExecAppend(Start(p), h + [Store(0)], Store(1));
    StoresErase(p, learned, direct);
    KeptIff(p, h + [Store(0)] + [Store(1)]);
  }

  lemma StoresErase(p: Pattern, learned: Reward, direct: Reward)
    requires Retrievable(p) && 0.0 <= learned.confidence <= 1.0 && 0.0 <= direct.confidence <= 1.0
    ensures var s := Next(Next(BothRead(p, learned, direct), Store(0)), Store(1)); s.log == [learned, direct] && s.kept == [direct]
  {
    PatternUpdateMoves(p, learned.amount, learned.confidence);
    PatternUpdateMoves(p, direct.amount, direct.confidence);
    hide ApplyPatternBetaUpdate, MaybePromote;
  }
}
