/**
 When racing calls keep a finished outcome, and when a removed record comes back.

 Both follow from single steps: which of them write the id, and what the writing thread
 carries.
 */
module RaceOutcomes {
  import opened Prelude
  import opened Deferral
  import opened PendingStore
  import opened StoreRaces

  // ----- a record being created belongs to nobody else -----

  /** The thread acts on an id it has found or is about to create. */
  predicate Touches<C>(th: Thread<C>, id: string) {
    match th
    case Loaded(_, loaded, _) => loaded == id
    case Stale(_, stale, _) => stale == id
    case Working(_, worked, _, _) => worked == id
    case Editing(_, edited, _, _, _) => edited == id
    case Creating(record) => record.id == id
    case _ => false
  }

  ghost predicate Alone<C>(w: World<C>, t: nat)
    requires t in w.threads && w.threads[t].Creating?
  {
    && w.threads[t].record.id !in w.store
    && forall u :: u in w.threads && u != t ==> !Touches(w.threads[u], w.threads[t].record.id)
  }

  ghost predicate CreatingAlone<C>(w: World<C>) {
    forall t :: t in w.threads && w.threads[t].Creating? ==> Alone(w, t)
  }

  /** The thread that acts, if any, does not touch the id. */
  predicate Elsewhere<C>(w: World<C>, s: Step<C>, id: string) {
    !s.Tick? && s.thread in w.threads ==> !Touches(w.threads[s.thread], id)
  }

  lemma NothingFromNowhere<C>(ttl: nat, w: World<C>, s: Step<C>, id: string)
    requires Enabled(w, s) && id in w.born && id !in w.store && Elsewhere(w, s, id)
    ensures var w' := Next(ttl, w, s);
            id !in w'.store && (!s.Tick? ==> s.thread in w'.threads && !Touches(w'.threads[s.thread], id))
  {
  }

  lemma OthersStay<C>(ttl: nat, w: World<C>, s: Step<C>, t: nat)
    requires Enabled(w, s) && (s.Tick? || s.thread != t)
    ensures var w' := Next(ttl, w, s);
            && (t in w'.threads <==> t in w.threads)
            && (t in w.threads ==> w'.threads[t] == w.threads[t])
  {
  }

  lemma StaysAlone<C>(ttl: nat, w: World<C>, s: Step<C>, t: nat)
    requires Inv(ttl, w) && Enabled(w, s)
    requires t in w.threads && w.threads[t].Creating? && Alone(w, t) && (s.Tick? || s.thread != t)
    ensures var w' := Next(ttl, w, s); t in w'.threads && w'.threads[t].Creating? && Alone(w', t)
  {
    var w', id := Next(ttl, w, s), w.threads[t].record.id;
    assert ThreadOk(ttl, w.born, w.threads[t]);
    OthersStay(ttl, w, s, t);
    NothingFromNowhere(ttl, w, s, id);
    forall u | u in w'.threads && u != t ensures !Touches(w'.threads[u], id) {
      if s.Tick? || s.thread != u {
        OthersStay(ttl, w, s, u);
      }
    }
  }

  lemma BornAlone<C>(ttl: nat, w: World<C>, s: Step<C>)
    requires Inv(ttl, w) && Enabled(w, s) && s.NewRequest?
    ensures var w' := Next(ttl, w, s); s.thread in w'.threads && w'.threads[s.thread].Creating? && Alone(w', s.thread)
  {
    var w' := Next(ttl, w, s);
    forall u | u in w'.threads && u != s.thread ensures !Touches(w'.threads[u], s.freshId) {
      OthersStay(ttl, w, s, u);
      assert ThreadOk(ttl, w.born, w.threads[u]);
    }
  }

  lemma OnlyNewRequestsCreate<C>(ttl: nat, w: World<C>, s: Step<C>)
    requires Enabled(w, s) && !s.Tick? && s.thread in Next(ttl, w, s).threads
    requires Next(ttl, w, s).threads[s.thread].Creating?
    ensures s.NewRequest?
  {
  }

  lemma StepKeepsAlone<C>(ttl: nat, w: World<C>, s: Step<C>)
    requires Inv(ttl, w) && CreatingAlone(w) && Enabled(w, s)
    ensures CreatingAlone(Next(ttl, w, s))
  {
    var w' := Next(ttl, w, s);
    forall t | t in w'.threads && w'.threads[t].Creating? ensures Alone(w', t) {
      if s.Tick? || s.thread != t {
        OthersStay(ttl, w, s, t);
        StaysAlone(ttl, w, s, t);
      } else {
        OnlyNewRequestsCreate(ttl, w, s);
        BornAlone(ttl, w, s);
      }
    }
  }

  lemma {:induction false} RunKeepsAlone<C>(ttl: nat, steps: seq<Step<C>>)
    requires ValidRun(ttl, steps)
    ensures CreatingAlone(Run(ttl, steps))
  {
    if steps != [] {
      var before := steps[..|steps| - 1];
      RunKeepsAlone(ttl, before);
      RunKeepsInv(ttl, before);
      StepKeepsAlone(ttl, Run(ttl, before), steps[|steps| - 1]);
    }
  }

  // ----- a finished outcome -----

  predicate Holds<C>(store: Records<C>, id: string, outcome: Outcome) {
    id in store && store[id].snapshot == Complete(outcome)
  }

  /** The step does not write the id, or writes the same outcome to it. */
  predicate Keeps<C>(w: World<C>, s: Step<C>, id: string, outcome: Outcome)
    requires Enabled(w, s)
  {
    match s
    case Remove(t) => w.threads[t].id != id
    case CompleteWith(t, written) => w.threads[t].id != id || written == outcome
    case Save(t) => w.threads[t].id != id || w.threads[t].copy.snapshot == Complete(outcome)
    case _ => true
  }

  lemma KeptExactly<C>(ttl: nat, w: World<C>, s: Step<C>, id: string, outcome: Outcome)
    requires CreatingAlone(w) && Enabled(w, s) && Holds(w.store, id, outcome)
    ensures Holds(Next(ttl, w, s).store, id, outcome) <==> Keeps(w, s, id, outcome)
  {
    if s.Create? {
      assert Alone(w, s.thread);
    }
  }

  /** The world before each step of a run, and after the last. */
  function Worlds<C>(ttl: nat, steps: seq<Step<C>>): (r: seq<World<C>>)
    requires ValidRun(ttl, steps)
    ensures |r| == |steps| + 1 && r[|steps|] == Run(ttl, steps)
  {
    if steps == [] then [Start()] else Worlds(ttl, steps[..|steps| - 1]) + [Run(ttl, steps)]
  }

  predicate KeepsAt<C>(w: World<C>, s: Step<C>, id: string, outcome: Outcome) {
    Enabled(w, s) && Keeps(w, s, id, outcome)
  }

  lemma {:induction false} StepAt<C>(ttl: nat, steps: seq<Step<C>>, k: nat, id: string, outcome: Outcome)
    requires ValidRun(ttl, steps) && k < |steps| && Holds(Worlds(ttl, steps)[k].store, id, outcome)
    ensures var worlds := Worlds(ttl, steps);
            Holds(worlds[k + 1].store, id, outcome) <==> KeepsAt(worlds[k], steps[k], id, outcome)
  {
    var before := steps[..|steps| - 1];
    if k < |before| {
      StepAt(ttl, before, k, id, outcome);
    } else {
      RunKeepsAlone(ttl, before);
      KeptExactly(ttl, Run(ttl, before), steps[k], id, outcome);
    }
  }

  lemma {:induction false} Chain<C>(worlds: seq<World<C>>, steps: seq<Step<C>>, i: nat, id: string, outcome: Outcome)
    requires |worlds| == |steps| + 1 && i <= |steps| && Holds(worlds[i].store, id, outcome)
    requires forall k :: i <= k < |steps| && Holds(worlds[k].store, id, outcome) ==>
               (Holds(worlds[k + 1].store, id, outcome) <==> KeepsAt(worlds[k], steps[k], id, outcome))
    ensures (forall k :: i <= k <= |steps| ==> Holds(worlds[k].store, id, outcome))
            <==> (forall k :: i <= k < |steps| ==> KeepsAt(worlds[k], steps[k], id, outcome))
    decreases |steps| - i
  {
    if i < |steps| && Holds(worlds[i + 1].store, id, outcome) {
      Chain(worlds, steps, i + 1, id, outcome);
    }
  }

  /** Under every interleaving an outcome stays from step `i` on if and only if every later step keeps it. */
  lemma OutcomeLastsExactly<C>(ttl: nat, steps: seq<Step<C>>, i: nat, id: string, outcome: Outcome)
    requires ValidRun(ttl, steps) && i <= |steps| && Holds(Worlds(ttl, steps)[i].store, id, outcome)
    ensures var worlds := Worlds(ttl, steps);
            (forall k :: i <= k <= |steps| ==> Holds(worlds[k].store, id, outcome))
            <==> (forall k :: i <= k < |steps| ==> KeepsAt(worlds[k], steps[k], id, outcome))
  {
    forall k | i <= k < |steps| && Holds(Worlds(ttl, steps)[k].store, id, outcome)
      ensures Holds(Worlds(ttl, steps)[k + 1].store, id, outcome) <==> KeepsAt(Worlds(ttl, steps)[k], steps[k], id, outcome)
    {
      StepAt(ttl, steps, k, id, outcome);
    }
    Chain(Worlds(ttl, steps), steps, i, id, outcome);
  }

  // ----- a record that was removed -----

  /** The thread can still write the id without finding it in the store again. */
  predicate CanRestore<C>(th: Thread<C>, id: string, now: nat) {
    match th
    case Creating(record) => record.id == id
    case Editing(_, edited, _, _, _) => edited == id
    case Working(kind, worked, _, _) => worked == id && kind.Begin?
    case Loaded(kind, loaded, copy) => loaded == id && kind.Begin? && !IsExpired(copy, now)
    case _ => false
  }

  ghost predicate Restorable<C>(w: World<C>, id: string) {
    exists t :: t in w.threads && CanRestore(w.threads[t], id, w.now)
  }

  /** A missing record is back after a step exactly when the step saves or creates it. */
  lemma BackExactly<C>(ttl: nat, w: World<C>, s: Step<C>, id: string)
    requires Enabled(w, s) && id !in w.store
    ensures id in Next(ttl, w, s).store
            <==> (s.Save? && w.threads[s.thread].id == id) || (s.Create? && w.threads[s.thread].record.id == id)
  {
  }

  lemma StepStaysGone<C>(ttl: nat, w: World<C>, s: Step<C>, id: string)
    requires Enabled(w, s) && id in w.born && id !in w.store && !Restorable(w, id)
    ensures var w' := Next(ttl, w, s); id in w'.born && id !in w'.store && !Restorable(w', id)
  {
    var w' := Next(ttl, w, s);
    forall t | t in w'.threads ensures !CanRestore(w'.threads[t], id, w'.now) {
      if s.Tick? || s.thread != t {
        OthersStay(ttl, w, s, t);
      }
      assert t in w.threads ==> !CanRestore(w.threads[t], id, w.now);
    }
    if !s.Tick? && s.thread in w.threads {
      assert !CanRestore(w.threads[s.thread], id, w.now);
    }
  }

  lemma {:induction false} StaysGone<C>(ttl: nat, steps: seq<Step<C>>, more: seq<Step<C>>, id: string)
    requires ValidRun(ttl, steps) && ValidRun(ttl, steps + more)
    requires var w := Run(ttl, steps); id in w.born && id !in w.store && !Restorable(w, id)
    ensures var w := Run(ttl, steps + more); id in w.born && id !in w.store && !Restorable(w, id)
  {
    if more == [] {
      assert steps + more == steps;
    } else {
      var before := more[..|more| - 1];
      assert (steps + more)[..|steps + more| - 1] == steps + before;
      StaysGone(ttl, steps, before, id);
      StepStaysGone(ttl, Run(ttl, steps + before), more[|more| - 1], id);
    }
  }

  lemma OneMore<C>(ttl: nat, steps: seq<Step<C>>, s: Step<C>)
    requires ValidRun(ttl, steps) && Enabled(Run(ttl, steps), s)
    ensures ValidRun(ttl, steps + [s]) && Run(ttl, steps + [s]) == Next(ttl, Run(ttl, steps), s)
  {
    assert (steps + [s])[..|steps|] == steps;
  }

  /** The steps by which a thread that can restore a record does so. */
  function Restoring<C>(th: Thread<C>, t: nat): (r: seq<Step<C>>) {
    match th
    case Creating(_) => [Create(t)]
    case Editing(_, _, _, _, _) => [Save(t)]
    case Working(_, _, _, copy) => [Edit(t, copy.context, copy.snapshot), Save(t)]
    case Loaded(_, _, copy) => [Check(t), Edit(t, copy.context, copy.snapshot), Save(t)]
    case _ => []
  }

  lemma RestoringStep<C>(ttl: nat, w: World<C>, t: nat, id: string)
    requires t in w.threads && CanRestore(w.threads[t], id, w.now)
    ensures var s := Restoring(w.threads[t], t)[0];
            && Enabled(w, s)
            && var w' := Next(ttl, w, s);
               && t in w'.threads
               && (id in w'.store || CanRestore(w'.threads[t], id, w'.now))
               && |Restoring(w'.threads[t], t)| < |Restoring(w.threads[t], t)|
  {
  }

  lemma {:induction false} RestoredBy<C>(ttl: nat, steps: seq<Step<C>>, t: nat, id: string)
    requires ValidRun(ttl, steps)
    requires var w := Run(ttl, steps); t in w.threads && CanRestore(w.threads[t], id, w.now)
    ensures exists more :: ValidRun(ttl, steps + more) && id in Run(ttl, steps + more).store
    decreases |Restoring(Run(ttl, steps).threads[t], t)|
  {
    var s := Restoring(Run(ttl, steps).threads[t], t)[0];
    RestoringStep(ttl, Run(ttl, steps), t, id);
    OneMore(ttl, steps, s);
    if id !in Run(ttl, steps + [s]).store {
      RestoredBy(ttl, steps + [s], t, id);
      BackLater(ttl, steps, s, id);
    }
  }

  lemma BackLater<C>(ttl: nat, steps: seq<Step<C>>, s: Step<C>, id: string)
    requires exists more :: ValidRun(ttl, steps + [s] + more) && id in Run(ttl, steps + [s] + more).store
    ensures exists more :: ValidRun(ttl, steps + more) && id in Run(ttl, steps + more).store
  {
    var more :| ValidRun(ttl, steps + [s] + more) && id in Run(ttl, steps + [s] + more).store;
    assert steps + [s] + more == steps + ([s] + more);
  }

  /** A record that is gone can come back if and only if a thread still carries a copy it will save unasked. */
  lemma ComesBackExactly<C(!new)>(ttl: nat, steps: seq<Step<C>>, id: string)
    requires ValidRun(ttl, steps) && id in Run(ttl, steps).born && id !in Run(ttl, steps).store
    ensures (exists more :: ValidRun(ttl, steps + more) && id in Run(ttl, steps + more).store)
            <==> Restorable(Run(ttl, steps), id)
  {
    if Restorable(Run(ttl, steps), id) {
      var t :| t in Run(ttl, steps).threads && CanRestore(Run(ttl, steps).threads[t], id, Run(ttl, steps).now);
      RestoredBy(ttl, steps, t, id);
    } else {
      forall more | ValidRun(ttl, steps + more) ensures id !in Run(ttl, steps + more).store {
        StaysGone(ttl, steps, more, id);
      }
    }
  }
}
