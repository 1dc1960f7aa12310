/**
 Calls racing on one pending store.

 The store locks around each single operation, so calls interleave between their
 operations while holding copies of records. A thread is one call: its state says which
 operation it performs next and what copy it holds. Nothing is assumed about the order
 of steps except that time does not run backwards and new ids are fresh.
 */
module StoreRaces {
  import opened Prelude
  import opened Deferral
  import opened PendingStore

  datatype Kind = Poll | Resume | Callback | Begin

  datatype Thread<C> =
    | Starting(kind: Kind, id: string)                                // next: load
    | Loaded(kind: Kind, id: string, copy: Record<C>)                 // next: compare with the clock
    | Stale(kind: Kind, id: string, checkedAt: nat)                   // next: remove
    | Working(kind: Kind, id: string, checkedAt: nat, copy: Record<C>)  // next: complete, remove, load again, or fail
    | Editing(kind: Kind, id: string, checkedAt: nat, copy: Record<C>, replacing: bool)  // next: save the edited copy
    | Creating(record: Record<C>)                                     // next: create
    | Done(kind: Kind, id: string, checked: Option<nat>, gone: bool)
    | Opened(id: string)

  datatype Step<C> =
    | Tick(to: nat)
    | Call(thread: nat, kind: Kind, id: string)
    | NewRequest(thread: nat, freshId: string, context: C, requirement: Requirement)
    | Create(thread: nat)
    | Load(thread: nat)
    | Check(thread: nat)
    | Remove(thread: nat)
    | CompleteWith(thread: nat, outcome: Outcome)
    | LoadAgain(thread: nat, replacing: bool)  // to put a new context in place of the record's, or to keep it
    | Edit(thread: nat, context: C, snapshot: Snapshot)
    | Save(thread: nat)
    | Fail(thread: nat)

  /** `born` remembers when each id was made. */
  datatype World<C> = World(now: nat, store: Records<C>, threads: map<nat, Thread<C>>, born: map<string, nat>)

  predicate Enabled<C>(w: World<C>, s: Step<C>) {
    match s
    case Tick(to) => w.now <= to
    case Call(t, _, id) => t !in w.threads
    case NewRequest(t, id, _, _) => t !in w.threads && id !in w.born
    case Create(t) => t in w.threads && w.threads[t].Creating?
    case Load(t) => t in w.threads && w.threads[t].Starting?
    case Check(t) => t in w.threads && w.threads[t].Loaded?
    case Remove(t) =>
      && t in w.threads
      && (w.threads[t].Stale? || (w.threads[t].Working? && w.threads[t].kind.Resume?))
    case CompleteWith(t, _) => t in w.threads && w.threads[t].Working? && w.threads[t].kind in {Resume, Callback}
    case LoadAgain(t, _) =>
      t in w.threads && w.threads[t].Working? && w.threads[t].kind in {Resume, Callback}
    case Edit(t, _, _) => t in w.threads && (w.threads[t].Editing? || (w.threads[t].Working? && w.threads[t].kind.Begin?))
    case Save(t) => t in w.threads && w.threads[t].Editing?
    case Fail(t) => t in w.threads && w.threads[t].Working?
  }

  /** A poll answers from its copy; a call that works goes on or fails. */
  function Next<C>(ttl: nat, w: World<C>, s: Step<C>): (r: World<C>)
    requires Enabled(w, s)
  {
    match s
    case Tick(to) => w.(now := to)
    case Call(t, kind, id) => w.(threads := w.threads[t := Starting(kind, id)])
    case NewRequest(t, id, context, requirement) =>
      w.(threads := w.threads[t := Creating(NewRecord(id, context, Waiting(Pending, requirement), ttl, w.now))],
         born := w.born[id := w.now])
    case Create(t) =>
      var record := w.threads[t].record;
      w.(store := w.store[record.id := record], threads := w.threads[t := Opened(record.id)])
    case Load(t) =>
      var th := w.threads[t];
      if th.id in w.store then w.(threads := w.threads[t := Loaded(th.kind, th.id, w.store[th.id])])
      else w.(threads := w.threads[t := Done(th.kind, th.id, None, true)])
    case Check(t) =>
      var th := w.threads[t];
      if IsExpired(th.copy, w.now) then w.(threads := w.threads[t := Stale(th.kind, th.id, w.now)])
      else if th.kind.Poll? then w.(threads := w.threads[t := Done(th.kind, th.id, Some(w.now), false)])
      else w.(threads := w.threads[t := Working(th.kind, th.id, w.now, th.copy)])
    case Remove(t) =>
      var th := w.threads[t];
      w.(store := Removed(w.store, th.id), threads := w.threads[t := Done(th.kind, th.id, Some(th.checkedAt), true)])
    case CompleteWith(t, outcome) =>
      var th := w.threads[t];
      w.(store := Completed(w.store, th.id, outcome),
         threads := w.threads[t := Done(th.kind, th.id, Some(th.checkedAt), false)])
    case LoadAgain(t, replacing) =>
      var th := w.threads[t];
      if th.id in w.store then w.(threads := w.threads[t := Editing(th.kind, th.id, th.checkedAt, w.store[th.id], replacing)])
      else w.(threads := w.threads[t := Done(th.kind, th.id, Some(th.checkedAt), true)])
    case Edit(t, context, snapshot) =>
      var th := w.threads[t];
      w.(threads := w.threads[t :=
           Editing(th.kind, th.id, th.checkedAt, th.copy.(context := context, snapshot := snapshot), th.Editing? && th.replacing)])
    case Save(t) =>
      var th := w.threads[t];
      w.(store := w.store[th.id := th.copy], threads := w.threads[t := Done(th.kind, th.id, Some(th.checkedAt), false)])
    case Fail(t) =>
      var th := w.threads[t];
      w.(threads := w.threads[t := Done(th.kind, th.id, Some(th.checkedAt), false)])
  }

  function Start<C>(): (r: World<C>) { World(0, map[], map[], map[]) }

  predicate ValidRun<C>(ttl: nat, steps: seq<Step<C>>)
    decreases |steps|, 0
  {
    steps == [] ||
    (ValidRun(ttl, steps[..|steps| - 1]) && Enabled(Run(ttl, steps[..|steps| - 1]), steps[|steps| - 1]))
  }

  function Run<C>(ttl: nat, steps: seq<Step<C>>): (r: World<C>)
    requires ValidRun(ttl, steps)
    decreases |steps|, 1
  {
    if steps == [] then Start() else Next(ttl, Run(ttl, steps[..|steps| - 1]), steps[|steps| - 1])
  }

  /** A copy of a record, wherever it is, keeps the id it is filed under and the lifetime it was made with. */
  predicate CopyOk<C>(ttl: nat, born: map<string, nat>, id: string, copy: Record<C>) {
    copy.id == id && id in born && copy.createdAt == born[id] && copy.expiresAt == born[id] + ttl
  }

  predicate InTime(ttl: nat, born: map<string, nat>, id: string, at: nat) {
    id in born && at <= born[id] + ttl
  }

  predicate ThreadOk<C>(ttl: nat, born: map<string, nat>, th: Thread<C>) {
    match th
    case Starting(_, _) => true
    case Loaded(_, id, copy) => CopyOk(ttl, born, id, copy)
    case Stale(_, id, at) => id in born && !InTime(ttl, born, id, at)
    case Working(kind, id, at, copy) => !kind.Poll? && CopyOk(ttl, born, id, copy) && InTime(ttl, born, id, at)
    case Editing(_, id, at, copy, _) => CopyOk(ttl, born, id, copy) && InTime(ttl, born, id, at)
    case Creating(record) => CopyOk(ttl, born, record.id, record)
    case Done(_, id, at, gone) =>
      && (at.Some? ==> id in born)
      && (!gone ==> at.Some? && InTime(ttl, born, id, at.value))
    case Opened(id) => id in born
  }

  ghost predicate Inv<C>(ttl: nat, w: World<C>) {
    && (forall id :: id in w.store ==> CopyOk(ttl, w.born, id, w.store[id]))
    && (forall t :: t in w.threads ==> ThreadOk(ttl, w.born, w.threads[t]))
    && (forall id :: id in w.born ==> w.born[id] <= w.now)
  }

  // ----- one step -----

  /** A step moves one thread, at most one stored record, and never changes what is remembered of an id. */
  ghost predicate StepOk<C>(ttl: nat, w: World<C>, w': World<C>) {
    && w.now <= w'.now
    && (forall id :: id in w.born ==> id in w'.born && w'.born[id] == w.born[id])
    && (forall id :: id in w'.born && id !in w.born ==> w'.born[id] == w'.now)
    && (forall id :: id in w'.store ==>
          (id in w.store && w'.store[id] == w.store[id]) || CopyOk(ttl, w'.born, id, w'.store[id]))
    && (forall t :: t in w'.threads ==>
          (t in w.threads && w'.threads[t] == w.threads[t]) || ThreadOk(ttl, w'.born, w'.threads[t]))
  }

  /** The thread that acts is replaced by one that is still in order. */
  lemma ActingThread<C>(ttl: nat, w: World<C>, s: Step<C>, t: nat)
    requires Inv(ttl, w) && Enabled(w, s)
    requires !s.Tick? && t == s.thread
    ensures var w' := Next(ttl, w, s);
            && t in w'.threads && ThreadOk(ttl, w'.born, w'.threads[t]) && w'.threads == w.threads[t := w'.threads[t]]
  {
    assert t in w.threads ==> ThreadOk(ttl, w.born, w.threads[t]);
  }

  /** Every record written comes from a copy that is in order. */
  lemma WrittenRecords<C>(ttl: nat, w: World<C>, s: Step<C>)
    requires Inv(ttl, w) && Enabled(w, s)
    ensures var w' := Next(ttl, w, s);
            forall id :: id in w'.store ==>
              (id in w.store && w'.store[id] == w.store[id]) || CopyOk(ttl, w'.born, id, w'.store[id])
  {
    if s.Create? || s.Save? || s.CompleteWith? || s.Remove? {
      assert ThreadOk(ttl, w.born, w.threads[s.thread]);
    }
  }

  lemma StepKeeps<C>(ttl: nat, w: World<C>, s: Step<C>)
    requires Inv(ttl, w) && Enabled(w, s)
    ensures StepOk(ttl, w, Next(ttl, w, s))
  {
    WrittenRecords(ttl, w, s);
    if !s.Tick? {
      ActingThread(ttl, w, s, s.thread);
    }
  }

  lemma ThreadStays<C>(ttl: nat, born: map<string, nat>, born': map<string, nat>, th: Thread<C>)
    requires forall id :: id in born ==> id in born' && born'[id] == born[id]
    requires ThreadOk(ttl, born, th)
    ensures ThreadOk(ttl, born', th)
  {
  }

  lemma StepKeepsInv<C>(ttl: nat, w: World<C>, w': World<C>)
    requires Inv(ttl, w) && StepOk(ttl, w, w')
    ensures Inv(ttl, w')
  {
    forall t | t in w'.threads ensures ThreadOk(ttl, w'.born, w'.threads[t]) {
      if t in w.threads && w'.threads[t] == w.threads[t] {
        ThreadStays(ttl, w.born, w'.born, w.threads[t]);
      }
    }
  }

  // ----- every run -----

  lemma {:induction false} RunKeepsInv<C>(ttl: nat, steps: seq<Step<C>>)
    requires ValidRun(ttl, steps)
    ensures Inv(ttl, Run(ttl, steps))
  {
    if steps != [] {
      RunKeepsInv(ttl, steps[..|steps| - 1]);
      var w := Run(ttl, steps[..|steps| - 1]);
      StepKeeps(ttl, w, steps[|steps| - 1]);
      StepKeepsInv(ttl, w, Run(ttl, steps));
    }
  }

  /**
   No step extends a pending request: whatever raced with it, a finished call whose check
   ran after the record's lifetime answered Gone, and one that did anything else ran its
   check in time. Copies put back by a racing save are covered too.
   */
  lemma LateChecksAnswerGone<C>(ttl: nat, steps: seq<Step<C>>, t: nat)
    requires ValidRun(ttl, steps) && t in Run(ttl, steps).threads && Run(ttl, steps).threads[t].Done?
    ensures var w, th := Run(ttl, steps), Run(ttl, steps).threads[t];
            && (th.checked.Some? ==> th.id in w.born && (th.checked.value > w.born[th.id] + ttl ==> th.gone))
            && (!th.gone ==> th.checked.Some? && th.id in w.born && th.checked.value <= w.born[th.id] + ttl)
  {
    RunKeepsInv(ttl, steps);
    assert ThreadOk(ttl, Run(ttl, steps).born, Run(ttl, steps).threads[t]);
  }

  /** The next check of any copy goes by the birth of the id, however often it was rewritten. */
  lemma CheckGoesByBirth<C>(ttl: nat, steps: seq<Step<C>>, t: nat)
    requires ValidRun(ttl, steps) && Enabled(Run(ttl, steps), Check(t))
    ensures var w := Run(ttl, steps);
            && w.threads[t].id in w.born
            && (Next(ttl, w, Check(t)).threads[t].Stale? <==> w.now > w.born[w.threads[t].id] + ttl)
  {
    RunKeepsInv(ttl, steps);
    assert ThreadOk(ttl, Run(ttl, steps).born, Run(ttl, steps).threads[t]);
  }

  lemma {:induction false} BirthIsFixed<C>(ttl: nat, steps: seq<Step<C>>, i: nat, id: string)
    requires ValidRun(ttl, steps) && i <= |steps| && ValidRun(ttl, steps[..i])
    requires id in Run(ttl, steps[..i]).born
    ensures id in Run(ttl, steps).born && Run(ttl, steps).born[id] == Run(ttl, steps[..i]).born[id]
  {
    if i == |steps| {
      assert steps[..i] == steps;
    } else {
      var before := steps[..|steps| - 1];
      assert before[..i] == steps[..i];
      BirthIsFixed(ttl, before, i, id);
      RunKeepsInv(ttl, before);
      StepKeeps(ttl, Run(ttl, before), steps[|steps| - 1]);
    }
  }

  // ----- what interleaving can do -----

  ghost predicate Reachable<C(!new)>(ttl: nat, w: World<C>) {
    exists steps: seq<Step<C>> :: ValidRun(ttl, steps) && Run(ttl, steps) == w
  }

  lemma Extend<C(!new)>(ttl: nat, w: World<C>, s: Step<C>)
    requires Reachable(ttl, w) && Enabled(w, s)
    ensures Reachable(ttl, Next(ttl, w, s))
  {
    var steps: seq<Step<C>> :| ValidRun(ttl, steps) && Run(ttl, steps) == w;
    assert (steps + [s])[..|steps|] == steps;
    assert ValidRun(ttl, steps + [s]) && Run(ttl, steps + [s]) == Next(ttl, w, s);
  }

  function Fresh<C>(ttl: nat, id: string, context: C): (r: Record<C>) {
    NewRecord(id, context, Waiting(Pending, Approval), ttl, 0)
  }

  /** One record, stored and untouched. */
  function OneRecord<C>(ttl: nat, id: string, context: C): (r: World<C>) {
    World(0, map[id := Fresh(ttl, id, context)], map[0 := Opened(id)], map[id := 0])
  }

  lemma OneRecordReached<C(!new)>(ttl: nat, id: string, context: C)
    ensures Reachable(ttl, OneRecord(ttl, id, context))
  {
    var start: World<C> := Start();
    assert Reachable(ttl, start) by {
      var none: seq<Step<C>> := [];
      assert ValidRun(ttl, none) && Run(ttl, none) == start;
    }
    var request: Step<C> := NewRequest(0, id, context, Approval);
    Extend(ttl, start, request);
    Extend(ttl, Next(ttl, start, request), Create(0));
    assert Next(ttl, Next(ttl, start, request), Create(0)) == OneRecord(ttl, id, context);
  }

  /** A call that loads the record and passes its check. */
  lemma OneWorker<C(!new)>(ttl: nat, w: World<C>, t: nat, kind: Kind, id: string)
    requires Reachable(ttl, w) && t !in w.threads && id in w.store && !IsExpired(w.store[id], w.now) && !kind.Poll?
    ensures Reachable(ttl, w.(threads := w.threads[t := Working(kind, id, w.now, w.store[id])]))
  {
    var w1 := Next(ttl, w, Call(t, kind, id));
    var w2 := Next(ttl, w1, Load(t));
    Extend(ttl, w, Call(t, kind, id));
    Extend(ttl, w1, Load(t));
    Extend(ttl, w2, Check(t));
    assert Next(ttl, w2, Check(t)) == w.(threads := w.threads[t := Working(kind, id, w.now, w.store[id])]);
  }

  /** ... and, as a resume that defers again, loads it once more to edit it. */
  lemma OneEditor<C(!new)>(ttl: nat, w: World<C>, t: nat, id: string)
    requires Reachable(ttl, w) && t !in w.threads && id in w.store && !IsExpired(w.store[id], w.now)
    ensures Reachable(ttl, w.(threads := w.threads[t := Editing(Resume, id, w.now, w.store[id], false)]))
  {
    OneWorker(ttl, w, t, Resume, id);
    var w1 := w.(threads := w.threads[t := Working(Resume, id, w.now, w.store[id])]);
    Extend(ttl, w1, LoadAgain(t, false));
    assert Next(ttl, w1, LoadAgain(t, false)) == w.(threads := w.threads[t := Editing(Resume, id, w.now, w.store[id], false)]);
  }

  lemma PollLoads<C(!new)>(ttl: nat, w: World<C>, t: nat, id: string)
    requires Reachable(ttl, w) && t !in w.threads && id in w.store
    ensures Reachable(ttl, w.(threads := w.threads[t := Loaded(Poll, id, w.store[id])]))
  {
    var w1 := w.(threads := w.threads[t := Starting(Poll, id)]);
    Extend(ttl, w, Call(t, Poll, id));
    Extend(ttl, w1, Load(t));
    assert Next(ttl, w1, Load(t)) == w.(threads := w.threads[t := Loaded(Poll, id, w.store[id])]);
  }

  /** A poll that finds an expired record removes it. */
  lemma StalePoll<C(!new)>(ttl: nat, w: World<C>, t: nat, id: string)
    requires Reachable(ttl, w) && t !in w.threads && id in w.store && IsExpired(w.store[id], w.now)
    ensures Reachable(ttl, w.(store := Removed(w.store, id), threads := w.threads[t := Done(Poll, id, Some(w.now), true)]))
  {
    PollLoads(ttl, w, t, id);
    var w2 := w.(threads := w.threads[t := Loaded(Poll, id, w.store[id])]);
    var w3 := w.(threads := w.threads[t := Stale(Poll, id, w.now)]);
    Extend(ttl, w2, Check(t));
    assert Next(ttl, w2, Check(t)) == w3;
    Extend(ttl, w3, Remove(t));
    assert Next(ttl, w3, Remove(t))
        == w.(store := Removed(w.store, id), threads := w.threads[t := Done(Poll, id, Some(w.now), true)]);
  }

  /** A racing save can put an expired record back after a poll removed it. */
  lemma RemovedRecordCanComeBack<C(!new)>(ttl: nat, id: string, context: C)
    ensures exists w: World<C> ::
              && Reachable(ttl, w)
              && 2 in w.threads && w.threads[2] == Done(Poll, id, Some(ttl + 1), true)
              && id in w.store && IsExpired(w.store[id], w.now)
  {
    var w0 := OneRecord(ttl, id, context);
    OneRecordReached(ttl, id, context);
    OneEditor(ttl, w0, 1, id);
    var w1 := w0.(threads := w0.threads[1 := Editing(Resume, id, 0, w0.store[id], false)]);
    var w2 := Next(ttl, w1, Tick(ttl + 1));
    Extend(ttl, w1, Tick(ttl + 1));
    StalePoll(ttl, w2, 2, id);
    var w3 := w2.(store := Removed(w2.store, id), threads := w2.threads[2 := Done(Poll, id, Some(w2.now), true)]);
    Extend(ttl, w3, Save(1));
    assert Reachable(ttl, Next(ttl, w3, Save(1)));
  }

  /** Thread 1 holds a copy it will save, thread 2 is about to finish the same record. */
  lemma EditorAndWorker<C(!new)>(ttl: nat, id: string, context: C) returns (w: World<C>)
    ensures Reachable(ttl, w) && id in w.store && 1 in w.threads && 2 in w.threads
    ensures w.threads[1] == Editing(Resume, id, 0, Fresh(ttl, id, context), false)
    ensures w.threads[2] == Working(Resume, id, 0, Fresh(ttl, id, context))
  {
    var w0 := OneRecord(ttl, id, context);
    OneRecordReached(ttl, id, context);
    OneEditor(ttl, w0, 1, id);
    var w1 := w0.(threads := w0.threads[1 := Editing(Resume, id, 0, w0.store[id], false)]);
    OneWorker(ttl, w1, 2, Resume, id);
    w := w1.(threads := w1.threads[2 := Working(Resume, id, 0, w1.store[id])]);
  }

  /** A racing save can overwrite a finished outcome. */
  lemma OutcomeCanBeLost<C(!new)>(ttl: nat, id: string, context: C, outcome: Outcome)
    ensures exists w: World<C> ::
              && Reachable(ttl, w)
              && id in w.store && w.store[id].snapshot == Complete(outcome)
              && Enabled(w, Save(1)) && id in Next(ttl, w, Save(1)).store
              && Next(ttl, w, Save(1)).store[id].snapshot.Waiting?
  {
    var w2 := EditorAndWorker(ttl, id, context);
    Extend(ttl, w2, CompleteWith(2, outcome));
    assert Reachable(ttl, Next(ttl, w2, CompleteWith(2, outcome)));
  }
}
