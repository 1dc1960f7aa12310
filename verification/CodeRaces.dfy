/**
 Lookups by interaction code, racing with each other and with resumes.

 The lookup finds a record by its code under the store's lock, and saves it as consumed
 later, under another. The steps are those of the racing store, with contexts of the Person
 Server: a lookup finds only a record whose code is live, and what it saves is consumed; a
 resume or a callback saves the context with its code as it was or, when it federates,
 another context without a code in its place.
 */
module CodeRaces {
  import opened Prelude
  import opened Deferral
  import opened PendingStore
  import opened Tokens
  import opened PersonServer
  import opened StoreRaces
  import opened RaceOutcomes

  type Person = PersonContext

  /** A lookup of some code can find the record. */
  predicate Live(record: Record<Person>) {
    record.context.code.Some? && Matches(record, record.context.code.value)
  }

  /** The step is a lookup that finds `id`. */
  predicate Finds(w: World<Person>, s: Step<Person>, id: string) {
    && s.Load? && s.thread in w.threads
    && w.threads[s.thread] == Starting(Begin, id) && id in w.store
  }

  /** What an edit outside a lookup does to the code: it stays as it is, or goes with the context it is part of. */
  predicate EditsCode(was: Person, now: Person, replacing: bool) {
    if replacing then now.code.None? && !now.codeConsumed
    else now.code == was.code && now.codeConsumed == was.codeConsumed
  }

  /** The step is one the Person Server takes. */
  predicate PersonStep(w: World<Person>, s: Step<Person>)
    requires Enabled(w, s)
  {
    match s
    case NewRequest(_, _, context, _) => !context.codeConsumed
    case Load(t) =>
      var th := w.threads[t];
      th.kind.Begin? ==> th.id in w.store && Live(w.store[th.id])
    case Edit(t, context, snapshot) =>
      var th := w.threads[t];
      if th.kind.Begin? then th.copy.(context := context, snapshot := snapshot) == Consumed(th.copy)
      else EditsCode(th.copy.context, context, th.Editing? && th.replacing)
    case Save(t) => w.threads[t].replacing ==> w.threads[t].copy.context.code.None?
    case Fail(t) => !w.threads[t].kind.Begin?
    case _ => true
  }

  predicate CodeRun(ttl: nat, steps: seq<Step<Person>>) {
    && ValidRun(ttl, steps)
    && (steps == [] ||
        var before := steps[..|steps| - 1];
        CodeRun(ttl, before) && PersonStep(Run(ttl, before), steps[|steps| - 1]))
  }

  /** How many lookups have found `id`. */
  function FindCount(ttl: nat, steps: seq<Step<Person>>, id: string): (r: nat)
    requires ValidRun(ttl, steps)
  {
    if steps == [] then 0
    else
      var before := steps[..|steps| - 1];
      FindCount(ttl, before, id) + if Finds(Run(ttl, before), steps[|steps| - 1], id) then 1 else 0
  }

  // ----- threads and codes -----

  /** The thread will put a live code back, unless an edit drops it. */
  predicate CarriesLive(th: Thread<Person>, id: string) {
    match th
    case Creating(record) => record.id == id && Live(record)
    case Editing(kind, edited, _, copy, replacing) => edited == id && !kind.Begin? && !replacing && Live(copy)
    case _ => false
  }

  ghost predicate LiveSomewhere(w: World<Person>, id: string) {
    || (id in w.store && Live(w.store[id]))
    || exists t :: t in w.threads && CarriesLive(w.threads[t], id)
  }

  /** What a lookup saves is consumed. */
  ghost predicate LookupsConsume(w: World<Person>) {
    forall t :: t in w.threads && w.threads[t].Editing? && w.threads[t].kind.Begin? ==> w.threads[t].copy.context.codeConsumed
  }

  lemma StepKeepsConsume(ttl: nat, w: World<Person>, s: Step<Person>)
    requires LookupsConsume(w) && Enabled(w, s) && PersonStep(w, s)
    ensures LookupsConsume(Next(ttl, w, s))
  {
  }

  lemma {:induction false} RunKeepsConsume(ttl: nat, steps: seq<Step<Person>>)
    requires CodeRun(ttl, steps)
    ensures LookupsConsume(Run(ttl, steps))
  {
    if steps != [] {
      var before := steps[..|steps| - 1];
      RunKeepsConsume(ttl, before);
      StepKeepsConsume(ttl, Run(ttl, before), steps[|steps| - 1]);
    }
  }

  /** A code that is live nowhere stays so, and no step finds it. */
  lemma StepStaysDead(ttl: nat, w: World<Person>, s: Step<Person>, id: string)
    requires LookupsConsume(w) && Enabled(w, s) && PersonStep(w, s)
    requires id in w.born && !LiveSomewhere(w, id)
    ensures var w' := Next(ttl, w, s); id in w'.born && !LiveSomewhere(w', id) && !Finds(w, s, id)
  {
    var w' := Next(ttl, w, s);
    forall t | t in w'.threads ensures !CarriesLive(w'.threads[t], id) {
      if s.Tick? || s.thread != t {
        OthersStay(ttl, w, s, t);
      }
      assert t in w.threads ==> !CarriesLive(w.threads[t], id);
    }
    assert !s.Tick? && s.thread in w.threads ==> !CarriesLive(w.threads[s.thread], id);
  }

  lemma {:induction false} StaysDead(ttl: nat, steps: seq<Step<Person>>, more: seq<Step<Person>>, id: string)
    requires CodeRun(ttl, steps) && CodeRun(ttl, steps + more)
    requires id in Run(ttl, steps).born && !LiveSomewhere(Run(ttl, steps), id)
    ensures id in Run(ttl, steps + more).born && !LiveSomewhere(Run(ttl, steps + more), id)
    ensures FindCount(ttl, steps + more, id) == FindCount(ttl, steps, id)
  {
    if more == [] {
      assert steps + more == steps;
    } else {
      var before := more[..|more| - 1];
      assert (steps + more)[..|steps + more| - 1] == steps + before;
      StaysDead(ttl, steps, before, id);
      RunKeepsConsume(ttl, steps + before);
      StepStaysDead(ttl, Run(ttl, steps + before), more[|more| - 1], id);
    }
  }

  lemma OneMorePersonStep(ttl: nat, steps: seq<Step<Person>>, s: Step<Person>, id: string)
    requires CodeRun(ttl, steps) && Enabled(Run(ttl, steps), s) && PersonStep(Run(ttl, steps), s)
    ensures CodeRun(ttl, steps + [s]) && Run(ttl, steps + [s]) == Next(ttl, Run(ttl, steps), s)
    ensures FindCount(ttl, steps + [s], id) == FindCount(ttl, steps, id) + if Finds(Run(ttl, steps), s, id) then 1 else 0
  {
    assert (steps + [s])[..|steps|] == steps;
  }

  lemma {:induction false} UnusedThread(taken: set<nat>) returns (t: nat)
    ensures forall u :: u in taken ==> u < t
  {
    t := 0;
    if taken != {} {
      var u :| u in taken;
      t := UnusedThread(taken - {u});
      t := if u < t then t else u + 1;
      assert forall v :: v in taken ==> v == u || v in taken - {u};
    }
  }

  ghost predicate FoundAgain(ttl: nat, steps: seq<Step<Person>>, n: nat, id: string) {
    exists more :: CodeRun(ttl, steps + more) && FindCount(ttl, steps + more, id) > n
  }

  lemma FoundLater(ttl: nat, steps: seq<Step<Person>>, s: Step<Person>, n: nat, id: string)
    requires FoundAgain(ttl, steps + [s], n, id)
    ensures FoundAgain(ttl, steps, n, id)
  {
    var more :| CodeRun(ttl, steps + [s] + more) && FindCount(ttl, steps + [s] + more, id) > n;
    assert steps + [s] + more == steps + ([s] + more);
  }

  lemma StoredLiveIsFound(ttl: nat, steps: seq<Step<Person>>, id: string)
    requires CodeRun(ttl, steps)
    requires id in Run(ttl, steps).store && Live(Run(ttl, steps).store[id])
    ensures FoundAgain(ttl, steps, FindCount(ttl, steps, id), id)
  {
    var t := UnusedThread(Run(ttl, steps).threads.Keys);
    var n := FindCount(ttl, steps, id);
    OneMorePersonStep(ttl, steps, Call(t, Begin, id), id);
    var called := steps + [Call(t, Begin, id)];
    OneMorePersonStep(ttl, called, Load(t), id);
    assert called + [Load(t)] + [] == called + [Load(t)];
    FoundLater(ttl, called, Load(t), n, id);
    FoundLater(ttl, steps, Call(t, Begin, id), n, id);
  }

  lemma CarriedIsFound(ttl: nat, steps: seq<Step<Person>>, t: nat, id: string)
    requires CodeRun(ttl, steps)
    requires t in Run(ttl, steps).threads && CarriesLive(Run(ttl, steps).threads[t], id)
    ensures FoundAgain(ttl, steps, FindCount(ttl, steps, id), id)
  {
    var s: Step<Person> := if Run(ttl, steps).threads[t].Creating? then Create(t) else Save(t);
    OneMorePersonStep(ttl, steps, s, id);
    StoredLiveIsFound(ttl, steps + [s], id);
    FoundLater(ttl, steps, s, FindCount(ttl, steps, id), id);
  }

  /** Another lookup can still find the record if and only if its code is live in the store or in a copy that will be saved as it is. */
  lemma FoundAgainExactly(ttl: nat, steps: seq<Step<Person>>, id: string)
    requires CodeRun(ttl, steps) && id in Run(ttl, steps).born
    ensures FoundAgain(ttl, steps, FindCount(ttl, steps, id), id) <==> LiveSomewhere(Run(ttl, steps), id)
  {
    var w := Run(ttl, steps);
    if LiveSomewhere(w, id) {
      if id in w.store && Live(w.store[id]) {
        StoredLiveIsFound(ttl, steps, id);
      } else {
        var t :| t in w.threads && CarriesLive(w.threads[t], id);
        CarriedIsFound(ttl, steps, t, id);
      }
    } else {
      forall more | CodeRun(ttl, steps + more) ensures FindCount(ttl, steps + more, id) == FindCount(ttl, steps, id) {
        StaysDead(ttl, steps, more, id);
      }
    }
  }

  // ----- at most one lookup -----

  /** A lookup that has found `id` and has not saved or removed it yet. */
  predicate LookupUnderWay(th: Thread<Person>, id: string) {
    match th
    case Loaded(kind, found, _) => kind.Begin? && found == id
    case Stale(kind, found, _) => kind.Begin? && found == id
    case Working(kind, found, _, _) => kind.Begin? && found == id
    case Editing(kind, found, _, _, _) => kind.Begin? && found == id
    case _ => false
  }

  ghost predicate NoneUnderWay(w: World<Person>, id: string) {
    forall t :: t in w.threads ==> !LookupUnderWay(w.threads[t], id)
  }

  ghost predicate NoneCarries(w: World<Person>, id: string) {
    forall t :: t in w.threads ==> !CarriesLive(w.threads[t], id)
  }

  /** No lookup finds `id` while another is under way or a live copy of it is out, and no call copies it live during a lookup. */
  ghost predicate SerialStep(w: World<Person>, s: Step<Person>, id: string)
    requires Enabled(w, s)
  {
    && (Finds(w, s, id) ==> NoneUnderWay(w, id) && NoneCarries(w, id))
    && (s.LoadAgain? && !s.replacing && w.threads[s.thread].id == id && id in w.store && Live(w.store[id]) ==> NoneUnderWay(w, id))
  }

  ghost predicate SerialRun(ttl: nat, steps: seq<Step<Person>>, id: string)
    requires ValidRun(ttl, steps)
  {
    steps == [] ||
    (SerialRun(ttl, steps[..|steps| - 1], id) && SerialStep(Run(ttl, steps[..|steps| - 1]), steps[|steps| - 1], id))
  }

  /** After one find: a single lookup is under way, or the code is live nowhere. */
  ghost predicate FoundOnce(w: World<Person>, id: string) {
    && id in w.born && NoneCarries(w, id)
    && (id in w.store && Live(w.store[id]) ==> exists t :: t in w.threads && LookupUnderWay(w.threads[t], id))
    && forall t, u :: t in w.threads && u in w.threads && LookupUnderWay(w.threads[t], id) && LookupUnderWay(w.threads[u], id) ==> t == u
  }

  lemma StepBeforeFind(ttl: nat, w: World<Person>, s: Step<Person>, id: string)
    requires Inv(ttl, w) && Enabled(w, s) && PersonStep(w, s) && SerialStep(w, s, id) && NoneUnderWay(w, id)
    ensures var w' := Next(ttl, w, s);
            if Finds(w, s, id) then FoundOnce(w', id) else NoneUnderWay(w', id)
  {
    if Finds(w, s, id) {
      assert LookupUnderWay(Next(ttl, w, s).threads[s.thread], id);
    }
  }

  lemma LookupGoesOn(ttl: nat, w: World<Person>, s: Step<Person>, t: nat, id: string)
    requires Enabled(w, s) && PersonStep(w, s) && LookupsConsume(w)
    requires t in w.threads && LookupUnderWay(w.threads[t], id)
    ensures var w' := Next(ttl, w, s);
            && t in w'.threads
            && (LookupUnderWay(w'.threads[t], id) || (id in w'.store ==> !Live(w'.store[id])))
  {
  }

  lemma DeadStaysDead(ttl: nat, w: World<Person>, s: Step<Person>, id: string)
    requires Enabled(w, s) && PersonStep(w, s) && LookupsConsume(w) && NoneCarries(w, id)
    requires id in w.store ==> !Live(w.store[id])
    ensures var w' := Next(ttl, w, s); id in w'.store ==> !Live(w'.store[id])
  {
    if s.Save? || s.Create? {
      assert !CarriesLive(w.threads[s.thread], id);
    }
  }

  lemma StillNoneCarries(ttl: nat, w: World<Person>, s: Step<Person>, t: nat, id: string)
    requires Enabled(w, s) && PersonStep(w, s) && SerialStep(w, s, id) && FoundOnce(w, id)
    requires t in Next(ttl, w, s).threads
    ensures !CarriesLive(Next(ttl, w, s).threads[t], id)
  {
    if s.Tick? || s.thread != t {
      OthersStay(ttl, w, s, t);
    } else if t in w.threads {
      assert !CarriesLive(w.threads[t], id);
    }
  }

  lemma NotFoundTwice(w: World<Person>, s: Step<Person>, id: string)
    requires Enabled(w, s) && PersonStep(w, s) && SerialStep(w, s, id) && FoundOnce(w, id)
    ensures !Finds(w, s, id)
  {
  }

  /** A lookup is under way after a step only if it was before, or has just found the record. */
  lemma WasUnderWay(ttl: nat, w: World<Person>, s: Step<Person>, t: nat, id: string)
    requires Enabled(w, s) && t in Next(ttl, w, s).threads && LookupUnderWay(Next(ttl, w, s).threads[t], id)
    ensures Finds(w, s, id) || (t in w.threads && LookupUnderWay(w.threads[t], id))
  {
  }

  lemma StepAfterFind(ttl: nat, w: World<Person>, s: Step<Person>, id: string)
    requires Enabled(w, s) && PersonStep(w, s) && SerialStep(w, s, id) && LookupsConsume(w) && FoundOnce(w, id)
    ensures !Finds(w, s, id) && FoundOnce(Next(ttl, w, s), id)
  {
    var w' := Next(ttl, w, s);
    NotFoundTwice(w, s, id);
    forall t | t in w'.threads ensures !CarriesLive(w'.threads[t], id) {
      StillNoneCarries(ttl, w, s, t, id);
    }
    forall t | t in w'.threads && LookupUnderWay(w'.threads[t], id) ensures t in w.threads && LookupUnderWay(w.threads[t], id) {
      WasUnderWay(ttl, w, s, t, id);
    }
    if id in w.store && Live(w.store[id]) {
      var t :| t in w.threads && LookupUnderWay(w.threads[t], id);
      LookupGoesOn(ttl, w, s, t, id);
    } else {
      DeadStaysDead(ttl, w, s, id);
    }
  }

  lemma {:induction false} SerialRunFinds(ttl: nat, steps: seq<Step<Person>>, id: string)
    requires CodeRun(ttl, steps) && SerialRun(ttl, steps, id)
    ensures var n, w := FindCount(ttl, steps, id), Run(ttl, steps);
            (n == 0 && NoneUnderWay(w, id)) || (n == 1 && FoundOnce(w, id))
  {
    if steps != [] {
      var before, s := steps[..|steps| - 1], steps[|steps| - 1];
      SerialRunFinds(ttl, before, id);
      RunKeepsInv(ttl, before);
      RunKeepsConsume(ttl, before);
      if FindCount(ttl, before, id) == 0 {
        StepBeforeFind(ttl, Run(ttl, before), s, id);
      } else {
        StepAfterFind(ttl, Run(ttl, before), s, id);
      }
    }
  }

  /** In a serial run at most one lookup finds the record. */
  lemma SerialLookupsFindOnce(ttl: nat, steps: seq<Step<Person>>, id: string)
    requires CodeRun(ttl, steps) && SerialRun(ttl, steps, id)
    ensures FindCount(ttl, steps, id) <= 1
  {
    SerialRunFinds(ttl, steps, id);
  }

  lemma {:induction false} UnderWayWasFound(ttl: nat, steps: seq<Step<Person>>, id: string)
    requires ValidRun(ttl, steps) && FindCount(ttl, steps, id) == 0
    ensures NoneUnderWay(Run(ttl, steps), id)
  {
    if steps != [] {
      var before := steps[..|steps| - 1];
      UnderWayWasFound(ttl, before, id);
      forall t | t in Run(ttl, steps).threads ensures !LookupUnderWay(Run(ttl, steps).threads[t], id) {
        if LookupUnderWay(Run(ttl, steps).threads[t], id) {
          WasUnderWay(ttl, Run(ttl, before), steps[|steps| - 1], t, id);
        }
      }
    }
  }

  /** ... and no weaker order is enough: after a step that is not serial, some continuation finds the record a second time. */
  lemma UnserialStepAllowsTwo(ttl: nat, steps: seq<Step<Person>>, s: Step<Person>, id: string)
    requires CodeRun(ttl, steps) && Enabled(Run(ttl, steps), s) && PersonStep(Run(ttl, steps), s)
    requires !SerialStep(Run(ttl, steps), s, id)
    ensures FoundAgain(ttl, steps + [s], 1, id)
  {
    var w := Run(ttl, steps);
    var after := steps + [s];
    OneMorePersonStep(ttl, steps, s, id);
    if !NoneUnderWay(w, id) && Finds(w, s, id) {
      if FindCount(ttl, steps, id) == 0 {
        UnderWayWasFound(ttl, steps, id);
      }
      assert after + [] == after;
    } else if Finds(w, s, id) {
      var t :| t in w.threads && CarriesLive(w.threads[t], id);
      OthersStay(ttl, w, s, t);
      CarriedIsFound(ttl, after, t, id);
    } else {
      if FindCount(ttl, steps, id) == 0 {
        UnderWayWasFound(ttl, steps, id);
      }
      StoredLiveIsFound(ttl, after, id);
    }
  }

  // ----- two ways to find one record twice -----

  ghost predicate Reached(ttl: nat, w: World<Person>, id: string, found: nat) {
    exists steps :: CodeRun(ttl, steps) && Run(ttl, steps) == w && FindCount(ttl, steps, id) == found
  }

  lemma Extended(ttl: nat, w: World<Person>, id: string, found: nat, s: Step<Person>)
    requires Reached(ttl, w, id, found) && Enabled(w, s) && PersonStep(w, s)
    ensures Reached(ttl, Next(ttl, w, s), id, found + if Finds(w, s, id) then 1 else 0)
  {
    var steps :| CodeRun(ttl, steps) && Run(ttl, steps) == w && FindCount(ttl, steps, id) == found;
    OneMorePersonStep(ttl, steps, s, id);
  }

  lemma OneRecordReachedByPerson(ttl: nat, id: string, context: Person)
    requires !context.codeConsumed
    ensures Reached(ttl, OneRecord(ttl, id, context), id, 0)
  {
    var start: World<Person> := Start();
    assert Reached(ttl, start, id, 0) by {
      var none: seq<Step<Person>> := [];
      assert CodeRun(ttl, none) && Run(ttl, none) == start && FindCount(ttl, none, id) == 0;
    }
    var request: Step<Person> := NewRequest(0, id, context, Approval);
    Extended(ttl, start, id, 0, request);
    Extended(ttl, Next(ttl, start, request), id, 0, Create(0));
    assert Next(ttl, Next(ttl, start, request), Create(0)) == OneRecord(ttl, id, context);
  }

  /** A call that loads the record. */
  lemma CallLoads(ttl: nat, w: World<Person>, id: string, found: nat, t: nat, kind: Kind)
    requires Reached(ttl, w, id, found) && t !in w.threads && id in w.store
    requires kind.Begin? ==> Live(w.store[id])
    ensures Reached(ttl, w.(threads := w.threads[t := Loaded(kind, id, w.store[id])]), id, found + if kind.Begin? then 1 else 0)
  {
    var w1 := w.(threads := w.threads[t := Starting(kind, id)]);
    Extended(ttl, w, id, found, Call(t, kind, id));
    Extended(ttl, w1, id, found, Load(t));
    assert Next(ttl, w1, Load(t)) == w.(threads := w.threads[t := Loaded(kind, id, w.store[id])]);
  }

  /** ... and passes its check. */
  lemma CallChecks(ttl: nat, w: World<Person>, id: string, found: nat, t: nat, kind: Kind, copy: Record<Person>)
    requires var w' := w.(threads := w.threads[t := Loaded(kind, id, copy)]); Reached(ttl, w', id, found)
    requires !kind.Poll? && !IsExpired(copy, w.now)
    ensures Reached(ttl, w.(threads := w.threads[t := Working(kind, id, w.now, copy)]), id, found)
  {
    var w' := w.(threads := w.threads[t := Loaded(kind, id, copy)]);
    Extended(ttl, w', id, found, Check(t));
    assert Next(ttl, w', Check(t)) == w.(threads := w.threads[t := Working(kind, id, w.now, copy)]);
  }

  lemma LookupFinds(ttl: nat, w: World<Person>, id: string, found: nat, t: nat)
    requires Reached(ttl, w, id, found) && t !in w.threads && id in w.store && Live(w.store[id]) && !IsExpired(w.store[id], w.now)
    ensures Reached(ttl, w.(threads := w.threads[t := Working(Begin, id, w.now, w.store[id])]), id, found + 1)
  {
    CallLoads(ttl, w, id, found, t, Begin);
    CallChecks(ttl, w, id, found + 1, t, Begin, w.store[id]);
  }

  /** ... marks its copy and saves it. */
  lemma LookupSaves(ttl: nat, w: World<Person>, id: string, found: nat, t: nat)
    requires Reached(ttl, w, id, found) && t in w.threads && w.threads[t].Working? && w.threads[t].kind.Begin?
    ensures var th := w.threads[t];
            Reached(ttl, w.(store := w.store[th.id := Consumed(th.copy)],
                            threads := w.threads[t := Done(Begin, th.id, Some(th.checkedAt), false)]), id, found)
  {
    var th := w.threads[t];
    var edited := Consumed(th.copy);
    var w1 := w.(threads := w.threads[t := Editing(Begin, th.id, th.checkedAt, edited, false)]);
    Extended(ttl, w, id, found, Edit(t, edited.context, edited.snapshot));
    assert Next(ttl, w, Edit(t, edited.context, edited.snapshot)) == w1;
    Extended(ttl, w1, id, found, Save(t));
    assert Next(ttl, w1, Save(t))
        == w.(store := w.store[th.id := edited], threads := w.threads[t := Done(Begin, th.id, Some(th.checkedAt), false)]);
  }

  lemma WorkerCopies(ttl: nat, w: World<Person>, id: string, found: nat, t: nat, copy: Record<Person>)
    requires var w' := w.(threads := w.threads[t := Working(Resume, id, w.now, copy)]); Reached(ttl, w', id, found)
    requires id in w.store
    ensures Reached(ttl, w.(threads := w.threads[t := Editing(Resume, id, w.now, w.store[id], false)]), id, found)
  {
    var w' := w.(threads := w.threads[t := Working(Resume, id, w.now, copy)]);
    Extended(ttl, w', id, found, LoadAgain(t, false));
    assert Next(ttl, w', LoadAgain(t, false)) == w.(threads := w.threads[t := Editing(Resume, id, w.now, w.store[id], false)]);
  }

  /** A resume that defers again copies the record. */
  lemma ResumeCopies(ttl: nat, w: World<Person>, id: string, found: nat, t: nat)
    requires Reached(ttl, w, id, found) && t !in w.threads && id in w.store && !IsExpired(w.store[id], w.now)
    ensures Reached(ttl, w.(threads := w.threads[t := Editing(Resume, id, w.now, w.store[id], false)]), id, found)
  {
    CallLoads(ttl, w, id, found, t, Resume);
    CallChecks(ttl, w, id, found, t, Resume, w.store[id]);
    WorkerCopies(ttl, w, id, found, t, w.store[id]);
  }

  /** Two lookups hold the record as it was before either. */
  function BothWorking(ttl: nat, id: string, context: Person): (r: World<Person>) {
    var w, found := OneRecord(ttl, id, context), Working(Begin, id, 0, Fresh(ttl, id, context));
    w.(threads := w.threads[1 := found][2 := found])
  }

  lemma BothFind(ttl: nat, id: string, context: Person)
    requires context.code.Some? && !context.codeConsumed
    ensures Reached(ttl, BothWorking(ttl, id, context), id, 2)
  {
    var w0 := OneRecord(ttl, id, context);
    OneRecordReachedByPerson(ttl, id, context);
    LookupFinds(ttl, w0, id, 0, 1);
    var w1 := w0.(threads := w0.threads[1 := Working(Begin, id, 0, w0.store[id])]);
    LookupFinds(ttl, w1, id, 1, 2);
  }

  /** Both lookups find the record before either saves it: the code is presented twice, and both calls redirect and complete. */
  lemma TwoLookupsCanBothFind(
    ttl: nat, id: string, context: Person, code: string, claim: InteractionClaim, cfg: PersonConfig, env: Env, url: string)
    requires context.code == Some(code) && !context.codeConsumed && context.resourceInteraction == Some(claim)
    requires env.now == 0 && env.redirect(claim, CallbackUrl(cfg, id)) == Some(url)
    ensures Reached(ttl, BothWorking(ttl, id, context), id, 2)
    ensures Matches(Fresh(ttl, id, context), code)
    ensures Begun(cfg, map[id := Fresh(ttl, id, context)], Some(id), env).1 == Ok(Redirect(url))
  {
    BothFind(ttl, id, context);
  }

  lemma BothLookupsComplete(ttl: nat, id: string, context: Person, code: string)
    requires context.code == Some(code) && !context.codeConsumed
    ensures exists w ::
              && Reached(ttl, w, id, 2)
              && 1 in w.threads && w.threads[1] == Done(Begin, id, Some(0), false)
              && 2 in w.threads && w.threads[2] == Done(Begin, id, Some(0), false)
              && id in w.store && !Matches(w.store[id], code)
  {
    var w2 := BothWorking(ttl, id, context);
    var saved := Consumed(Fresh(ttl, id, context));
    BothFind(ttl, id, context);
    LookupSaves(ttl, w2, id, 2, 1);
    var w3 := w2.(store := w2.store[id := saved], threads := w2.threads[1 := Done(Begin, id, Some(0), false)]);
    LookupSaves(ttl, w3, id, 2, 2);
    var w4 := w3.(store := w3.store[id := saved], threads := w3.threads[2 := Done(Begin, id, Some(0), false)]);
    assert Reached(ttl, w4, id, 2);
  }

  /** A resume that copied the record during a lookup saves it afterwards: the consumed code can be found again. */
  lemma ResumeCanReviveACode(ttl: nat, id: string, context: Person, code: string)
    requires context.code == Some(code) && !context.codeConsumed
    ensures exists w ::
              && Reached(ttl, w, id, 1)
              && 1 in w.threads && w.threads[1] == Done(Begin, id, Some(0), false)
              && 2 in w.threads && w.threads[2] == Done(Resume, id, Some(0), false)
              && id in w.store && Matches(w.store[id], code)
  {
    var w0 := OneRecord(ttl, id, context);
    OneRecordReachedByPerson(ttl, id, context);
    LookupFinds(ttl, w0, id, 0, 1);
    var w1 := w0.(threads := w0.threads[1 := Working(Begin, id, 0, w0.store[id])]);
    ResumeCopies(ttl, w1, id, 1, 2);
    var w2 := w1.(threads := w1.threads[2 := Editing(Resume, id, 0, w1.store[id], false)]);
    LookupSaves(ttl, w2, id, 1, 1);
    var w3 := w2.(store := w2.store[id := Consumed(w0.store[id])], threads := w2.threads[1 := Done(Begin, id, Some(0), false)]);
    Extended(ttl, w3, id, 1, Save(2));
    assert Reached(ttl, Next(ttl, w3, Save(2)), id, 1);
  }
}
