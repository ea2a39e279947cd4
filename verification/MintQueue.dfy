/** The oracle server's mint queue: one worker at a time draining a queue on an event loop, with
    retries on timers. Every asynchronous function is cut at each `await`; between two cuts the
    loop runs one piece of code to its end, and the pieces interleave in any order. */
module MintQueue {

  type ProofKey = string

  /** One accepted proof. The program keeps its key and failed attempts; `id` tells apart entries that
      happen to carry the same proof, and `calls` and `successes` record what became of it: how often
      it was minted, and how often that succeeded. */
  datatype Entry = Entry(id: nat, key: ProofKey, attempts: nat, calls: nat, successes: nat)

  /** What a suspended worker is waiting for. */
  datatype Phase =
    | Minting(entry: Entry)
    | StoringMinted(entry: Entry)
    | StoringRetry(entry: Entry)
    | StoringGivenUp(entry: Entry)
    | StoringCaught(entry: Entry)

  /** How an awaited call ends. */
  datatype Outcome = Succeeded | Failed | Threw

  datatype Limits = Limits(queueMax: int, maxAttempts: int)

  /** The module's variables, the pending `setImmediate` callbacks and timers, the suspended workers;
      and, for the statements below, the entries done with and how many there have been. */
  datatype State = State(
    queue: seq<Entry>, ids: set<ProofKey>, running: bool,
    scheduled: nat, timers: seq<Entry>, workers: seq<Phase>,
    finished: seq<Entry>, nextId: nat)

  function Initial(): State {
    State([], {}, false, 0, [], [], [], 0)
  }

  function Cut<T>(ts: seq<T>, i: nat): seq<T>
    requires i < |ts|
  {
    ts[..i] + ts[i + 1..]
  }

  // ------------------------------------------------------------- the pieces

  /** The end of `enqueueMint`: push, and schedule a wake-up. */
  function Push(s: State, e: Entry): State {
    s.(queue := s.queue + [e], scheduled := s.scheduled + 1)
  }

  predicate Refused(s: State, limits: Limits, key: ProofKey) {
    key in s.ids || limits.queueMax <= |s.queue|
  }

  /** `enqueueMint` for a new proof; a refused one changes nothing. */
  function Enqueue(s: State, limits: Limits, key: ProofKey): State {
    if Refused(s, limits, key) then s
    else Push(s.(ids := s.ids + {key}, nextId := s.nextId + 1), Entry(s.nextId, key, 0, 0, 0))
  }

  /** The worker's loop head: take the next entry and call `mintEnergy`, or stop. On leaving the loop the
      queue is empty, so the final test schedules nothing. */
  function LoopHead(s: State): State {
    if s.queue == [] then s.(running := false)
    else
      var e := s.queue[0];
      s.(queue := s.queue[1..], ids := s.ids - {e.key}, workers := s.workers + [Minting(e.(calls := e.calls + 1))])
  }

  /** A `setImmediate` callback entering `mintQueueWorker`. */
  function WakeUp(s: State): State
    requires 0 < s.scheduled
  {
    var s' := s.(scheduled := s.scheduled - 1);
    if s'.running then s' else LoopHead(s'.(running := true))
  }

  /** A retry timer calling `enqueueMint` with `force`. */
  function Fire(s: State, i: nat): State
    requires i < |s.timers|
  {
    Push(s.(timers := Cut(s.timers, i)), s.timers[i])
  }

  function Suspend(s: State, phase: Phase): State {
    s.(workers := s.workers + [phase])
  }

  function Finish(s: State, e: Entry): State {
    LoopHead(s.(finished := s.finished + [e]))
  }

  /** A worker resumed from its `await`, up to its next one. */
  function Resume(s: State, limits: Limits, i: nat, outcome: Outcome): State
    requires i < |s.workers|
  {
    var e := s.workers[i].entry;
    var s' := s.(workers := Cut(s.workers, i));
    match s.workers[i]
    case Minting(_) =>
      if outcome == Threw then Suspend(s', StoringCaught(e))
      else if outcome == Succeeded then Suspend(s', StoringMinted(e.(successes := e.successes + 1)))
      else
        var tried := e.(attempts := e.attempts + 1);
        Suspend(s', if tried.attempts < limits.maxAttempts then StoringRetry(tried) else StoringGivenUp(tried))
    case StoringMinted(_) => if outcome == Threw then Suspend(s', StoringCaught(e)) else Finish(s', e)
    case StoringRetry(_) =>
      if outcome == Threw then Suspend(s', StoringCaught(e)) else LoopHead(s'.(timers := s.timers + [e]))
    case StoringGivenUp(_) => if outcome == Threw then Suspend(s', StoringCaught(e)) else Finish(s', e)
    case StoringCaught(_) => Finish(s', e)
  }

  // ------------------------------------------------------------- interleavings

  datatype Step =
    | EnqueueStep(key: ProofKey)
    | WakeUpStep
    | FireStep(timer: nat)
    | ResumeStep(worker: nat, outcome: Outcome)

  predicate Enabled(s: State, step: Step) {
    match step
    case EnqueueStep(_) => true
    case WakeUpStep => 0 < s.scheduled
    case FireStep(i) => i < |s.timers|
    case ResumeStep(i, _) => i < |s.workers|
  }

  function Next(s: State, limits: Limits, step: Step): State {
    if !Enabled(s, step) then s
    else
      match step
      case EnqueueStep(key) => Enqueue(s, limits, key)
      case WakeUpStep => WakeUp(s)
      case FireStep(i) => Fire(s, i)
      case ResumeStep(i, outcome) => Resume(s, limits, i, outcome)
  }

  function Run(limits: Limits, steps: seq<Step>): State {
    if steps == [] then Initial() else Next(Run(limits, steps[..|steps| - 1]), limits, steps[|steps| - 1])
  }

  // ------------------------------------------------------------- one worker, and no lost wake-up

  ghost predicate SingleWorker(s: State) {
    |s.workers| == if s.running then 1 else 0
  }

  ghost predicate Awake(s: State) {
    s.queue != [] ==> s.running || 0 < s.scheduled
  }

  /** Every queued key still marked in `ids` really is in the queue. */
  ghost predicate MarkedAreQueued(s: State) {
    forall key :: key in s.ids ==> exists i :: 0 <= i < |s.queue| && s.queue[i].key == key
  }

  lemma {:induction false} LoopHeadKeeps(s: State)
    requires s.workers == [] && s.running && MarkedAreQueued(s)
    ensures SingleWorker(LoopHead(s)) && Awake(LoopHead(s)) && MarkedAreQueued(LoopHead(s))
  {
    if s.queue != [] {
      var t := LoopHead(s);
      forall key | key in t.ids ensures exists i :: 0 <= i < |t.queue| && t.queue[i].key == key {
        var i :| 0 <= i < |s.queue| && s.queue[i].key == key;
        assert t.queue[i - 1].key == key;
      }
    }
  }

  lemma {:induction false} PushKeeps(s: State, e: Entry, ids: set<ProofKey>)
    requires SingleWorker(s) && ids <= s.ids + {e.key} && MarkedAreQueued(s)
    ensures var t := Push(s.(ids := ids), e); SingleWorker(t) && Awake(t) && MarkedAreQueued(t)
  {
    var t := Push(s.(ids := ids), e);
    forall key | key in t.ids ensures exists i :: 0 <= i < |t.queue| && t.queue[i].key == key {
      if key in s.ids {
        var i :| 0 <= i < |s.queue| && s.queue[i].key == key;
        assert t.queue[i].key == key;
      } else {
        assert t.queue[|s.queue|].key == key;
      }
    }
  }

  lemma {:induction false} LoopKeeps(s: State, limits: Limits, step: Step)
    requires SingleWorker(s) && Awake(s) && MarkedAreQueued(s)
    ensures var t := Next(s, limits, step); SingleWorker(t) && Awake(t) && MarkedAreQueued(t)
  {
    if Enabled(s, step) {
      match step
      case EnqueueStep(key) =>
        if !Refused(s, limits, key) {
          PushKeeps(s.(nextId := s.nextId + 1), Entry(s.nextId, key, 0, 0, 0), s.ids + {key});
        }
      case WakeUpStep =>
        if !s.running {
          LoopHeadKeeps(s.(scheduled := s.scheduled - 1, running := true));
        }
      case FireStep(i) => PushKeeps(s.(timers := Cut(s.timers, i)), s.timers[i], s.ids);
      case ResumeStep(i, outcome) =>
        assert i == 0 && Cut(s.workers, 0) == [];
        ResumeKeeps(s, limits, outcome);
    }
  }

  lemma {:induction false} ResumeKeeps(s: State, limits: Limits, outcome: Outcome)
    requires |s.workers| == 1 && s.running && MarkedAreQueued(s)
    ensures var t := Resume(s, limits, 0, outcome); SingleWorker(t) && Awake(t) && MarkedAreQueued(t)
  {
    var e := s.workers[0].entry;
    var s' := s.(workers := []);
    assert Cut(s.workers, 0) == [];
    match s.workers[0]
    case Minting(_) =>
    case StoringRetry(_) => LoopHeadKeeps(s'.(timers := s.timers + [e]));
    case _ => LoopHeadKeeps(s'.(finished := s.finished + [e]));
  }

  /** In every interleaving at most one worker is past its guard, exactly while `mintWorkerRunning` is set;
      a queue that is not empty has a running worker or a scheduled wake-up; and a key marked as queued is. */
  lemma {:induction false} OneWorkerAndNoLostWakeUp(limits: Limits, steps: seq<Step>)
    ensures var s := Run(limits, steps);
            && |s.workers| == (if s.running then 1 else 0)
            && (s.queue != [] ==> s.running || 0 < s.scheduled)
            && MarkedAreQueued(s)
  {
    if steps == [] {
    } else {
      OneWorkerAndNoLostWakeUp(limits, steps[..|steps| - 1]);
      LoopKeeps(Run(limits, steps[..|steps| - 1]), limits, steps[|steps| - 1]);
    }
  }

  /** A new proof is refused only when the same proof is queued or the queue is full. */
  lemma {:induction false} RefusedOnlyWhenQueuedOrFull(limits: Limits, steps: seq<Step>, key: ProofKey)
    requires Refused(Run(limits, steps), limits, key)
    ensures var s := Run(limits, steps);
            (exists i :: 0 <= i < |s.queue| && s.queue[i].key == key) || limits.queueMax <= |s.queue|
  {
    OneWorkerAndNoLostWakeUp(limits, steps);
  }

  // ------------------------------------------------------------- every entry is in one place

  function IdsOf(es: seq<Entry>): (ids: seq<nat>)
    ensures |ids| == |es| && forall i :: 0 <= i < |es| ==> ids[i] == es[i].id
  {
    seq(|es|, i requires 0 <= i < |es| => es[i].id)
  }

  function EntriesOf(workers: seq<Phase>): (es: seq<Entry>)
    ensures |es| == |workers| && forall i :: 0 <= i < |es| ==> es[i] == workers[i].entry
  {
    seq(|workers|, i requires 0 <= i < |workers| => workers[i].entry)
  }

  function Tally(es: seq<Entry>): multiset<nat> {
    multiset(IdsOf(es))
  }

  /** How often each entry occurs in the queue, on a timer, in flight, or among the finished. */
  function Places(s: State): multiset<nat> {
    Tally(s.queue) + Tally(s.timers) + Tally(EntriesOf(s.workers)) + Tally(s.finished)
  }

  lemma {:induction false} TallyAppend(es: seq<Entry>, e: Entry)
    ensures Tally(es + [e]) == Tally(es) + multiset{e.id}
  {
    assert IdsOf(es + [e]) == IdsOf(es) + [e.id];
  }

  lemma {:induction false} TallyCut(es: seq<Entry>, i: nat)
    requires i < |es|
    ensures Tally(Cut(es, i)) + multiset{es[i].id} == Tally(es)
  {
    var ids := IdsOf(es);
    assert IdsOf(Cut(es, i)) == ids[..i] + ids[i + 1..];
    assert ids == ids[..i] + [ids[i]] + ids[i + 1..];
  }

  lemma {:induction false} WorkersAppend(workers: seq<Phase>, phase: Phase)
    ensures Tally(EntriesOf(workers + [phase])) == Tally(EntriesOf(workers)) + multiset{phase.entry.id}
  {
    assert EntriesOf(workers + [phase]) == EntriesOf(workers) + [phase.entry];
    TallyAppend(EntriesOf(workers), phase.entry);
  }

  lemma {:induction false} WorkersCut(workers: seq<Phase>, i: nat)
    requires i < |workers|
    ensures Tally(EntriesOf(Cut(workers, i))) + multiset{workers[i].entry.id} == Tally(EntriesOf(workers))
  {
    assert EntriesOf(Cut(workers, i)) == Cut(EntriesOf(workers), i);
    TallyCut(EntriesOf(workers), i);
  }

  /** One element leaves one place for another. */
  lemma {:induction false} Moved(fromLess: multiset<nat>, from: multiset<nat>, to: multiset<nat>, toMore: multiset<nat>, id: nat)
    requires fromLess + multiset{id} == from && toMore == to + multiset{id}
    ensures fromLess + toMore == from + to
  {
  }

  lemma {:induction false} LoopHeadPlaces(s: State)
    ensures Places(LoopHead(s)) == Places(s) && LoopHead(s).nextId == s.nextId
  {
    if s.queue != [] {
      var t, phase := LoopHead(s), Minting(s.queue[0].(calls := s.queue[0].calls + 1));
      TallyCut(s.queue, 0);
      assert Cut(s.queue, 0) == t.queue;
      WorkersAppend(s.workers, phase);
      assert t.workers == s.workers + [phase];
      Moved(Tally(t.queue), Tally(s.queue), Tally(EntriesOf(s.workers)), Tally(EntriesOf(t.workers)), s.queue[0].id);
      SamePlaces(s, t, Tally(t.queue) + Tally(EntriesOf(t.workers)));
    }
  }

  lemma {:induction false} SamePlaces(s: State, t: State, moving: multiset<nat>)
    requires t.timers == s.timers && t.finished == s.finished
    requires Tally(s.queue) + Tally(EntriesOf(s.workers)) == moving == Tally(t.queue) + Tally(EntriesOf(t.workers))
    ensures Places(t) == Places(s)
  {
    assert Places(s) == moving + Tally(s.timers) + Tally(s.finished);
    assert Places(t) == moving + Tally(t.timers) + Tally(t.finished);
  }

  lemma {:induction false} SuspendPlaces(s: State, t: State, i: nat, phase: Phase)
    requires i < |s.workers| && phase.entry.id == s.workers[i].entry.id
    requires t == Suspend(s.(workers := Cut(s.workers, i)), phase)
    ensures Places(t) == Places(s)
  {
    WorkersCut(s.workers, i);
    WorkersAppend(Cut(s.workers, i), phase);
  }

  lemma {:induction false} FinishPlaces(s: State, i: nat)
    requires i < |s.workers|
    ensures Places(Finish(s.(workers := Cut(s.workers, i)), s.workers[i].entry)) == Places(s)
  {
    var e, s' := s.workers[i].entry, s.(workers := Cut(s.workers, i));
    WorkersCut(s.workers, i);
    TallyAppend(s.finished, e);
    LoopHeadPlaces(s'.(finished := s.finished + [e]));
  }

  lemma {:induction false} TimerPlaces(s: State, i: nat)
    requires i < |s.workers|
    ensures Places(LoopHead(s.(workers := Cut(s.workers, i), timers := s.timers + [s.workers[i].entry]))) == Places(s)
  {
    var e := s.workers[i].entry;
    WorkersCut(s.workers, i);
    TallyAppend(s.timers, e);
    LoopHeadPlaces(s.(workers := Cut(s.workers, i), timers := s.timers + [e]));
  }

  lemma {:induction false} ResumePlaces(s: State, limits: Limits, i: nat, outcome: Outcome)
    requires i < |s.workers|
    ensures Places(Resume(s, limits, i, outcome)) == Places(s) && Resume(s, limits, i, outcome).nextId == s.nextId
  {
    var phase, t := s.workers[i], Resume(s, limits, i, outcome);
    if phase.Minting? || (outcome == Threw && !phase.StoringCaught?) {
      SuspendPlaces(s, t, i, t.workers[|t.workers| - 1]);
    } else if phase.StoringRetry? {
      TimerPlaces(s, i);
    } else {
      FinishPlaces(s, i);
    }
  }

  ghost predicate Accounted(s: State) {
    forall id {:trigger Places(s)[id]} :: Places(s)[id] == if 0 <= id < s.nextId then 1 else 0
  }

  lemma {:induction false} EnqueuePlaces(s: State, limits: Limits, key: ProofKey)
    requires !Refused(s, limits, key)
    ensures Places(Enqueue(s, limits, key)) == Places(s) + multiset{s.nextId}
  {
    TallyAppend(s.queue, Entry(s.nextId, key, 0, 0, 0));
  }

  lemma {:induction false} FirePlaces(s: State, i: nat)
    requires i < |s.timers|
    ensures Places(Fire(s, i)) == Places(s)
  {
    TallyCut(s.timers, i);
    TallyAppend(s.queue, s.timers[i]);
  }

  lemma {:induction false} PlacesDepend(s: State, t: State)
    requires t.queue == s.queue && t.timers == s.timers && t.workers == s.workers && t.finished == s.finished
    ensures Places(t) == Places(s)
  {
  }

  lemma {:induction false} StartPlaces(s: State, t: State)
    requires t.queue == s.queue && t.timers == s.timers && t.workers == s.workers && t.finished == s.finished
    ensures Places(LoopHead(t)) == Places(s) && LoopHead(t).nextId == t.nextId
  {
    PlacesDepend(s, t);
    LoopHeadPlaces(t);
  }

  lemma {:induction false} WakeUpPlaces(s: State)
    requires 0 < s.scheduled
    ensures Places(WakeUp(s)) == Places(s) && WakeUp(s).nextId == s.nextId
  {
    if s.running {
      PlacesDepend(s, WakeUp(s));
    } else {
      var t := s.(scheduled := s.scheduled - 1, running := true);
      assert WakeUp(s) == LoopHead(t);
      StartPlaces(s, t);
    }
  }

  lemma {:induction false} StepAccounts(s: State, limits: Limits, step: Step)
    requires Accounted(s)
    ensures Accounted(Next(s, limits, step))
  {
    if Enabled(s, step) {
      match step
      case EnqueueStep(key) => if !Refused(s, limits, key) { EnqueuePlaces(s, limits, key); }
      case WakeUpStep => WakeUpPlaces(s);
      case FireStep(i) => FirePlaces(s, i);
      case ResumeStep(i, outcome) => ResumePlaces(s, limits, i, outcome);
    }
  }

  /** In every interleaving each entry ever accepted is in exactly one of the queue, a retry timer, in
      flight with a worker, or finished, exactly once. */
  lemma {:induction false} EachEntryInOnePlace(limits: Limits, steps: seq<Step>, id: nat)
    ensures Accounted(Run(limits, steps))
    ensures Places(Run(limits, steps))[id] == if id < Run(limits, steps).nextId then 1 else 0
  {
    if steps == [] {
    } else {
      EachEntryInOnePlace(limits, steps[..|steps| - 1], id);
      StepAccounts(Run(limits, steps[..|steps| - 1]), limits, steps[|steps| - 1]);
    }
  }

  // ------------------------------------------------------------- how often an entry is minted

  /** One attempt even when the setting is below one. */
  function Bound(limits: Limits): nat {
    if limits.maxAttempts <= 1 then 1 else limits.maxAttempts
  }

  predicate MayRetry(limits: Limits, e: Entry) {
    e.attempts == 0 || e.attempts < limits.maxAttempts
  }

  /** An entry on its way to a worker was called once for each failed attempt. */
  predicate Waiting(limits: Limits, e: Entry) {
    e.calls == e.attempts && e.successes == 0 && MayRetry(limits, e)
  }

  predicate Done(limits: Limits, e: Entry) {
    1 <= e.calls <= Bound(limits) && e.successes <= 1
  }

  predicate PhaseOk(limits: Limits, phase: Phase) {
    var e := phase.entry;
    match phase
    case Minting(_) => e.calls == e.attempts + 1 && e.successes == 0 && MayRetry(limits, e)
    case StoringMinted(_) => e.calls == e.attempts + 1 && e.successes == 1 && MayRetry(limits, e)
    case StoringRetry(_) => Waiting(limits, e) && 0 < e.attempts
    case StoringGivenUp(_) => e.calls == e.attempts <= Bound(limits) && e.successes == 0 && 0 < e.attempts && limits.maxAttempts <= e.attempts
    case StoringCaught(_) => Done(limits, e)
  }

  ghost predicate Tallied(s: State, limits: Limits) {
    && (forall e :: e in s.queue ==> Waiting(limits, e))
    && (forall e :: e in s.timers ==> Waiting(limits, e))
    && (forall i :: 0 <= i < |s.workers| ==> PhaseOk(limits, s.workers[i]))
    && (forall e :: e in s.finished ==> Done(limits, e))
  }

  lemma {:induction false} LoopHeadTallies(s: State, limits: Limits)
    requires Tallied(s, limits)
    ensures Tallied(LoopHead(s), limits)
  {
    if s.queue != [] {
      assert s.queue[0] in s.queue;
    }
  }

  lemma {:induction false} ResumeTallies(s: State, limits: Limits, i: nat, outcome: Outcome)
    requires Tallied(s, limits) && i < |s.workers|
    ensures Tallied(Resume(s, limits, i, outcome), limits)
  {
    var phase, e := s.workers[i], s.workers[i].entry;
    assert PhaseOk(limits, phase);
    var s' := s.(workers := Cut(s.workers, i));
    assert Tallied(s', limits);
    if phase.Minting? || (outcome == Threw && !phase.StoringCaught?) {
      var t := Resume(s, limits, i, outcome);
      assert PhaseOk(limits, t.workers[|t.workers| - 1]);
    } else if phase.StoringRetry? {
      LoopHeadTallies(s'.(timers := s.timers + [e]), limits);
    } else {
      LoopHeadTallies(s'.(finished := s.finished + [e]), limits);
    }
  }

  lemma {:induction false} StepTallies(s: State, limits: Limits, step: Step)
    requires Tallied(s, limits)
    ensures Tallied(Next(s, limits, step), limits)
  {
    if Enabled(s, step) {
      match step
      case EnqueueStep(_) =>
      case WakeUpStep => LoopHeadTallies(s.(scheduled := s.scheduled - 1, running := true), limits);
      case FireStep(i) => assert s.timers[i] in s.timers;
      case ResumeStep(i, outcome) => ResumeTallies(s, limits, i, outcome);
    }
  }

  lemma {:induction false} RunTallies(limits: Limits, steps: seq<Step>)
    ensures Tallied(Run(limits, steps), limits)
  {
    if steps == [] {
    } else {
      RunTallies(limits, steps[..|steps| - 1]);
      StepTallies(Run(limits, steps[..|steps| - 1]), limits, steps[|steps| - 1]);
    }
  }

  /** The entries of a state, wherever they are. */
  predicate Present(s: State, e: Entry) {
    e in s.queue || e in s.timers || e in EntriesOf(s.workers) || e in s.finished
  }

  /** No entry is ever minted more often than MINT_MAX_ATTEMPTS allows, none succeeds twice, and one that
      waits for another attempt has not succeeded. */
  lemma {:induction false} MintedWithinAttempts(limits: Limits, steps: seq<Step>, e: Entry)
    requires Present(Run(limits, steps), e)
    ensures e.calls <= Bound(limits) && e.successes <= 1
    ensures var s := Run(limits, steps); e in s.queue || e in s.timers ==> e.successes == 0
    ensures 1 <= limits.maxAttempts ==> e.calls <= limits.maxAttempts
  {
    RunTallies(limits, steps);
  }

  /** No awaited call of the run throws. */
  predicate NothingThrows(steps: seq<Step>) {
    forall i :: 0 <= i < |steps| && steps[i].ResumeStep? ==> steps[i].outcome != Threw
  }

  /** Done by success, or after as many calls as the limit allows. */
  predicate TriedEnough(limits: Limits, e: Entry) {
    e.successes == 1 || e.calls == (if limits.maxAttempts <= 1 then 1 else limits.maxAttempts)
  }

  ghost predicate AllTried(s: State, limits: Limits) {
    && (forall i :: 0 <= i < |s.workers| ==> !s.workers[i].StoringCaught?)
    && (forall e :: e in s.finished ==> TriedEnough(limits, e))
  }

  lemma {:induction false} StepTries(s: State, limits: Limits, step: Step)
    requires Tallied(s, limits) && AllTried(s, limits) && (step.ResumeStep? ==> step.outcome != Threw)
    ensures AllTried(Next(s, limits, step), limits)
  {
    if Enabled(s, step) && step.ResumeStep? {
      assert PhaseOk(limits, s.workers[step.worker]);
    }
  }

  /** Where no call throws, an entry is given up only after all the attempts the limit allows: every finished one
      succeeded, or was called that often. */
  lemma {:induction false} GivenUpOnlyAtTheLimit(limits: Limits, steps: seq<Step>, e: Entry)
    requires NothingThrows(steps) && e in Run(limits, steps).finished
    ensures e.successes == 1 || e.calls == (if limits.maxAttempts <= 1 then 1 else limits.maxAttempts)
  {
    RunTries(limits, steps);
  }

  lemma {:induction false} RunTries(limits: Limits, steps: seq<Step>)
    requires NothingThrows(steps)
    ensures AllTried(Run(limits, steps), limits)
  {
    if steps == [] {
    } else {
      RunTries(limits, steps[..|steps| - 1]);
      RunTallies(limits, steps[..|steps| - 1]);
      StepTries(Run(limits, steps[..|steps| - 1]), limits, steps[|steps| - 1]);
    }
  }

  // ------------------------------------------------------------- first in, first out

  /** The number of the entry a step puts into the queue, if any. */
  function Arrival(s: State, limits: Limits, step: Step): seq<nat> {
    match step
    case EnqueueStep(key) => if key in s.ids || limits.queueMax <= |s.queue| then [] else [s.nextId]
    case FireStep(i) => if i < |s.timers| then [s.timers[i].id] else []
    case _ => []
  }

  /** The number of the entry a step hands to the worker: the one it now mints, where the queue became shorter. */
  function Departure(s: State, limits: Limits, step: Step): seq<nat> {
    var t := Next(s, limits, step);
    if |t.queue| < |s.queue| && t.workers != [] then [t.workers[|t.workers| - 1].entry.id] else []
  }

  function Arrivals(limits: Limits, steps: seq<Step>): seq<nat> {
    if steps == [] then []
    else
      var before := steps[..|steps| - 1];
      Arrivals(limits, before) + Arrival(Run(limits, before), limits, steps[|before|])
  }

  function Departures(limits: Limits, steps: seq<Step>): seq<nat> {
    if steps == [] then []
    else
      var before := steps[..|steps| - 1];
      Departures(limits, before) + Departure(Run(limits, before), limits, steps[|before|])
  }

  lemma {:induction false} LoopHeadTakesFirst(s: State)
    ensures s.queue == [] ==> LoopHead(s).queue == [] && LoopHead(s).workers == s.workers
    ensures s.queue != [] ==>
      && LoopHead(s).workers == s.workers + [Minting(s.queue[0].(calls := s.queue[0].calls + 1))]
      && IdsOf(s.queue) == [s.queue[0].id] + IdsOf(LoopHead(s).queue)
  {
  }

  lemma {:induction false} QueueStep(s: State, limits: Limits, step: Step)
    ensures IdsOf(s.queue) + Arrival(s, limits, step) == Departure(s, limits, step) + IdsOf(Next(s, limits, step).queue)
  {
    if Enabled(s, step) {
      match step
      case EnqueueStep(key) =>
      case FireStep(i) =>
      case WakeUpStep => LoopHeadTakesFirst(s.(scheduled := s.scheduled - 1, running := true));
      case ResumeStep(i, outcome) =>
        var e := s.workers[i].entry;
        LoopHeadTakesFirst(s.(workers := Cut(s.workers, i), finished := s.finished + [e]));
        LoopHeadTakesFirst(s.(workers := Cut(s.workers, i), timers := s.timers + [e]));
    }
  }

  lemma {:induction false} Regrouped(gone: seq<nat>, queue: seq<nat>, added: seq<nat>, taken: seq<nat>, left: seq<nat>)
    requires queue + added == taken + left
    ensures gone + queue + added == gone + taken + left
  {
    assert gone + queue + added == gone + (queue + added);
    assert gone + taken + left == gone + (taken + left);
  }

  /** In every interleaving entries reach the worker in the order they entered the queue, retries included. */
  lemma {:induction false} FirstInFirstOut(limits: Limits, steps: seq<Step>)
    ensures Arrivals(limits, steps) == Departures(limits, steps) + IdsOf(Run(limits, steps).queue)
  {
    if steps == [] {
    } else {
      var before := steps[..|steps| - 1];
      var s, step := Run(limits, before), steps[|before|];
      FirstInFirstOut(limits, before);
      QueueStep(s, limits, step);
      Regrouped(Departures(limits, before), IdsOf(s.queue), Arrival(s, limits, step), Departure(s, limits, step),
                IdsOf(Next(s, limits, step).queue));
    }
  }

  // ------------------------------------------------------------- and none waits for ever

  function Load(limits: Limits, es: seq<Entry>, extra: nat): int {
    if es == [] then 0
    else Load(limits, es[..|es| - 1], extra) + 8 * (Bound(limits) - es[|es| - 1].attempts) + extra
  }

  function WorkerLoad(limits: Limits, workers: seq<Phase>): int {
    if workers == [] then 0
    else
      var last := workers[|workers| - 1];
      var left := 8 * (Bound(limits) - last.entry.attempts);
      WorkerLoad(limits, workers[..|workers| - 1]) + match last
        case Minting(_) => left - 1
        case StoringMinted(_) => 2
        case StoringRetry(_) => left + 5
        case StoringGivenUp(_) => 2
        case StoringCaught(_) => 1
  }

  /** What is left to do before the event loop falls silent. */
  function Measure(s: State, limits: Limits): int {
    Load(limits, s.queue, 0) + Load(limits, s.timers, 3) + WorkerLoad(limits, s.workers) + s.scheduled
  }

  lemma {:induction false} LoadSnoc(limits: Limits, es: seq<Entry>, e: Entry, extra: nat)
    ensures Load(limits, es + [e], extra) == Load(limits, es, extra) + 8 * (Bound(limits) - e.attempts) + extra
  {
    assert (es + [e])[..|es|] == es;
  }

  lemma {:induction false} LoadCut(limits: Limits, es: seq<Entry>, i: nat, extra: nat)
    requires i < |es|
    ensures Load(limits, Cut(es, i), extra) + 8 * (Bound(limits) - es[i].attempts) + extra == Load(limits, es, extra)
  {
    var n := |es| - 1;
    if i < n {
      LoadCut(limits, es[..n], i, extra);
      assert Cut(es, i) == Cut(es[..n], i) + [es[n]];
      LoadSnoc(limits, Cut(es[..n], i), es[n], extra);
    } else {
      assert Cut(es, i) == es[..n];
    }
  }

  lemma {:induction false} LoadNonNegative(limits: Limits, es: seq<Entry>, extra: nat)
    requires forall e :: e in es ==> Waiting(limits, e)
    ensures 0 <= Load(limits, es, extra)
    ensures es != [] ==> 0 < Load(limits, es, extra)
  {
    if es == [] {
    } else {
      assert es[|es| - 1] in es;
      LoadNonNegative(limits, es[..|es| - 1], extra);
    }
  }

  ghost predicate Steady(s: State, limits: Limits) {
    SingleWorker(s) && Awake(s) && MarkedAreQueued(s) && Tallied(s, limits)
  }

  lemma {:induction false} MeasureNonNegative(s: State, limits: Limits)
    requires Steady(s, limits)
    ensures 0 <= Measure(s, limits)
  {
    LoadNonNegative(limits, s.queue, 0);
    LoadNonNegative(limits, s.timers, 3);
    if s.workers != [] {
      assert PhaseOk(limits, s.workers[0]);
      assert s.workers == [s.workers[0]];
      OneWorkerLoad(limits, s.workers[0]);
    }
  }

  lemma {:induction false} OneWorkerLoad(limits: Limits, phase: Phase)
    ensures WorkerLoad(limits, []) == 0
    ensures WorkerLoad(limits, [phase]) ==
      var left := 8 * (Bound(limits) - phase.entry.attempts);
      match phase
      case Minting(_) => left - 1
      case StoringMinted(_) => 2
      case StoringRetry(_) => left + 5
      case StoringGivenUp(_) => 2
      case StoringCaught(_) => 1
  {
    assert [phase][..0] == [];
  }

  lemma {:induction false} LoopHeadMeasure(s: State, limits: Limits)
    requires s.workers == []
    ensures Measure(LoopHead(s), limits) <= Measure(s, limits)
  {
    if s.queue != [] {
      var e := s.queue[0];
      assert Cut(s.queue, 0) == s.queue[1..];
      LoadCut(limits, s.queue, 0, 0);
      assert LoopHead(s).workers == [Minting(e.(calls := e.calls + 1))];
      OneWorkerLoad(limits, Minting(e.(calls := e.calls + 1)));
    }
  }

  lemma {:induction false} ResumeDecreases(s: State, limits: Limits, outcome: Outcome)
    requires |s.workers| == 1 && PhaseOk(limits, s.workers[0])
    ensures Measure(Resume(s, limits, 0, outcome), limits) < Measure(s, limits)
  {
    var phase := s.workers[0];
    var e, s' := phase.entry, s.(workers := []);
    assert s.workers == [phase] && Cut(s.workers, 0) == [];
    OneWorkerLoad(limits, phase);
    var t := Resume(s, limits, 0, outcome);
    if phase.Minting? || (outcome == Threw && !phase.StoringCaught?) {
      assert t.workers == [t.workers[0]];
      OneWorkerLoad(limits, t.workers[0]);
    } else if phase.StoringRetry? {
      LoadSnoc(limits, s.timers, e, 3);
      LoopHeadMeasure(s'.(timers := s.timers + [e]), limits);
    } else {
      LoopHeadMeasure(s'.(finished := s.finished + [e]), limits);
    }
  }

  lemma {:induction false} StepDecreases(s: State, limits: Limits, step: Step)
    requires Steady(s, limits) && Enabled(s, step) && !step.EnqueueStep?
    ensures Measure(Next(s, limits, step), limits) < Measure(s, limits)
  {
    match step
    case WakeUpStep =>
      if !s.running {
        LoopHeadMeasure(s.(scheduled := s.scheduled - 1, running := true), limits);
      }
    case FireStep(i) =>
      LoadCut(limits, s.timers, i, 3);
      LoadSnoc(limits, s.queue, s.timers[i], 0);
    case ResumeStep(i, outcome) =>
      assert i == 0;
      ResumeDecreases(s, limits, outcome);
  }

  lemma {:induction false} StepSteady(s: State, limits: Limits, step: Step)
    requires Steady(s, limits)
    ensures Steady(Next(s, limits, step), limits)
  {
    LoopKeeps(s, limits, step);
    StepTallies(s, limits, step);
  }

  /** Every step of the run was possible when it was taken, and none accepts a new proof. */
  ghost predicate Working(s: State, limits: Limits, steps: seq<Step>)
    decreases steps
  {
    steps != [] ==>
      Enabled(s, steps[0]) && !steps[0].EnqueueStep? && Working(Next(s, limits, steps[0]), limits, steps[1..])
  }

  lemma {:induction false} WorkIsBounded(s: State, limits: Limits, steps: seq<Step>)
    requires Steady(s, limits) && Working(s, limits, steps)
    ensures |steps| <= Measure(s, limits)
    decreases steps
  {
    if steps == [] {
      MeasureNonNegative(s, limits);
    } else {
      StepSteady(s, limits, steps[0]);
      StepDecreases(s, limits, steps[0]);
      WorkIsBounded(Next(s, limits, steps[0]), limits, steps[1..]);
    }
  }

  ghost predicate Quiet(s: State) {
    s.scheduled == 0 && s.timers == [] && s.workers == []
  }

  /** Once no more proofs arrive the loop stops, within a bound known from the state it is in, whatever
      the interleaving and the outcomes; and when nothing is left to run, every entry is finished. */
  lemma {:induction false} QueueDrains(limits: Limits, steps: seq<Step>, more: seq<Step>, id: nat)
    requires Working(Run(limits, steps), limits, more)
    ensures |more| <= Measure(Run(limits, steps), limits)
    ensures Quiet(Run(limits, steps)) && id < Run(limits, steps).nextId ==>
      Tally(Run(limits, steps).finished)[id] == 1
  {
    OneWorkerAndNoLostWakeUp(limits, steps);
    RunTallies(limits, steps);
    WorkIsBounded(Run(limits, steps), limits, more);
    EachEntryInOnePlace(limits, steps, id);
  }

  // ------------------------------------------------------------- how far the key set prevents duplicates

  /** Queued entries that carry this proof. */
  function Copies(queue: seq<Entry>, key: ProofKey): nat {
    if queue == [] then 0 else (if queue[0].key == key then 1 else 0) + Copies(queue[1..], key)
  }

  function Mark(s: State, key: ProofKey): nat {
    if key in s.ids then 1 else 0
  }

  /** How many retry timers of this proof have fired over a run. */
  function Fires(limits: Limits, steps: seq<Step>, key: ProofKey): nat {
    if steps == [] then 0
    else
      var before, step := steps[..|steps| - 1], steps[|steps| - 1];
      Fires(limits, before, key) + FiresNow(Run(limits, before), step, key)
  }

  function FiresNow(s: State, step: Step, key: ProofKey): nat {
    if step.FireStep? && Enabled(s, step) && s.timers[step.timer].key == key then 1 else 0
  }

  lemma {:induction false} CopiesSnoc(queue: seq<Entry>, e: Entry, key: ProofKey)
    ensures Copies(queue + [e], key) == Copies(queue, key) + (if e.key == key then 1 else 0)
  {
    if queue == [] {
      assert queue + [e] == [e] && [e][1..] == [];
    } else {
      assert (queue + [e])[1..] == queue[1..] + [e];
      CopiesSnoc(queue[1..], e, key);
    }
  }

  lemma {:induction false} QueuedIsCopied(queue: seq<Entry>, key: ProofKey, i: nat)
    requires i < |queue| && queue[i].key == key
    ensures 1 <= Copies(queue, key)
  {
    if i == 0 {
    } else {
      QueuedIsCopied(queue[1..], key, i - 1);
    }
  }

  lemma {:induction false} LoopHeadCopies(s: State, key: ProofKey, spare: nat)
    requires Copies(s.queue, key) <= Mark(s, key) + spare
    ensures Copies(LoopHead(s).queue, key) <= Mark(LoopHead(s), key) + spare
  {
  }

  lemma {:induction false} ResumeCopies(s: State, limits: Limits, i: nat, outcome: Outcome, key: ProofKey, spare: nat)
    requires i < |s.workers| && Copies(s.queue, key) <= Mark(s, key) + spare
    ensures var t := Resume(s, limits, i, outcome); Copies(t.queue, key) <= Mark(t, key) + spare
  {
    var e, s' := s.workers[i].entry, s.(workers := Cut(s.workers, i));
    LoopHeadCopies(s'.(finished := s.finished + [e]), key, spare);
    LoopHeadCopies(s'.(timers := s.timers + [e]), key, spare);
  }

  lemma {:induction false} StepCopies(s: State, limits: Limits, step: Step, key: ProofKey, spare: nat)
    requires Copies(s.queue, key) <= Mark(s, key) + spare
    ensures var t := Next(s, limits, step); Copies(t.queue, key) <= Mark(t, key) + spare + FiresNow(s, step, key)
  {
    if Enabled(s, step) {
      match step
      case EnqueueStep(k) => CopiesSnoc(s.queue, Entry(s.nextId, k, 0, 0, 0), key);
      case WakeUpStep => LoopHeadCopies(s.(scheduled := s.scheduled - 1, running := true), key, spare);
      case FireStep(i) => CopiesSnoc(s.queue, s.timers[i], key);
      case ResumeStep(i, outcome) => ResumeCopies(s, limits, i, outcome, key, spare);
    }
  }

  lemma {:induction false} CopiesBounded(limits: Limits, steps: seq<Step>, key: ProofKey)
    ensures var s := Run(limits, steps); Copies(s.queue, key) <= Mark(s, key) + Fires(limits, steps, key)
  {
    if steps == [] {
      assert Copies([], key) == 0;
    } else {
      var before := steps[..|steps| - 1];
      CopiesBounded(limits, before, key);
      StepCopies(Run(limits, before), limits, steps[|steps| - 1], key, Fires(limits, before, key));
    }
  }

  /** In every interleaving a marked proof is queued, and the queue holds at most one copy of a proof for its
      mark and one more for each retry of it that has fired. */
  lemma {:induction false} CopiesWithinRetries(limits: Limits, steps: seq<Step>, key: ProofKey)
    ensures var s := Run(limits, steps);
            Mark(s, key) <= Copies(s.queue, key) <= Mark(s, key) + Fires(limits, steps, key)
  {
    var s := Run(limits, steps);
    CopiesBounded(limits, steps, key);
    OneWorkerAndNoLostWakeUp(limits, steps);
    if key in s.ids {
      var i :| 0 <= i < |s.queue| && s.queue[i].key == key;
      QueuedIsCopied(s.queue, key, i);
    }
  }

  /** As long as no retry of a proof has fired it is queued exactly when it is marked, and never twice: a new
      copy of it is then refused exactly when one is queued or the queue is full. */
  lemma {:induction false} NoDuplicateBeforeRetry(limits: Limits, steps: seq<Step>, key: ProofKey)
    requires Fires(limits, steps, key) == 0
    ensures var s := Run(limits, steps);
            && Copies(s.queue, key) == (if key in s.ids then 1 else 0)
            && (Refused(s, limits, key) <==> 0 < Copies(s.queue, key) || limits.queueMax <= |s.queue|)
  {
    CopiesWithinRetries(limits, steps, key);
  }

  // ------------------------------------------------------------- what the key set does not promise

  lemma {:induction false} RunSnoc(limits: Limits, steps: seq<Step>, step: Step)
    ensures Run(limits, steps + [step]) == Next(Run(limits, steps), limits, step)
  {
    assert (steps + [step])[..|steps|] == steps;
  }

  /** A proof accepted, tried once without success, and put on a retry timer. */
  function RetryPath(k: ProofKey): seq<Step> {
    [EnqueueStep(k), WakeUpStep, ResumeStep(0, Failed)] + [ResumeStep(0, Succeeded)]
  }

  lemma {:induction false} FirstCall(limits: Limits, k: ProofKey)
    requires 1 <= limits.queueMax
    ensures Run(limits, [EnqueueStep(k), WakeUpStep])
         == State([], {}, true, 0, [], [Minting(Entry(0, k, 0, 1, 0))], [], 1)
  {
    RunSnoc(limits, [], EnqueueStep(k));
    assert [] + [EnqueueStep(k)] == [EnqueueStep(k)];
    var queued := State([Entry(0, k, 0, 0, 0)], {k}, false, 1, [], [], [], 1);
    assert Run(limits, [EnqueueStep(k)]) == queued;
    RunSnoc(limits, [EnqueueStep(k)], WakeUpStep);
    assert [EnqueueStep(k)] + [WakeUpStep] == [EnqueueStep(k), WakeUpStep];
  }

  lemma {:induction false} FirstAttempt(limits: Limits, k: ProofKey)
    requires 2 <= limits.maxAttempts && 1 <= limits.queueMax
    ensures Run(limits, [EnqueueStep(k), WakeUpStep, ResumeStep(0, Failed)])
         == State([], {}, true, 0, [], [StoringRetry(Entry(0, k, 1, 1, 0))], [], 1)
  {
    FirstCall(limits, k);
    var minting := State([], {}, true, 0, [], [Minting(Entry(0, k, 0, 1, 0))], [], 1);
    RunSnoc(limits, [EnqueueStep(k), WakeUpStep], ResumeStep(0, Failed));
    assert [EnqueueStep(k), WakeUpStep] + [ResumeStep(0, Failed)] == [EnqueueStep(k), WakeUpStep, ResumeStep(0, Failed)];
    assert Cut(minting.workers, 0) == [];
  }

  /** The converse of RefusedOnlyWhenQueuedOrFull fails: a retry re-enters the queue without its mark, so
      the same proof submitted again is queued beside it. */
  lemma {:induction false} SameProofQueuedTwice(limits: Limits, k: ProofKey)
    requires 2 <= limits.maxAttempts && 2 <= limits.queueMax
    ensures var s := Run(limits, RetryPath(k) + [FireStep(0)] + [EnqueueStep(k)]);
            |s.queue| == 2 && s.queue[0].key == s.queue[1].key == k
  {
    var tried := Entry(0, k, 1, 1, 0);
    FirstAttempt(limits, k);
    var storing := State([], {}, true, 0, [], [StoringRetry(tried)], [], 1);
    RunSnoc(limits, [EnqueueStep(k), WakeUpStep, ResumeStep(0, Failed)], ResumeStep(0, Succeeded));
    assert Cut(storing.workers, 0) == [];
    var resting := State([], {}, false, 0, [tried], [], [], 1);
    assert Run(limits, RetryPath(k)) == resting;
    RunSnoc(limits, RetryPath(k), FireStep(0));
    assert Cut(resting.timers, 0) == [];
    var requeued := State([tried], {}, false, 1, [], [], [], 1);
    assert Fire(resting, 0) == requeued;
    RunSnoc(limits, RetryPath(k) + [FireStep(0)], EnqueueStep(k));
  }

  // ------------------------------------------------------------- the server's module state

  class MintServer {
    const limits: Limits
    var mintQueue: seq<Entry>
    var mintQueueIds: set<ProofKey>
    var mintWorkerRunning: bool
    var immediates: nat
    var retryTimers: seq<Entry>
    var suspended: seq<Phase>
    ghost var finished: seq<Entry>
    var nextId: nat

    ghost function Module(): State
      reads this
    {
      State(mintQueue, mintQueueIds, mintWorkerRunning, immediates, retryTimers, suspended, finished, nextId)
    }

    constructor (limits: Limits)
      ensures Module() == Initial()
    {
      this.limits := limits;
      mintQueue, mintQueueIds, mintWorkerRunning := [], {}, false;
      immediates, retryTimers, suspended, finished, nextId := 0, [], [], [], 0;
    }

    /** `enqueueMint` without `force`. */
    method EnqueueMint(key: ProofKey) returns (queued: bool)
      modifies this
      ensures queued <==> !Refused(old(Module()), limits, key)
      ensures Module() == Enqueue(old(Module()), limits, key)
    {
      if key in mintQueueIds {
        return false;
      }
      if |mintQueue| >= limits.queueMax {
        return false;
      }
      mintQueueIds := mintQueueIds + {key};
      mintQueue := mintQueue + [Entry(nextId, key, 0, 0, 0)];
      nextId := nextId + 1;
      immediates := immediates + 1;
      queued := true;
    }

    /** A due retry timer: `enqueueMint` with `force`. */
    method RetryDue(i: nat)
      requires i < |retryTimers|
      modifies this
      ensures Module() == Fire(old(Module()), i)
    {
      var entry := retryTimers[i];
      retryTimers := Cut(retryTimers, i);
      mintQueue := mintQueue + [entry];
      immediates := immediates + 1;
    }

    /** The loop test of `mintQueueWorker` and the code up to its next `await`. */
    method DrainNext()
      modifies this
      ensures Module() == LoopHead(old(Module()))
    {
      if |mintQueue| > 0 {
        var entry := mintQueue[0];
        mintQueue := mintQueue[1..];
        mintQueueIds := mintQueueIds - {entry.key};
        suspended := suspended + [Minting(entry.(calls := entry.calls + 1))];
      } else {
        mintWorkerRunning := false;
      }
    }

    /** A `setImmediate` callback: the guard of `mintQueueWorker`, then its loop. */
    method Immediate()
      requires 0 < immediates
      modifies this
      ensures Module() == WakeUp(old(Module()))
    {
      immediates := immediates - 1;
      if mintWorkerRunning {
        return;
      }
      mintWorkerRunning := true;
      DrainNext();
    }

    /** A worker resumed with the outcome of the call it awaited. */
    method ResumeWorker(i: nat, outcome: Outcome)
      requires i < |suspended|
      modifies this
      ensures Module() == Resume(old(Module()), limits, i, outcome)
    {
      var phase, entry := suspended[i], suspended[i].entry;
      suspended := Cut(suspended, i);
      if outcome == Threw && !phase.StoringCaught? {
        suspended := suspended + [StoringCaught(entry)];
        return;
      }
      match phase {
        case Minting(_) =>
          if outcome == Succeeded {
            suspended := suspended + [StoringMinted(entry.(successes := entry.successes + 1))];
          } else {
            entry := entry.(attempts := entry.attempts + 1);
            if entry.attempts < limits.maxAttempts {
              suspended := suspended + [StoringRetry(entry)];
            } else {
              suspended := suspended + [StoringGivenUp(entry)];
            }
          }
        case StoringRetry(_) =>
          retryTimers := retryTimers + [entry];
          DrainNext();
        case _ =>
          finished := finished + [entry];
          DrainNext();
      }
    }
  }
}
