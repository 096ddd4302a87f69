/** A throttled method: at most one execution, and at most one more waiting behind it. */
module Throttles {
  import opened Options

  // ---- promises and jobs ----------------------------------------------------------------------------

  /** What a call returns: the promise of an execution, or the promise to run again behind one. */
  datatype Promise = OfExecution(execution: nat) | OfQueued(queued: nat)

  /** What happens behind `done(this[currentKey])`. */
  datatype Reaction<A> = ToClear | ToRunNext(queued: nat, args: A)

  datatype Job<A> = Settled(reaction: Reaction<A>, fulfilled: bool) | Clear | RunNext(queued: nat, args: A)

  /** A run of the wrapped function, from start to the settling of its promise. */
  datatype Execution<A> = Execution(args: A, start: nat, end: Option<nat>, fulfilled: bool, reactions: seq<Reaction<A>>)

  /** A promise to run again behind execution `behind`, and what it resolved to. */
  datatype Queued<A> = Queued(behind: nat, args: A, resolved: Option<Promise>)

  datatype Call<A> = Call(args: A, at: nat, promise: Promise)

  /** The two keys of the object, the job queue, and what happened so far. */
  datatype State<A> = State(
    current: Option<nat>,
    next: Option<nat>,
    jobs: seq<Job<A>>,
    executions: seq<Execution<A>>,
    queue: seq<Queued<A>>,
    calls: seq<Call<A>>,
    now: nat)

  function Initial<A>(): State<A> {
    State(None, None, [], [], [], [], 0)
  }

  ghost predicate Sane<A>(s: State<A>) {
    && (s.current.Some? ==> s.current.value < |s.executions|)
    && (s.next.Some? ==> s.next.value < |s.queue|)
    && (forall j :: 0 <= j < |s.jobs| && s.jobs[j].RunNext? ==> s.jobs[j].queued < |s.queue|)
  }

  // ---- the steps ------------------------------------------------------------------------------------

  /** `done(promise).then(…)`: the reaction waits for the promise, or is a job at once. */
  function Then<A>(s: State<A>, execution: nat, reaction: Reaction<A>): State<A>
    requires execution < |s.executions|
  {
    var e := s.executions[execution];
    if e.end.None? then s.(executions := s.executions[execution := e.(reactions := e.reactions + [reaction])])
    else s.(jobs := s.jobs + [Settled(reaction, e.fulfilled)])
  }

  function Execute<A>(s: State<A>, args: A): State<A> {
    var e := |s.executions|;
    Then(s.(current := Some(e), executions := s.executions + [Execution(args, s.now, None, true, [])]), e, ToClear)
  }

  function Enqueue<A>(s: State<A>, args: A): State<A>
    requires s.current.Some? && s.current.value < |s.executions|
  {
    var q := |s.queue|;
    Then(s.(next := Some(q), queue := s.queue + [Queued(s.current.value, args, None)]), s.current.value, ToRunNext(q, args))
  }

  function Triggered<A>(s: State<A>, args: A): State<A>
    requires Sane(s)
  {
    if s.next.Some? then s else if s.current.Some? then Enqueue(s, args) else Execute(s, args)
  }

  function PromiseOf<A>(s: State<A>): Promise {
    if s.next.Some? then OfQueued(s.next.value)
    else if s.current.Some? then OfQueued(|s.queue|)
    else OfExecution(|s.executions|)
  }

  function Called<A>(s: State<A>, args: A): State<A>
    requires Sane(s)
  {
    Triggered(s, args).(calls := s.calls + [Call(args, s.now, PromiseOf(s))], now := s.now + 1)
  }

  /** The promise of an execution settles: its reactions become jobs, in the order they were made. */
  function SettledBy<A>(s: State<A>, execution: nat, fulfilled: bool): State<A>
    requires execution < |s.executions|
  {
    var e := s.executions[execution];
    s.(executions := s.executions[execution := e.(end := Some(s.now), fulfilled := fulfilled, reactions := [])],
       jobs := s.jobs + seq(|e.reactions|, i requires 0 <= i < |e.reactions| => Settled(e.reactions[i], fulfilled)),
       now := s.now + 1)
  }

  /** A rejection clears as a fulfilment does, but runs nothing again. */
  function AfterJob<A>(s: State<A>, job: Job<A>): State<A>
    requires Sane(s)
  {
    match job
    case Settled(ToClear, _) => s.(jobs := s.jobs + [Clear])
    case Settled(ToRunNext(q, args), fulfilled) => if fulfilled then s.(jobs := s.jobs + [RunNext(q, args)]) else s
    case Clear => s.(current := None)
    case RunNext(q, args) => Resolved(Triggered(s.(next := None), args), q, PromiseOf(s.(next := None)))
  }

  function Resolved<A>(s: State<A>, q: nat, promise: Promise): State<A> {
    if q < |s.queue| then s.(queue := s.queue[q := s.queue[q].(resolved := Some(promise))]) else s
  }

  function JobRun<A>(s: State<A>): State<A>
    requires Sane(s) && s.jobs != []
  {
    AfterJob(s.(jobs := s.jobs[1..]), s.jobs[0]).(now := s.now + 1)
  }

  datatype Event<A> = Trigger(args: A) | Settle(execution: nat, fulfilled: bool) | RunJob

  predicate Enabled<A>(s: State<A>, event: Event<A>) {
    match event
    case Trigger(_) => true
    case Settle(e, _) => e < |s.executions| && s.executions[e].end.None?
    case RunJob => s.jobs != []
  }

  function Step<A>(s: State<A>, event: Event<A>): State<A>
    requires Sane(s) && Enabled(s, event)
  {
    match event
    case Trigger(args) => Called(s, args)
    case Settle(e, fulfilled) => SettledBy(s, e, fulfilled)
    case RunJob => JobRun(s)
  }

  /** Calls, settlings and jobs in any order that is possible. */
  ghost predicate Run<A>(s: State<A>, events: seq<Event<A>>, t: State<A>)
    decreases |events|
  {
    if events == [] then s == t
    else Sane(s) && Enabled(s, events[0]) && Run(Step(s, events[0]), events[1..], t)
  }

  // ---- the invariant --------------------------------------------------------------------------------

  /** The reaction or job that is to run the queued call, if there is one. */
  function Again<A>(s: State<A>): seq<Reaction<A>>
    requires Sane(s)
  {
    if s.next.None? then [] else [ToRunNext(s.next.value, s.queue[s.next.value].args)]
  }

  /** The jobs for the queued call: not yet there, or gone because the execution failed, or one of two. */
  ghost predicate JobsAgain<A>(s: State<A>, jobs: seq<Job<A>>, fulfilled: bool)
    requires Sane(s)
  {
    if s.next.None? then jobs == []
    else
      var q, args := s.next.value, s.queue[s.next.value].args;
      || jobs == [Settled(ToRunNext(q, args), fulfilled)]
      || jobs == if fulfilled then [RunNext(q, args)] else []
  }

  /** The last execution runs, or it is settled and what follows is under way, clearing first. */
  ghost predicate Phase<A>(s: State<A>)
    requires Sane(s)
  {
    var n := |s.executions|;
    if n == 0 then s.current.None? && s.next.None? && s.jobs == []
    else
      var last := s.executions[n - 1];
      if last.end.None? then s.current == Some(n - 1) && s.jobs == [] && last.reactions == [ToClear] + Again(s)
      else if s.current.None? then JobsAgain(s, s.jobs, last.fulfilled)
      else
        && s.current == Some(n - 1) && |s.jobs| > 0
        && (if s.jobs[0] == Settled(ToClear, last.fulfilled) then
              s.jobs[1..] == if s.next.None? then [] else [Settled(Again(s)[0], last.fulfilled)]
            else if s.jobs[0] == Clear then JobsAgain(s, s.jobs[1..], last.fulfilled)
            else s.next.Some? && s.jobs == [Settled(Again(s)[0], last.fulfilled), Clear])
  }

  ghost predicate Inv<A>(s: State<A>) {
    Sane(s) && Phase(s) && History(s)
  }

  ghost predicate History<A>(s: State<A>)
    requires Sane(s)
  {
    && NoOverlap(s) && OneQueued(s) && Promised(s) && Wanted(s)
    && (s.next.Some? ==> s.queue[s.next.value].behind == |s.executions| - 1)
  }

  /** Each execution has ended before the next one starts; all of it was in the past. */
  ghost predicate NoOverlap<A>(s: State<A>) {
    && (forall i, j :: 0 <= i < j < |s.executions| ==>
          s.executions[i].end.Some? && s.executions[i].end.value < s.executions[j].start)
    && (forall i :: 0 <= i < |s.executions| ==>
          s.executions[i].start < s.now
          && (s.executions[i].end.Some? ==> s.executions[i].start < s.executions[i].end.value < s.now))
  }

  /** Only the promise under the next key is still open. Those behind a failed execution stay open. */
  ghost predicate OneQueued<A>(s: State<A>) {
    forall q :: 0 <= q < |s.queue| ==>
      && s.queue[q].behind < |s.executions|
      && (s.queue[q].resolved.None? <==> s.next == Some(q))
      && (s.queue[q].resolved.Some? ==>
            && s.executions[s.queue[q].behind].fulfilled
            && s.queue[q].resolved == Some(OfExecution(s.queue[q].behind + 1))
            && s.queue[q].behind + 1 < |s.executions|
            && s.executions[s.queue[q].behind + 1].args == s.queue[q].args)
  }

  /** The execution a promise follows. */
  function Follows<A>(s: State<A>, promise: Promise): Option<nat> {
    match promise
    case OfExecution(e) => Some(e)
    case OfQueued(q) =>
      if q < |s.queue| && s.queue[q].resolved.Some? && s.queue[q].resolved.value.OfExecution?
      then Some(s.queue[q].resolved.value.execution) else None
  }

  /** The call got an execution that did not start before it. */
  ghost predicate Covered<A>(s: State<A>, call: Call<A>) {
    var e := Follows(s, call.promise);
    e.Some? && e.value < |s.executions| && call.at <= s.executions[e.value].start
  }

  /** Every call is covered or waits for the one promise that is open. */
  ghost predicate Promised<A>(s: State<A>) {
    forall c :: 0 <= c < |s.calls| ==>
      s.calls[c].at < s.now
      && (Covered(s, s.calls[c]) || (s.next.Some? && s.calls[c].promise == OfQueued(s.next.value)))
  }

  ghost predicate HasCall<A>(s: State<A>, promise: Promise, args: A) {
    exists c :: 0 <= c < |s.calls| && s.calls[c].promise == promise && s.calls[c].args == args
  }

  /** Every execution, and the one that is to come, has the arguments of a call that follows it. */
  ghost predicate Wanted<A>(s: State<A>) {
    && (forall e :: 0 <= e < |s.executions| ==> WantedExecution(s, e))
    && (s.next.Some? && s.next.value < |s.queue| ==> HasCall(s, OfQueued(s.next.value), s.queue[s.next.value].args))
  }

  ghost predicate WantedExecution<A>(s: State<A>, e: nat)
    requires e < |s.executions|
  {
    exists c :: 0 <= c < |s.calls| && Follows(s, s.calls[c].promise) == Some(e) && s.calls[c].args == s.executions[e].args
  }

  // ---- every step keeps it --------------------------------------------------------------------------

  lemma InitialIsFine<A>()
    ensures Inv(Initial<A>())
  {
  }

  lemma CallKeepsPhase<A>(s: State<A>, args: A)
    requires Sane(s) && Phase(s)
    ensures Sane(Called(s, args)) && Phase(Called(s, args))
  {
  }

  lemma SettleKeepsPhase<A>(s: State<A>, e: nat, fulfilled: bool)
    requires Sane(s) && Phase(s) && NoOverlap(s) && e < |s.executions| && s.executions[e].end.None?
    ensures Sane(SettledBy(s, e, fulfilled)) && Phase(SettledBy(s, e, fulfilled))
  {
  }

  lemma JobKeepsPhase<A>(s: State<A>)
    requires Sane(s) && Phase(s) && s.jobs != []
    ensures Sane(JobRun(s)) && Phase(JobRun(s))
  {
  }

  /** From s to t nothing happened but time, and perhaps one more call got the open promise. */
  ghost predicate Waits<A>(s: State<A>, t: State<A>) {
    && t.executions == s.executions && t.queue == s.queue && t.next == s.next && t.now == s.now + 1
    && (t.calls == s.calls
        || (s.next.Some? && |t.calls| == |s.calls| + 1 && (forall c :: 0 <= c < |s.calls| ==> t.calls[c] == s.calls[c])
            && t.calls[|s.calls|].at == s.now && t.calls[|s.calls|].promise == OfQueued(s.next.value)))
  }

  lemma WaitingIsLater<A>(s: State<A>, t: State<A>)
    requires Waits(s, t)
    ensures Later(s, t)
  {
  }

  lemma WaitingKeepsPromises<A>(s: State<A>, t: State<A>)
    requires Promised(s) && Waits(s, t)
    ensures Promised(t)
  {
    WaitingIsLater(s, t);
    CallsRemain(s, t);
    hide Later, Covered;
  }

  lemma WaitingStaysWanted<A>(s: State<A>, t: State<A>)
    requires Wanted(s) && Waits(s, t)
    ensures Wanted(t)
  {
    WaitingIsLater(s, t);
    CallsRemain(s, t);
    hide Later, HasCall, WantedExecution;
  }

  lemma WaitingKeepsTimes<A>(s: State<A>, t: State<A>)
    requires NoOverlap(s) && Waits(s, t)
    ensures NoOverlap(t)
  {
    hide NoOverlap;
    SameTimes(s, t);
  }

  lemma WaitingKeepsOneQueued<A>(s: State<A>, t: State<A>)
    requires OneQueued(s) && Waits(s, t)
    ensures OneQueued(t)
  {
  }

  lemma WaitingKeepsHistory<A>(s: State<A>, t: State<A>)
    requires Sane(s) && History(s) && Sane(t) && Waits(s, t)
    ensures History(t)
  {
    hide NoOverlap, OneQueued, Promised, Wanted;
    WaitingKeepsTimes(s, t);
    WaitingKeepsOneQueued(s, t);
    WaitingKeepsPromises(s, t);
    WaitingStaysWanted(s, t);
  }

  /** t is s with one more call, which waits behind the last execution. */
  ghost predicate OneMoreQueued<A>(s: State<A>, t: State<A>, args: A) {
    && |t.executions| == |s.executions| > 0
    && t.queue == s.queue + [Queued(|s.executions| - 1, args, None)] && t.next == Some(|s.queue|)
    && t.calls == s.calls + [Call(args, s.now, OfQueued(|s.queue|))] && t.now == s.now + 1
    && forall e :: 0 <= e < |s.executions| ==> t.executions[e] == s.executions[e].(reactions := t.executions[e].reactions)
  }

  lemma EnqueueingIsLater<A>(s: State<A>, t: State<A>, args: A)
    requires OneMoreQueued(s, t, args)
    ensures Later(s, t) && t.calls[|s.calls|] == Call(args, s.now, OfQueued(|s.queue|))
  {
  }

  lemma EnqueueingKeepsOneQueued<A>(s: State<A>, t: State<A>, args: A)
    requires OneQueued(s) && s.next.None? && OneMoreQueued(s, t, args)
    ensures OneQueued(t)
  {
  }

  lemma EnqueueingKeepsPromises<A>(s: State<A>, t: State<A>, args: A)
    requires Promised(s) && s.next.None? && OneMoreQueued(s, t, args)
    ensures Promised(t)
  {
    EnqueueingIsLater(s, t, args);
    CallsRemain(s, t);
    hide Later, Covered;
  }

  lemma EnqueueingKeepsHistory<A>(s: State<A>, t: State<A>, args: A)
    requires Sane(s) && History(s) && s.next.None? && Sane(t) && OneMoreQueued(s, t, args)
    ensures History(t)
  {
    EnqueueingIsLater(s, t, args);
    CallsRemain(s, t);
    SameTimes(s, t);
    EnqueueingKeepsOneQueued(s, t, args);
    EnqueueingKeepsPromises(s, t, args);
    hide Later, NoOverlap, OneQueued, Promised, WantedExecution;
    assert HasCall(t, OfQueued(t.next.value), args);
  }

  lemma SameTimes<A>(s: State<A>, t: State<A>)
    requires NoOverlap(s) && |s.executions| == |t.executions| && s.now <= t.now
    requires forall e :: 0 <= e < |s.executions| ==>
               t.executions[e].start == s.executions[e].start && t.executions[e].end == s.executions[e].end
    ensures NoOverlap(t)
  {
    forall i, j | 0 <= i < j < |t.executions|
      ensures t.executions[i].end.Some? && t.executions[i].end.value < t.executions[j].start
    {
      assert t.executions[j].start == s.executions[j].start;
    }
  }

  /** All executions have ended by now. */
  predicate AllEnded<A>(s: State<A>) {
    forall e :: 0 <= e < |s.executions| ==> s.executions[e].end.Some?
  }

  /** t is s with one more execution, started by a call, or by the open promise. */
  ghost predicate OneMoreExecution<A>(s: State<A>, t: State<A>, args: A) {
    && |t.executions| == |s.executions| + 1 && (forall e :: 0 <= e < |s.executions| ==> t.executions[e] == s.executions[e])
    && (var last := t.executions[|s.executions|]; last.args == args && last.start == s.now && last.end.None?)
    && t.next == None && t.now == s.now + 1
    && (if s.next.None? then
          t.queue == s.queue && t.calls == s.calls + [Call(args, s.now, OfExecution(|s.executions|))]
        else
          var q := s.next.value;
          && q < |s.queue| && s.queue[q].args == args && s.executions != [] && s.executions[|s.executions| - 1].fulfilled
          && t.queue == s.queue[q := s.queue[q].(resolved := Some(OfExecution(|s.executions|)))]
          && t.calls == s.calls)
  }

  lemma ExecutingIsLater<A>(s: State<A>, t: State<A>, args: A)
    requires OneQueued(s) && OneMoreExecution(s, t, args)
    ensures Later(s, t) && (forall e :: 0 <= e < |s.executions| ==> t.executions[e] == s.executions[e])
  {
  }

  lemma ExecutingKeepsNoOverlap<A>(s: State<A>, t: State<A>, args: A)
    requires NoOverlap(s) && AllEnded(s) && OneMoreExecution(s, t, args) && Later(s, t)
    requires forall e :: 0 <= e < |s.executions| ==> t.executions[e] == s.executions[e]
    ensures NoOverlap(t)
  {
    hide Later;
  }

  lemma ExecutingKeepsOneQueued<A>(s: State<A>, t: State<A>, args: A)
    requires Sane(s) && OneQueued(s) && OneMoreExecution(s, t, args)
    requires s.next.Some? ==> s.queue[s.next.value].behind == |s.executions| - 1
    requires forall e :: 0 <= e < |s.executions| ==> t.executions[e] == s.executions[e]
    ensures OneQueued(t)
  {
  }

  lemma ExecutingKeepsPromises<A>(s: State<A>, t: State<A>, args: A)
    requires Promised(s) && OneQueued(s) && OneMoreExecution(s, t, args)
    ensures Promised(t)
  {
    ExecutingIsLater(s, t, args);
    CallsRemain(s, t);
    hide Later, OneQueued;
  }

  lemma ExecutingIsWanted<A>(s: State<A>, t: State<A>, args: A)
    requires Wanted(s) && OneQueued(s) && OneMoreExecution(s, t, args)
    ensures Wanted(t)
  {
    ExecutingIsLater(s, t, args);
    CallsRemain(s, t);
    hide Later, OneQueued;
    var n := |s.executions|;
    assert WantedExecution(t, n) by {
      if s.next.None? {
        assert t.calls[|s.calls|].promise == OfExecution(n);
      }
    }
  }

  lemma ExecutingKeepsHistory<A>(s: State<A>, t: State<A>, args: A)
    requires Sane(s) && History(s) && AllEnded(s) && Sane(t) && OneMoreExecution(s, t, args)
    ensures History(t)
  {
    ExecutingIsLater(s, t, args);
    ExecutingKeepsNoOverlap(s, t, args);
    ExecutingKeepsOneQueued(s, t, args);
    ExecutingKeepsPromises(s, t, args);
    ExecutingIsWanted(s, t, args);
    hide Later, NoOverlap, OneQueued, Promised, Wanted;
  }

  /** t is s after the last execution has ended. */
  ghost predicate LastEnds<A>(s: State<A>, t: State<A>, e: nat) {
    && e + 1 == |s.executions| && s.executions[e].end.None? && t.now == s.now + 1
    && |t.executions| == |s.executions| && (forall i :: 0 <= i < e ==> t.executions[i] == s.executions[i])
    && t.executions[e].end == Some(s.now)
    && t.executions[e].start == s.executions[e].start && t.executions[e].args == s.executions[e].args
    && t.queue == s.queue && t.next == s.next && t.calls == s.calls
  }

  lemma EndingIsLater<A>(s: State<A>, t: State<A>, e: nat)
    requires LastEnds(s, t, e)
    ensures Later(s, t) && forall i :: 0 <= i < e ==> t.executions[i] == s.executions[i]
  {
  }

  lemma EndingKeepsNoOverlap<A>(s: State<A>, t: State<A>, e: nat)
    requires NoOverlap(s) && LastEnds(s, t, e)
    ensures NoOverlap(t)
  {
    EndingIsLater(s, t, e);
    hide Later;
  }

  lemma EndingKeepsOneQueued<A>(s: State<A>, t: State<A>, e: nat)
    requires OneQueued(s) && LastEnds(s, t, e)
    ensures OneQueued(t)
  {
    EndingIsLater(s, t, e);
    hide Later;
  }

  lemma EndingKeepsPromises<A>(s: State<A>, t: State<A>, e: nat)
    requires Promised(s) && LastEnds(s, t, e)
    ensures Promised(t)
  {
    EndingIsLater(s, t, e);
    CallsRemain(s, t);
    hide Later, Covered;
  }

  lemma EndingKeepsHistory<A>(s: State<A>, t: State<A>, e: nat)
    requires Sane(s) && History(s) && Sane(t) && LastEnds(s, t, e)
    ensures History(t)
  {
    EndingIsLater(s, t, e);
    CallsRemain(s, t);
    EndingKeepsNoOverlap(s, t, e);
    EndingKeepsOneQueued(s, t, e);
    EndingKeepsPromises(s, t, e);
    hide Later, NoOverlap, OneQueued, Promised, WantedExecution;
  }

  // ---- each step is one of these --------------------------------------------------------------------

  lemma JoiningWaits<A>(s: State<A>, args: A)
    requires Sane(s) && s.next.Some?
    ensures Waits(s, Called(s, args))
  {
  }

  lemma EnqueueingAddsOne<A>(s: State<A>, args: A)
    requires Sane(s) && Phase(s) && s.next.None? && s.current.Some?
    ensures OneMoreQueued(s, Called(s, args), args)
  {
    assert s.current == Some(|s.executions| - 1);
    hide Phase;
  }

  lemma FirstCallExecutes<A>(s: State<A>, args: A)
    requires Sane(s) && s.next.None? && s.current.None?
    ensures OneMoreExecution(s, Called(s, args), args)
  {
  }

  /** Without a current execution, all have ended. */
  lemma IdleMeansEnded<A>(s: State<A>)
    requires Sane(s) && Phase(s) && NoOverlap(s) && s.current.None?
    ensures AllEnded(s)
  {
  }

  lemma CallKeepsHistory<A>(s: State<A>, args: A)
    requires Inv(s)
    ensures Sane(Called(s, args)) && History(Called(s, args))
  {
    var t := Called(s, args);
    CallKeepsPhase(s, args);
    hide Phase, NoOverlap, OneQueued, Promised, Wanted, Called, Waits, OneMoreQueued, OneMoreExecution, AllEnded;
    if s.next.Some? {
      JoiningWaits(s, args);
      WaitingKeepsHistory(s, t);
    } else if s.current.Some? {
      EnqueueingAddsOne(s, args);
      EnqueueingKeepsHistory(s, t, args);
    } else {
      IdleMeansEnded(s);
      FirstCallExecutes(s, args);
      ExecutingKeepsHistory(s, t, args);
    }
  }

  lemma SettlingEnds<A>(s: State<A>, e: nat, fulfilled: bool)
    requires NoOverlap(s) && e < |s.executions| && s.executions[e].end.None?
    ensures LastEnds(s, SettledBy(s, e, fulfilled), e)
  {
    assert s.executions[|s.executions| - 1].start < s.now;
  }

  lemma SettleKeepsHistory<A>(s: State<A>, e: nat, fulfilled: bool)
    requires Inv(s) && e < |s.executions| && s.executions[e].end.None?
    ensures Sane(SettledBy(s, e, fulfilled)) && History(SettledBy(s, e, fulfilled))
  {
    var t := SettledBy(s, e, fulfilled);
    SettleKeepsPhase(s, e, fulfilled);
    SettlingEnds(s, e, fulfilled);
    hide Phase, NoOverlap, OneQueued, Promised, Wanted, SettledBy, LastEnds;
    EndingKeepsHistory(s, t, e);
  }

  lemma RunningAgainExecutes<A>(s: State<A>)
    requires Sane(s) && Phase(s) && s.jobs != [] && s.jobs[0].RunNext?
    ensures s.current.None? && OneMoreExecution(s, JobRun(s), s.jobs[0].args)
  {
  }

  lemma OtherJobsWait<A>(s: State<A>)
    requires Sane(s) && s.jobs != [] && !s.jobs[0].RunNext?
    ensures Waits(s, JobRun(s))
  {
  }

  lemma JobKeepsHistory<A>(s: State<A>)
    requires Inv(s) && s.jobs != []
    ensures Sane(JobRun(s)) && History(JobRun(s))
  {
    var t := JobRun(s);
    JobKeepsPhase(s);
    hide Phase, NoOverlap, OneQueued, Promised, Wanted, JobRun, Waits, OneMoreExecution, AllEnded;
    if s.jobs[0].RunNext? {
      RunningAgainExecutes(s);
      IdleMeansEnded(s);
      ExecutingKeepsHistory(s, t, s.jobs[0].args);
    } else {
      OtherJobsWait(s);
      WaitingKeepsHistory(s, t);
    }
  }

  lemma StepKeeps<A>(s: State<A>, event: Event<A>)
    requires Inv(s) && Enabled(s, event)
    ensures Inv(Step(s, event))
  {
    hide NoOverlap, OneQueued, Promised, Wanted, Called, JobRun;
    match event
    case Trigger(args) =>
      CallKeepsPhase(s, args);
      CallKeepsHistory(s, args);
    case Settle(e, fulfilled) =>
      SettleKeepsPhase(s, e, fulfilled);
      SettleKeepsHistory(s, e, fulfilled);
    case RunJob =>
      JobKeepsPhase(s);
      JobKeepsHistory(s);
  }

  lemma {:induction false} RunKeeps<A>(s: State<A>, events: seq<Event<A>>, t: State<A>)
    requires Inv(s) && Run(s, events, t)
    ensures Inv(t)
    decreases |events|
  {
    if events != [] {
      StepKeeps(s, events[0]);
      RunKeeps(Step(s, events[0]), events[1..], t);
    }
  }

  /** Later states know all that earlier ones did. */
  ghost predicate Later<A>(s: State<A>, t: State<A>) {
    && s.now <= t.now
    && |s.calls| <= |t.calls| && (forall c :: 0 <= c < |s.calls| ==> t.calls[c] == s.calls[c])
    && |s.queue| <= |t.queue| && (forall q :: 0 <= q < |s.queue| ==>
         t.queue[q].args == s.queue[q].args && (s.queue[q].resolved.Some? ==> t.queue[q].resolved == s.queue[q].resolved))
    && |s.executions| <= |t.executions| && (forall e :: 0 <= e < |s.executions| ==>
         t.executions[e].args == s.executions[e].args && t.executions[e].start == s.executions[e].start)
  }

  lemma CallsRemain<A>(s: State<A>, t: State<A>)
    requires Later(s, t)
    ensures forall c :: 0 <= c < |s.calls| ==> t.calls[c] == s.calls[c] && (Covered(s, s.calls[c]) ==> Covered(t, s.calls[c]))
    ensures forall p: Promise, args :: HasCall(s, p, args) ==> HasCall(t, p, args)
    ensures forall e :: 0 <= e < |s.executions| && WantedExecution(s, e) ==> WantedExecution(t, e)
  {
  }

  // ---- theorems -------------------------------------------------------------------------------------

  /** In every run executions follow one another, and at most one more is promised. */
  lemma NeverTwoAtOnce<A>(events: seq<Event<A>>, t: State<A>)
    requires Run(Initial(), events, t)
    ensures forall i, j :: 0 <= i < j < |t.executions| ==>
              t.executions[i].end.Some? && t.executions[i].end.value < t.executions[j].start
    ensures forall q :: 0 <= q < |t.queue| && t.queue[q].resolved.None? ==> t.next == Some(q)
  {
    InitialIsFine<A>();
    RunKeeps(Initial(), events, t);
  }

  /** Every execution follows from a call, with its arguments. */
  lemma NoneWithoutACall<A>(events: seq<Event<A>>, t: State<A>, e: nat)
    requires Run(Initial(), events, t) && e < |t.executions|
    ensures exists c :: 0 <= c < |t.calls| && Follows(t, t.calls[c].promise) == Some(e)
                        && t.calls[c].args == t.executions[e].args
  {
    InitialIsFine<A>();
    RunKeeps(Initial(), events, t);
    assert WantedExecution(t, e);
  }

  /** Nothing runs and nothing is left to do. */
  predicate Quiet<A>(s: State<A>) {
    s.jobs == [] && forall e :: 0 <= e < |s.executions| ==> s.executions[e].end.Some?
  }

  /** No call was put behind an execution that failed. */
  predicate NoneBehindFailure<A>(s: State<A>) {
    forall q :: 0 <= q < |s.queue| && s.queue[q].behind < |s.executions| ==> s.executions[s.queue[q].behind].fulfilled
  }

  /**
   When all is quiet, every call got an execution that started when it was made or later, unless a
   call was put behind an execution that failed; then that call never gets one.
   */
  lemma EveryCallIsCovered<A>(events: seq<Event<A>>, t: State<A>)
    requires Run(Initial(), events, t) && Quiet(t)
    ensures (forall c :: 0 <= c < |t.calls| ==> Covered(t, t.calls[c])) <==> NoneBehindFailure(t)
    ensures NoneBehindFailure(t) <==> t.next.None?
  {
    InitialIsFine<A>();
    RunKeeps(Initial(), events, t);
    QuietMeansCovered(t);
  }

  lemma QuietMeansCovered<A>(t: State<A>)
    requires Inv(t) && Quiet(t)
    ensures (forall c :: 0 <= c < |t.calls| ==> Covered(t, t.calls[c])) <==> NoneBehindFailure(t)
    ensures NoneBehindFailure(t) <==> t.next.None?
  {
    hide NoOverlap;
    if t.next.Some? {
      var q := t.next.value;
      assert !t.executions[t.queue[q].behind].fulfilled;
      assert HasCall(t, OfQueued(q), t.queue[q].args);
      hide Phase;
      assert t.queue[q].resolved.None?;
    } else {
      hide Phase;
    }
  }

  /** With fulfilled executions only, everybody is served. */
  lemma AllFulfilledAllCovered<A>(events: seq<Event<A>>, t: State<A>)
    requires Run(Initial(), events, t) && Quiet(t)
    requires forall e :: 0 <= e < |t.executions| ==> t.executions[e].fulfilled
    ensures forall c :: 0 <= c < |t.calls| ==> Covered(t, t.calls[c])
  {
    EveryCallIsCovered(events, t);
  }

  /** A call behind a failed execution blocks all later ones: nothing is ever executed again. */
  lemma {:induction false} BlockedForever<A>(s: State<A>, events: seq<Event<A>>, t: State<A>)
    requires Inv(s) && Quiet(s) && s.next.Some? && Run(s, events, t)
    ensures t.executions == s.executions && t.next == s.next && Quiet(t)
    decreases |events|
  {
    if events != [] {
      StepKeeps(s, events[0]);
      BlockedForever(Step(s, events[0]), events[1..], t);
    }
  }

  /** Two calls, a failure, and the three jobs that follow. */
  function Blocking<A>(s: State<A>, args: A, again: A): seq<Event<A>> {
    [Trigger(args), Trigger(again), Settle(|s.executions|, false), RunJob, RunJob, RunJob]
  }

  /** From any quiet state that is not blocked, a second call and a failure block the method. */
  lemma FailureBlocks<A>(s: State<A>, args: A, again: A) returns (t: State<A>)
    requires Sane(s) && s.next.None? && s.current.None? && s.jobs == []
    ensures Run(s, Blocking(s, args, again), t) && t.next == Some(|s.queue|) && t.current.None? && t.jobs == []
    ensures |t.executions| == |s.executions| + 1 && t.executions[..|s.executions|] == s.executions
    ensures t.executions[|s.executions|].end.Some?
  {
    var n, q := |s.executions|, |s.queue|;
    hide Step, Called, SettledBy, JobRun;
    FirstCall(s, args);
    var s1 := Step(s, Trigger(args));
    SecondCall(s1, n, again);
    var s2 := Step(s1, Trigger(again));
    Failure(s2, n);
    var s3 := Step(s2, Settle(n, false));
    NothingRunsAgain(s3, q, again);
    var s4, s5 := Step(s3, RunJob), Step(Step(s3, RunJob), RunJob);
    t := Step(s5, RunJob);
    assert t.executions[..n] == s.executions;
    RunOfSix(s, s1, s2, s3, s4, s5, t, Blocking(s, args, again));
  }

  lemma FirstCall<A>(s: State<A>, args: A)
    requires Sane(s) && s.next.None? && s.current.None? && s.jobs == []
    ensures var r := Step(s, Trigger(args));
            && Leads(s, Trigger(args), r) && Sane(r) && r.current == Some(|s.executions|) && r.next.None? && r.jobs == []
            && r.executions == s.executions + [Execution(args, s.now, None, true, [ToClear])] && r.queue == s.queue
  {
    var e := Execution(args, s.now, None, true, []);
    var all := s.executions + [e];
    assert all[|s.executions| := e.(reactions := [ToClear])] == s.executions + [e.(reactions := [ToClear])];
    assert e.reactions + [ToClear] == [ToClear];
  }

  lemma SecondCall<A>(s: State<A>, n: nat, again: A)
    requires Sane(s) && s.next.None? && s.current == Some(n) && s.jobs == [] && n < |s.executions|
    requires s.executions[n].end.None? && s.executions[n].reactions == [ToClear]
    ensures var r := Step(s, Trigger(again));
            && Leads(s, Trigger(again), r) && Sane(r) && r.current == Some(n) && r.next == Some(|s.queue|) && r.jobs == []
            && |r.queue| == |s.queue| + 1 && r.executions == s.executions[n := r.executions[n]]
            && r.executions[n].end.None? && r.executions[n].reactions == [ToClear, ToRunNext(|s.queue|, again)]
  {
    assert [ToClear] + [ToRunNext(|s.queue|, again)] == [ToClear, ToRunNext(|s.queue|, again)];
  }

  lemma Failure<A>(s: State<A>, n: nat)
    requires Sane(s) && s.jobs == [] && n < |s.executions| && s.executions[n].end.None? && |s.executions[n].reactions| == 2
    ensures var r := Step(s, Settle(n, false));
            && Leads(s, Settle(n, false), r) && Sane(r) && r.current == s.current && r.next == s.next && r.queue == s.queue
            && r.executions == s.executions[n := r.executions[n]] && r.executions[n].end.Some?
            && r.jobs == [Settled(s.executions[n].reactions[0], false), Settled(s.executions[n].reactions[1], false)]
  {
  }

  lemma NothingRunsAgain<A>(s: State<A>, q: nat, args: A)
    requires Sane(s) && s.jobs == [Settled(ToClear, false), Settled(ToRunNext(q, args), false)]
    ensures Leads(s, RunJob, Step(s, RunJob))
    ensures Leads(Step(s, RunJob), RunJob, Step(Step(s, RunJob), RunJob))
    ensures var u := Step(Step(s, RunJob), RunJob);
            var t := Step(u, RunJob);
            && Leads(u, RunJob, t) && t.executions == s.executions && t.next == s.next && t.current.None? && t.jobs == []
  {
    var s1 := Step(s, RunJob);
    assert s.jobs[1..] == [Settled(ToRunNext(q, args), false)];
    assert s1 == s.(jobs := [Settled(ToRunNext(q, args), false), Clear], now := s.now + 1);
    var s2 := Step(s1, RunJob);
    assert s1.jobs[1..] == [Clear];
    assert s2 == s1.(jobs := [Clear], now := s1.now + 1);
    assert s2.jobs[1..] == [];
  }

  lemma RunOfSix<A>(s: State<A>, s1: State<A>, s2: State<A>, s3: State<A>, s4: State<A>, s5: State<A>, t: State<A>,
                    e: seq<Event<A>>)
    requires |e| == 6 && Leads(s, e[0], s1) && Leads(s1, e[1], s2) && Leads(s2, e[2], s3)
    requires Leads(s3, e[3], s4) && Leads(s4, e[4], s5) && Leads(s5, e[5], t)
    ensures Run(s, e, t)
  {
    hide Step, Sane, Enabled;
    assert Run(t, e[6..], t);
    RunFrom(s5, e, 5, t, t);
    RunFrom(s4, e, 4, s5, t);
    RunFrom(s3, e, 3, s4, t);
    RunFrom(s2, e, 2, s3, t);
    RunFrom(s1, e, 1, s2, t);
    RunFrom(s, e, 0, s1, t);
    assert e[0..] == e;
  }

  ghost predicate Leads<A>(s: State<A>, event: Event<A>, t: State<A>) {
    Sane(s) && Enabled(s, event) && t == Step(s, event)
  }

  lemma RunFrom<A>(s: State<A>, e: seq<Event<A>>, k: nat, s1: State<A>, t: State<A>)
    requires k < |e| && Leads(s, e[k], s1) && Run(s1, e[k + 1..], t)
    ensures Run(s, e[k..], t)
  {
    assert e[k..][0] == e[k] && e[k..][1..] == e[k + 1..];
    hide Step, Sane, Enabled;
  }

  /** In this run the second call never gets an execution, and no later call ever will. */
  lemma BlockedIsReached<A>(args: A, again: A) returns (t: State<A>)
    ensures Run(Initial(), Blocking(Initial(), args, again), t) && Inv(t) && Quiet(t) && t.next.Some? && !NoneBehindFailure(t)
    ensures forall more, u :: Run(t, more, u) ==> u.executions == t.executions
  {
    InitialIsFine<A>();
    t := FailureBlocks(Initial(), args, again);
    RunKeeps(Initial(), Blocking(Initial(), args, again), t);
    hide Inv, Run;
    QuietMeansCovered(t);
    forall more, u | Run(t, more, u) ensures u.executions == t.executions {
      BlockedForever(t, more, u);
    }
  }

  // ---- it comes to rest -----------------------------------------------------------------------------

  function JobWork<A>(jobs: seq<Job<A>>): nat {
    if jobs == [] then 0 else (if jobs[0].Settled? then 2 else 1) + JobWork(jobs[1..])
  }

  /** How many settlings and jobs there can be before the next call. */
  function Work<A>(s: State<A>): (work: nat) {
    (if s.next.Some? then 8 else 0) + JobWork(s.jobs)
    + (if |s.executions| > 0 && s.executions[|s.executions| - 1].end.None? then 5 else 0)
  }

  lemma JobWorkAdds<A>(jobs: seq<Job<A>>, job: Job<A>)
    ensures JobWork(jobs + [job]) == JobWork(jobs) + JobWork([job])
  {
    if jobs != [] {
      assert (jobs + [job])[1..] == jobs[1..] + [job];
      JobWorkAdds(jobs[1..], job);
    } else {
      assert jobs + [job] == [job];
    }
  }

  lemma SettlingIsWork<A>(s: State<A>, e: nat, fulfilled: bool)
    requires Inv(s) && e < |s.executions| && s.executions[e].end.None?
    ensures Work(SettledBy(s, e, fulfilled)) < Work(s)
  {
    var t := SettledBy(s, e, fulfilled);
    assert e == |s.executions| - 1;
    assert t.jobs == [Settled(ToClear, fulfilled)] + if s.next.None? then [] else [Settled(Again(s)[0], fulfilled)];
    var clear := [Settled(ToClear, fulfilled)];
    assert JobWork(clear) == 2;
    if s.next.Some? {
      JobWorkAdds(clear, Settled(Again(s)[0], fulfilled));
    }
  }

  lemma RunningIsWork<A>(s: State<A>)
    requires Inv(s) && s.jobs != []
    ensures Work(JobRun(s)) < Work(s)
  {
    hide History;
    var rest := s.jobs[1..];
    match s.jobs[0]
    case Settled(ToClear, f) => JobWorkAdds(rest, Clear);
    case Settled(ToRunNext(q, args), f) => JobWorkAdds(rest, RunNext(q, args));
    case Clear =>
    case RunNext(q, args) => RunningAgainIsWork(s);
  }

  lemma RunningAgainIsWork<A>(s: State<A>)
    requires Sane(s) && Phase(s) && s.jobs != [] && s.jobs[0].RunNext?
    ensures Work(JobRun(s)) < Work(s)
  {
    assert s.jobs[1..] == [] && s.current.None? && s.next.Some?;
    hide Phase;
    assert JobRun(s).jobs == [] && JobRun(s).next.None?;
  }

  /** Without new calls every run is short. */
  lemma {:induction false} SettlesDown<A>(s: State<A>, events: seq<Event<A>>, t: State<A>)
    requires Inv(s) && Run(s, events, t) && forall i :: 0 <= i < |events| ==> !events[i].Trigger?
    ensures |events| <= Work(s)
    decreases |events|
  {
    if events != [] {
      var event := events[0];
      assert !event.Trigger?;
      if event.Settle? {
        SettlingIsWork(s, event.execution, event.fulfilled);
      } else {
        RunningIsWork(s);
      }
      StepKeeps(s, event);
      hide Inv, Work;
      SettlesDown(Step(s, event), events[1..], t);
    }
  }

  /** A job, or a settling with that outcome. */
  predicate Settling<A>(event: Event<A>, fulfilled: bool) {
    event == RunJob || (event.Settle? && event.fulfilled == fulfilled)
  }

  /**
   Every state comes to rest without calls, whether the executions still under way fulfil or fail: any
   such run can be gone on with until all is quiet.
   */
  lemma {:induction false} ComesToRest<A>(s: State<A>, fulfilled: bool) returns (events: seq<Event<A>>, t: State<A>)
    requires Inv(s)
    ensures Run(s, events, t) && Inv(t) && Quiet(t) && forall i :: 0 <= i < |events| ==> Settling(events[i], fulfilled)
    decreases Work(s)
  {
    if Quiet(s) {
      events, t := [], s;
    } else {
      var event := NextSettling(s, fulfilled);
      StepKeeps(s, event);
      hide Inv, Work, Quiet;
      var more;
      more, t := ComesToRest(Step(s, event), fulfilled);
      events := [event] + more;
      assert events[1..] == more;
      FirstOfRun(s, event, more, t);
    }
  }

  lemma NextSettling<A>(s: State<A>, fulfilled: bool) returns (event: Event<A>)
    requires Inv(s) && !Quiet(s)
    ensures Sane(s) && Enabled(s, event) && Settling(event, fulfilled) && Work(Step(s, event)) < Work(s)
  {
    if s.jobs != [] {
      event := RunJob;
      RunningIsWork(s);
    } else {
      var e :| 0 <= e < |s.executions| && s.executions[e].end.None?;
      event := Settle(e, fulfilled);
      SettlingIsWork(s, e, fulfilled);
    }
  }

  lemma FirstOfRun<A>(s: State<A>, event: Event<A>, more: seq<Event<A>>, t: State<A>)
    requires Sane(s) && Enabled(s, event) && Run(Step(s, event), more, t)
    ensures Run(s, [event] + more, t)
  {
    hide Step, Enabled, Sane;
    assert ([event] + more)[1..] == more;
  }

  // ---- the decorated method -------------------------------------------------------------------------

  lemma JobGoesOn<A>(s: State<A>)
    requires Inv(s) && s.jobs != []
    ensures Sane(s) && Sane(s.(jobs := s.jobs[1..])) && Inv(JobRun(s))
    ensures JobRun(s) == AfterJob(s.(jobs := s.jobs[1..]), s.jobs[0]).(now := s.now + 1)
    ensures AfterJob(s.(jobs := s.jobs[1..]), s.jobs[0]).now == s.now
  {
    StepKeeps(s, RunJob);
    hide Phase, History;
  }

  /** The object, with its two keys, and the event loop around it. */
  class Throttle<A> {
    var current: Option<nat>
    var next: Option<nat>
    var jobs: seq<Job<A>>
    var executions: seq<Execution<A>>
    var queue: seq<Queued<A>>
    var calls: seq<Call<A>>
    var now: nat

    ghost function View(): State<A>
      reads this
    {
      State(current, next, jobs, executions, queue, calls, now)
    }

    constructor ()
      ensures View() == Initial()
    {
      current, next, jobs, executions, queue, calls, now := None, None, [], [], [], [], 0;
    }

    method OnSettled(execution: nat, reaction: Reaction<A>)
      requires execution < |executions|
      modifies this`jobs, this`executions
      ensures View() == Then(old(View()), execution, reaction)
    {
      var e := executions[execution];
      if e.end.None? {
        executions := executions[execution := e.(reactions := e.reactions + [reaction])];
      } else {
        jobs := jobs + [Settled(reaction, e.fulfilled)];
      }
    }

    /** The decorated function, without the record of the call. */
    method Trigger(args: A) returns (promise: Promise)
      requires Sane(View())
      modifies this
      ensures View() == Triggered(old(View()), args) && promise == PromiseOf(old(View()))
    {
      if next.Some? {
        return OfQueued(next.value);
      }
      if current.Some? {
        next := Some(|queue|);
        queue := queue + [Queued(current.value, args, None)];
        OnSettled(current.value, ToRunNext(next.value, args));
        return OfQueued(next.value);
      }
      current := Some(|executions|);
      executions := executions + [Execution(args, now, None, true, [])];
      OnSettled(current.value, ToClear);
      return OfExecution(current.value);
    }

    method Invoke(args: A) returns (promise: Promise)
      requires Inv(View())
      modifies this
      ensures View() == Called(old(View()), args) && Inv(View()) && promise == PromiseOf(old(View()))
    {
      StepKeeps(View(), Event.Trigger(args));
      hide Inv, Triggered;
      var at := now;
      promise := Trigger(args);
      calls := calls + [Call(args, at, promise)];
      now := now + 1;
    }

    method Settle(execution: nat, fulfilled: bool)
      requires Inv(View()) && execution < |executions| && executions[execution].end.None?
      modifies this
      ensures View() == SettledBy(old(View()), execution, fulfilled) && Inv(View())
    {
      StepKeeps(View(), Event.Settle(execution, fulfilled));
      hide Inv;
      var e := executions[execution];
      executions := executions[execution := e.(end := Some(now), fulfilled := fulfilled, reactions := [])];
      jobs := jobs + seq(|e.reactions|, i requires 0 <= i < |e.reactions| => Settled(e.reactions[i], fulfilled));
      now := now + 1;
    }

    method Perform(job: Job<A>)
      requires Sane(View())
      modifies this
      ensures View() == AfterJob(old(View()), job)
    {
      hide Triggered, PromiseOf, Sane;
      match job {
        case Settled(ToClear, _) =>
          jobs := jobs + [Clear];
        case Settled(ToRunNext(q, args), fulfilled) =>
          if fulfilled {
            jobs := jobs + [RunNext(q, args)];
          }
        case Clear =>
          current := None;
        case RunNext(q, args) =>
          RunAgain(q, args);
      }
    }

    method RunAgain(q: nat, args: A)
      requires Sane(View())
      modifies this
      ensures View() == AfterJob(old(View()), RunNext(q, args))
    {
      next := None;
      hide Triggered, PromiseOf;
      var promise := Trigger(args);
      if q < |queue| {
        queue := queue[q := queue[q].(resolved := Some(promise))];
      }
    }

    method RunJob()
      requires Inv(View()) && jobs != []
      modifies this
      ensures View() == JobRun(old(View())) && Inv(View())
    {
      hide Inv, Sane, JobRun, AfterJob;
      JobGoesOn(View());
      var job := jobs[0];
      jobs := jobs[1..];
      Perform(job);
      now := now + 1;
    }
  }
}
