/** Opening, leasing and closing the store behind the MCP transport (cmd/gitcode-mcp/mcp_bootstrap.go). Each step
    is one critical section of the mutex, one release, or one return from waiting for the group. */
module McpBootstrap {
  import opened Wrappers

  /** How far a caller of Close has got. */
  datatype Closer = Waiting | Passed | Finished

  /** Stores and handlers are numbered as they are opened and handed out; shut lists the stores closed so far. */
  datatype State = State(closed: bool, store: Option<nat>, active: nat, opens: nat, shut: seq<nat>,
                         handed: nat, outstanding: set<nat>, closers: map<nat, Closer>)

  const INITIAL := State(false, None, 0, 0, [], 0, {}, map[])

  /** What happens to a tool call that finds the transport open: it may be turned away before the store matters,
      fail after the store was opened, or be handed a handler. */
  datatype Outcome = TurnedAway | FailsLate | Handed

  datatype Step =
    | Tool(outcome: Outcome)
    | Release(handler: nat)
    | BeginClose(closer: nat)
    | Wake(closer: nat)
    | EndClose(closer: nat)

  function Opened(s: State): State {
    if s.store.Some? then s else s.(store := Some(s.opens), opens := s.opens + 1)
  }

  function Leased(s: State): State {
    s.(active := s.active + 1, handed := s.handed + 1, outstanding := s.outstanding + {s.handed})
  }

  function Next(s: State, step: Step): State {
    match step
    case Tool(outcome) =>
      if s.closed || outcome.TurnedAway? then s
      else if outcome.FailsLate? then Opened(s)
      else Leased(Opened(s))
    case Release(h) =>
      if h in s.outstanding && s.active > 0 then s.(active := s.active - 1, outstanding := s.outstanding - {h}) else s
    case BeginClose(c) =>
      if c in s.closers then s else s.(closed := true, closers := s.closers[c := Waiting])
    case Wake(c) =>
      if c in s.closers && s.closers[c].Waiting? && s.active == 0 then s.(closers := s.closers[c := Passed]) else s
    case EndClose(c) =>
      if c in s.closers && s.closers[c].Passed? then
        s.(closers := s.closers[c := Finished], store := None,
           shut := if s.store.Some? then s.shut + [s.store.value] else s.shut)
      else s
  }

  function Run(s: State, steps: seq<Step>): State
    decreases |steps|
  {
    if steps == [] then s else Run(Next(s, steps[0]), steps[1..])
  }

  ghost predicate Ended(s: State) { exists c | c in s.closers :: !s.closers[c].Waiting? }

  ghost predicate Invariant(s: State) {
    && s.active == |s.outstanding|
    && (forall h | h in s.outstanding :: h < s.handed)
    && (s.outstanding != {} ==> s.store.Some?)
    && (s.closers != map[] ==> s.closed)
    && (Ended(s) ==> s.outstanding == {})
    && (s.store.Some? ==> s.shut == [] && s.store == Some(0) && s.opens == 1)
    && (s.shut != [] ==> s.shut == [0] && s.opens == 1 && s.closed && s.outstanding == {})
    && (s.store.None? && s.shut == [] ==> s.opens == 0)
  }

  lemma ToolKeeps(s: State, step: Step)
    requires Invariant(s) && step.Tool?
    ensures Invariant(Next(s, step))
  {
    if !s.closed {
      assert s.closers == map[];
      assert !Ended(Next(s, step));
    }
  }

  lemma ReleaseKeeps(s: State, step: Step)
    requires Invariant(s) && step.Release?
    ensures Invariant(Next(s, step))
  {
    if step.handler in s.outstanding && s.active > 0 {
      assert |s.outstanding - {step.handler}| == |s.outstanding| - 1;
      assert Next(s, step).closers == s.closers;
    }
  }

  lemma ClosingKeeps(s: State, step: Step)
    requires Invariant(s) && !step.Tool? && !step.Release?
    ensures Invariant(Next(s, step))
  {
    var u := Next(s, step);
    if step.BeginClose? && step.closer !in s.closers {
      if c :| c in u.closers && !u.closers[c].Waiting? { assert c in s.closers && !s.closers[c].Waiting?; }
    } else if step.Wake? && step.closer in s.closers && s.active == 0 {
      assert s.outstanding == {};
    } else if step.EndClose? && step.closer in s.closers && s.closers[step.closer].Passed? {
      assert Ended(s);
    }
  }

  lemma {:induction false} RunKeeps(s: State, steps: seq<Step>)
    requires Invariant(s)
    ensures Invariant(Run(s, steps))
    decreases |steps|
  {
    if steps != [] {
      if steps[0].Tool? { ToolKeeps(s, steps[0]); } else if steps[0].Release? { ReleaseKeeps(s, steps[0]); } else { ClosingKeeps(s, steps[0]); }
      RunKeeps(Next(s, steps[0]), steps[1..]);
    }
  }

  /** In every interleaving a handler that was not released has an open store, and the store is closed at most once. */
  lemma LeasesKeepTheStoreOpen(steps: seq<Step>)
    ensures var s := Run(INITIAL, steps);
            (s.outstanding != {} ==> s.store.Some? && s.store.value !in s.shut) && |s.shut| <= 1 && s.active == |s.outstanding|
  {
    RunKeeps(INITIAL, steps);
  }

  /** The step that closes the store finds every handler released, and closing begun. */
  lemma ClosedOnlyWhenReleased(steps: seq<Step>, step: Step)
    ensures var s := Run(INITIAL, steps);
            Next(s, step).shut != s.shut ==> s.outstanding == {} && s.closed && step.EndClose?
  {
    RunKeeps(INITIAL, steps);
    var s := Run(INITIAL, steps);
    if step.EndClose? && step.closer in s.closers && s.closers[step.closer].Passed? { assert Ended(s); }
  }

  /** Once closing has begun no handler is handed out and no store is opened. */
  lemma {:induction false} NothingAfterClosing(s: State, steps: seq<Step>)
    requires s.closed
    ensures var u := Run(s, steps); u.closed && u.handed == s.handed && u.opens == s.opens && u.outstanding <= s.outstanding
    decreases |steps|
  {
    if steps != [] { NothingAfterClosing(Next(s, steps[0]), steps[1..]); }
  }

  /** No lease is added while a closer waits or after, so waiting cannot miss one. */
  lemma NoLeaseWhileWaiting(steps: seq<Step>, step: Step)
    ensures var s := Run(INITIAL, steps); Next(s, step).active > s.active ==> s.closers == map[]
  {
    RunKeeps(INITIAL, steps);
  }

  /** And every closer gets through once the handlers are released: then the store is closed. */
  lemma ReleasedStoreCloses(steps: seq<Step>, c: nat)
    requires var s := Run(INITIAL, steps); s.outstanding == {} && c in s.closers && s.closers[c].Waiting?
    ensures var u := Next(Next(Run(INITIAL, steps), Wake(c)), EndClose(c)); u.store.None? && u.closers[c].Finished?
  {
    RunKeeps(INITIAL, steps);
  }

  // ---- the same, told by the steps alone ----

  /** Closing has begun. */
  predicate Begun(steps: seq<Step>) { exists i | 0 <= i < |steps| :: steps[i].BeginClose? }

  /** The i-th step is a tool call that finds the transport open and gets a handler, or gets as far as the store. */
  predicate HandsOut(steps: seq<Step>, i: nat) { i < |steps| && steps[i] == Tool(Handed) && !Begun(steps[..i]) }
  predicate NeedsStore(steps: seq<Step>, i: nat) { i < |steps| && steps[i].Tool? && !steps[i].outcome.TurnedAway? && !Begun(steps[..i]) }

  /** How many handlers the steps hand out; they are numbered from 0. */
  function Handouts(steps: seq<Step>): nat {
    if steps == [] then 0
    else Handouts(steps[..|steps| - 1]) + if HandsOut(steps, |steps| - 1) then 1 else 0
  }

  /** Handler h is handed out by the i-th step, and never released after it. */
  ghost predicate HeldSince(steps: seq<Step>, i: nat, h: nat) {
    HandsOut(steps, i) && Handouts(steps[..i]) == h && Release(h) !in steps[i + 1..]
  }

  lemma {:induction false} RunOn(s: State, steps: seq<Step>, step: Step)
    ensures Run(s, steps + [step]) == Next(Run(s, steps), step)
    decreases |steps|
  {
    if steps == [] {
      assert [step][1..] == [] && steps + [step] == [step];
      assert Run(Next(s, step), []) == Next(s, step);
    } else {
      assert (steps + [step])[0] == steps[0] && (steps + [step])[1..] == steps[1..] + [step];
      RunOn(Next(s, steps[0]), steps[1..], step);
    }
  }

  lemma BegunOn(steps: seq<Step>, step: Step)
    ensures Begun(steps + [step]) <==> Begun(steps) || step.BeginClose?
  {
    assert (steps + [step])[|steps|] == step;
    if i :| 0 <= i < |steps| && steps[i].BeginClose? { assert (steps + [step])[i].BeginClose?; }
  }

  lemma HeldOn(steps: seq<Step>, step: Step, i: nat, h: nat)
    requires i < |steps|
    ensures HeldSince(steps + [step], i, h) <==> HeldSince(steps, i, h) && step != Release(h)
  {
    assert (steps + [step])[..i] == steps[..i] && (steps + [step])[i + 1..] == steps[i + 1..] + [step];
  }

  lemma HandOutLast(init: seq<Step>, steps: seq<Step>, h: nat)
    requires steps == init + [Tool(Handed)] && !Begun(init)
    ensures Handouts(steps) == Handouts(init) + 1
    ensures (exists i: nat :: HeldSince(steps, i, h)) <==> h == Handouts(init) || exists i: nat :: HeldSince(init, i, h)
  {
    assert steps[..|init|] == init && steps[|init| + 1..] == [];
    assert HandsOut(steps, |init|);
    if h == Handouts(init) { assert HeldSince(steps, |init|, h); }
    if i: nat :| HeldSince(steps, i, h) { if i < |init| { HeldOn(init, Tool(Handed), i, h); } }
    if i: nat :| HeldSince(init, i, h) {
      HeldOn(init, Tool(Handed), i, h);
      assert HeldSince(steps, i, h);
    }
  }

  lemma NoHandOutLast(init: seq<Step>, step: Step, h: nat)
    requires !(step == Tool(Handed) && !Begun(init))
    ensures Handouts(init + [step]) == Handouts(init)
    ensures (exists i: nat :: HeldSince(init + [step], i, h)) <==> step != Release(h) && exists i: nat :: HeldSince(init, i, h)
  {
    var steps := init + [step];
    assert steps[..|init|] == init;
    if i: nat :| HeldSince(steps, i, h) { HeldOn(init, step, i, h); }
    if i: nat :| HeldSince(init, i, h) && step != Release(h) {
      HeldOn(init, step, i, h);
      assert HeldSince(steps, i, h);
    }
  }

  lemma CountersStep(s: State, step: Step)
    requires s.closers != map[] ==> s.closed
    ensures Next(s, step).closed <==> s.closed || step.BeginClose?
    ensures Next(s, step).handed == s.handed + if step == Tool(Handed) && !s.closed then 1 else 0
  {
  }

  lemma HandoutsOn(init: seq<Step>, step: Step)
    ensures Handouts(init + [step]) == Handouts(init) + if step == Tool(Handed) && !Begun(init) then 1 else 0
  {
    var steps := init + [step];
    assert steps[..|steps| - 1] == init;
  }

  lemma {:induction false} CountersFollow(steps: seq<Step>)
    ensures var s := Run(INITIAL, steps); s.closed == Begun(steps) && s.handed == Handouts(steps)
    decreases |steps|
  {
    if steps != [] {
      var init, step := steps[..|steps| - 1], steps[|steps| - 1];
      assert steps == init + [step];
      RunKeeps(INITIAL, init);
      RunOn(INITIAL, init, step);
      CountersFollow(init);
      CountersStep(Run(INITIAL, init), step);
      BegunOn(init, step);
      HandoutsOn(init, step);
    }
  }

  /** What one step does to the set of unreleased handlers. */
  lemma OutstandingStep(s: State, step: Step, h: nat)
    requires step.Release? && step.handler in s.outstanding ==> s.active > 0
    ensures h in Next(s, step).outstanding
            <==> (step == Tool(Handed) && !s.closed && h == s.handed) || (h in s.outstanding && step != Release(h))
  {
  }

  lemma LeasesAreCounted(s: State, h: nat)
    requires Invariant(s) && h in s.outstanding
    ensures s.active > 0
  {
    assert |s.outstanding| > 0;
  }

  /** The unreleased handlers are exactly those that some step handed out and none released since. */
  lemma {:induction false} OutstandingIsHeld(steps: seq<Step>, h: nat)
    ensures h in Run(INITIAL, steps).outstanding <==> exists i: nat :: HeldSince(steps, i, h)
    decreases |steps|
  {
    if steps != [] {
      var init, step := steps[..|steps| - 1], steps[|steps| - 1];
      assert steps == init + [step];
      RunKeeps(INITIAL, init);
      RunOn(INITIAL, init, step);
      CountersFollow(init);
      OutstandingIsHeld(init, h);
      if step.Release? && step.handler in Run(INITIAL, init).outstanding { LeasesAreCounted(Run(INITIAL, init), step.handler); }
      OutstandingStep(Run(INITIAL, init), step, h);
      if step == Tool(Handed) && !Begun(init) {
        HandOutLast(init, steps, h);
      } else {
        NoHandOutLast(init, step, h);
      }
    }
  }

  lemma NeedsStoreOn(init: seq<Step>, step: Step)
    ensures (exists i: nat :: NeedsStore(init + [step], i)) <==> (step.Tool? && !step.outcome.TurnedAway? && !Begun(init)) || exists i: nat :: NeedsStore(init, i)
  {
    var steps := init + [step];
    assert steps[..|init|] == init && steps[|init|] == step;
    if step.Tool? && !step.outcome.TurnedAway? && !Begun(init) { assert NeedsStore(steps, |init|); }
    if i: nat :| NeedsStore(steps, i) { if i < |init| { assert steps[..i] == init[..i]; assert NeedsStore(init, i); } }
    if i: nat :| NeedsStore(init, i) { assert steps[..i] == init[..i]; assert NeedsStore(steps, i); }
  }

  lemma {:induction false} OpenedWhenNeeded(steps: seq<Step>)
    ensures var s := Run(INITIAL, steps); s.opens == (if exists i: nat :: NeedsStore(steps, i) then 1 else 0)
    decreases |steps|
  {
    if steps != [] {
      var init, step := steps[..|steps| - 1], steps[|steps| - 1];
      assert steps == init + [step];
      RunKeeps(INITIAL, init);
      RunOn(INITIAL, init, step);
      CountersFollow(init);
      NeedsStoreOn(init, step);
      OpenedWhenNeeded(init);
    }
  }

  /** A caller of Close waits from its first critical section until it is woken. */
  lemma {:induction false} WaitsUntilWoken(steps: seq<Step>, c: nat)
    requires Wake(c) !in steps
    ensures var s := Run(INITIAL, steps);
            (c in s.closers <==> BeginClose(c) in steps) && (c in s.closers ==> s.closers[c].Waiting?)
    decreases |steps|
  {
    if steps != [] {
      var init, step := steps[..|steps| - 1], steps[|steps| - 1];
      assert steps == init + [step];
      RunOn(INITIAL, init, step);
      WaitsUntilWoken(init, c);
    }
  }

  /** A handler that a step hands out keeps the store open until its release, whatever the other callers do. */
  lemma HandlerKeepsTheStoreOpen(a: seq<Step>, b: seq<Step>, h: nat)
    requires !Begun(a) && h == Handouts(a) && Release(h) !in b
    ensures var s := Run(INITIAL, a + [Tool(Handed)] + b); s.store == Some(0) && s.shut == [] && s.active > 0
  {
    var steps := a + [Tool(Handed)] + b;
    assert steps[..|a|] == a && steps[|a|] == Tool(Handed) && steps[|a| + 1..] == b;
    assert HeldSince(steps, |a|, h);
    OutstandingIsHeld(steps, h);
    RunKeeps(INITIAL, steps);
  }

  /** Once every handler that was handed out has been released, a caller of Close that has not been woken yet can be,
      and then the store, if any call needed one, has been closed exactly once. */
  lemma ReleasedHandlersLetClose(steps: seq<Step>, c: nat)
    requires BeginClose(c) in steps && Wake(c) !in steps && forall i: nat, h: nat :: !HeldSince(steps, i, h)
    ensures var u := Run(INITIAL, steps + [Wake(c)] + [EndClose(c)]);
            u.store.None? && u.shut == (if exists i: nat :: NeedsStore(steps, i) then [0] else [])
  {
    var s := Run(INITIAL, steps);
    RunKeeps(INITIAL, steps);
    forall h: nat ensures h !in s.outstanding { OutstandingIsHeld(steps, h); }
    assert s.outstanding == {};
    WaitsUntilWoken(steps, c);
    OpenedWhenNeeded(steps);
    RunOn(INITIAL, steps, Wake(c));
    RunOn(INITIAL, steps + [Wake(c)], EndClose(c));
  }

  class Bootstrap {
    var closed: bool
    var store: Option<nat>
    /** The wait group. */
    var active: nat
    var opens: nat
    var handed: nat
    ghost var shut: seq<nat>
    /** Handlers whose release has not run; each release runs once. */
    var outstanding: set<nat>
    ghost var closers: map<nat, Closer>

    ghost function Abstract(): State
      reads this
    {
      State(closed, store, active, opens, shut, handed, outstanding, closers)
    }

    constructor ()
      ensures Abstract() == INITIAL
    {
      closed, store, active, opens, handed, shut, outstanding, closers := false, None, 0, 0, 0, [], {}, map[];
    }

    method ForTool(outcome: Outcome) returns (handler: Option<nat>)
      modifies this
      ensures Abstract() == Next(old(Abstract()), Tool(outcome))
      ensures handler == if !old(closed) && outcome.Handed? then Some(old(handed)) else None
      ensures handler.Some? ==> && outstanding == old(outstanding) + {handler.value} && active == old(active) + 1
                                && handed == old(handed) + 1 && store.Some?
      ensures handler.None? ==> outstanding == old(outstanding) && active == old(active) && handed == old(handed)
      ensures closed == old(closed) && (old(store).Some? || old(closed) || outcome.TurnedAway? ==> store == old(store) && opens == old(opens))
    {
      if closed || outcome.TurnedAway? { return None; }
      if store.None? { store, opens := Some(opens), opens + 1; }
      if outcome.FailsLate? { return None; }
      active := active + 1;
      handler := Some(handed);
      outstanding, handed := outstanding + {handed}, handed + 1;
    }

    method ReleaseTool(handler: nat)
      requires handler in outstanding ==> active > 0
      modifies this
      ensures Abstract() == Next(old(Abstract()), Release(handler))
      ensures outstanding == old(outstanding) - {handler}
      ensures active == old(active) - (if handler in old(outstanding) then 1 else 0)
    {
      if handler in outstanding {
        outstanding := outstanding - {handler};
        active := active - 1;
      }
    }

    /** The first critical section of Close. */
    method MarkClosed(ghost c: nat)
      requires c !in closers
      modifies this
      ensures Abstract() == Next(old(Abstract()), BeginClose(c))
      ensures closed && store == old(store) && active == old(active)
    {
      closed := true;
      closers := closers[c := Waiting];
    }

    /** The second critical section, after the wait returned. */
    method CloseStore(ghost c: nat)
      requires c in closers && closers[c].Passed?
      modifies this
      ensures Abstract() == Next(old(Abstract()), EndClose(c))
      ensures store.None? && shut == old(shut) + (if old(store).Some? then [old(store).value] else [])
    {
      closers := closers[c := Finished];
      if store.Some? {
        shut := shut + [store.value];
        store := None;
      }
    }
  }
}
