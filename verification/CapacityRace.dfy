/** `create_job` run by any number of callers at once, one atomic access at a time, while other tasks
    remove jobs (src/job_manager.rs). */
module CapacityRace {
  import opened MachineWords

  /** Where a caller stands: `Admitted` has seen room, `Redraw` has drawn zero, `Drawn` holds an id,
      `Cleared` has seen that its id is not registered. `at` numbers the latest draw. */
  datatype Caller = Outside | Admitted | Redraw(at: nat) | Drawn(id: u32, at: nat) | Cleared(id: u32, at: nat)

  /** `draws` counts the draws of all callers so far. */
  datatype State = State(jobs: set<u32>, nextId: u32, callers: seq<Caller>, draws: nat)

  datatype Event = CheckLength | Draw | CheckKey | Insert

  datatype Action = Call(i: nat, event: Event) | RemoveJob(id: u32)

  predicate CallEnabled(c: Caller, e: Event) {
    match e
    case CheckLength => c.Outside?
    case Draw => c.Admitted? || c.Redraw?
    case CheckKey => c.Drawn?
    case Insert => c.Cleared?
  }

  predicate Enabled(s: State, a: Action) {
    match a
    case Call(i, e) => i < |s.callers| && CallEnabled(s.callers[i], e)
    case RemoveJob(_) => true
  }

  function Apply(capacity: nat, s: State, a: Action): State
    requires Enabled(s, a)
  {
    match a
    case RemoveJob(id) => s.(jobs := s.jobs - {id})
    case Call(i, e) =>
      var c := s.callers[i];
      match e
      case CheckLength => s.(callers := s.callers[i := if |s.jobs| >= capacity then Outside else Admitted])
      case Draw =>
        var drawn := if s.nextId == 0 && c.Admitted? then Redraw(s.draws) else Drawn(s.nextId, s.draws);
        s.(nextId := WrapU32(s.nextId + 1), callers := s.callers[i := drawn], draws := s.draws + 1)
      case CheckKey => s.(callers := s.callers[i := if c.id in s.jobs then Outside else Cleared(c.id, c.at)])
      case Insert => s.(jobs := s.jobs + {c.id}, callers := s.callers[i := Outside])
  }

  predicate Legal(capacity: nat, s: State, acts: seq<Action>)
    decreases |acts|
  {
    acts == [] || (Enabled(s, acts[0]) && Legal(capacity, Apply(capacity, s, acts[0]), acts[1..]))
  }

  function Exec(capacity: nat, s: State, acts: seq<Action>): State
    requires Legal(capacity, s, acts)
    decreases |acts|
  {
    if acts == [] then s else Exec(capacity, Apply(capacity, s, acts[0]), acts[1..])
  }

  function Init(callers: nat): State {
    State({}, 1, seq(callers, _ => Outside), 0)
  }

  /** The callers past the length check and short of their insert. */
  function InFlight(callers: seq<Caller>): (n: nat)
    ensures n <= |callers|
  {
    if callers == [] then 0 else InFlight(callers[1..]) + if callers[0].Outside? then 0 else 1
  }

  lemma {:induction false} InFlightUpdate(callers: seq<Caller>, i: nat, c: Caller)
    requires i < |callers|
    ensures InFlight(callers[i := c])
            == InFlight(callers) - (if callers[i].Outside? then 0 else 1) + (if c.Outside? then 0 else 1)
  {
    if i > 0 {
      InFlightUpdate(callers[1..], i - 1, c);
      assert callers[i := c][1..] == callers[1..][i - 1 := c];
    } else {
      assert callers[i := c][1..] == callers[1..];
    }
  }

  /** Every caller in flight may still add one job to those registered. */
  predicate Bounded(capacity: nat, s: State) {
    && |s.callers| >= 1
    && |s.jobs| + InFlight(s.callers) <= (if capacity == 0 then 0 else capacity + |s.callers| - 1)
  }

  lemma StepKeepsBound(capacity: nat, s: State, a: Action)
    requires Bounded(capacity, s) && Enabled(s, a)
    ensures Bounded(capacity, Apply(capacity, s, a))
    ensures |Apply(capacity, s, a).callers| == |s.callers|
  {
    var s' := Apply(capacity, s, a);
    match a
    case Call(i, e) =>
      InFlightUpdate(s.callers, i, s'.callers[i]);
    case RemoveJob(id) =>
      assert |s.jobs - {id}| <= |s.jobs|;
  }

  lemma {:induction false} RunKeepsBound(capacity: nat, s: State, acts: seq<Action>)
    requires Bounded(capacity, s) && Legal(capacity, s, acts)
    ensures Bounded(capacity, Exec(capacity, s, acts)) && |Exec(capacity, s, acts).callers| == |s.callers|
    decreases |acts|
  {
    if acts != [] {
      StepKeepsBound(capacity, s, acts[0]);
      RunKeepsBound(capacity, Apply(capacity, s, acts[0]), acts[1..]);
    }
  }

  lemma {:induction false} NobodyInFlight(n: nat)
    ensures InFlight(seq(n, _ => Outside)) == 0
  {
    if n > 0 {
      NobodyInFlight(n - 1);
      var all: seq<Caller> := seq(n, _ => Outside);
      assert all[1..] == seq(n - 1, _ => Outside);
    }
  }

  /** With `n` callers racing and any removals, the registry never holds more than the capacity and
      `n - 1` further jobs, and a single caller never exceeds the capacity. */
  lemma RacyCapacityBound(capacity: nat, callers: nat, acts: seq<Action>)
    requires callers >= 1 && Legal(capacity, Init(callers), acts)
    ensures |Exec(capacity, Init(callers), acts).jobs| <= (if capacity == 0 then 0 else capacity + callers - 1)
  {
    NobodyInFlight(callers);
    RunKeepsBound(capacity, Init(callers), acts);
  }

  /** As configured, 50 jobs and 100 connections that run one request each at a time. */
  lemma ConfiguredCapacityBound(acts: seq<Action>)
    requires Legal(50, Init(100), acts)
    ensures |Exec(50, Init(100), acts).jobs| <= 149
  {
    RacyCapacityBound(50, 100, acts);
  }

  // --- The bound is reached ------------------------------------------------------------------

  lemma {:induction false} ExecAppend(capacity: nat, s: State, first: seq<Action>, second: seq<Action>)
    requires Legal(capacity, s, first) && Legal(capacity, Exec(capacity, s, first), second)
    ensures Legal(capacity, s, first + second)
    ensures Exec(capacity, s, first + second) == Exec(capacity, Exec(capacity, s, first), second)
    decreases |first|
  {
    if first == [] {
      assert first + second == second;
    } else {
      ExecAppend(capacity, Apply(capacity, s, first[0]), first[1..], second);
      assert (first + second)[1..] == first[1..] + second;
    }
  }

  /** One more step at the end of a run. */
  lemma Then(capacity: nat, s: State, acts: seq<Action>, a: Action) returns (longer: seq<Action>)
    requires Legal(capacity, s, acts) && Enabled(Exec(capacity, s, acts), a)
    ensures longer == acts + [a]
    ensures Legal(capacity, s, longer) && Exec(capacity, s, longer) == Apply(capacity, Exec(capacity, s, acts), a)
  {
    ExecOne(capacity, Exec(capacity, s, acts), a);
    ExecAppend(capacity, s, acts, [a]);
    longer := acts + [a];
  }

  lemma ExecOne(capacity: nat, s: State, a: Action)
    requires Enabled(s, a)
    ensures Legal(capacity, s, [a]) && Exec(capacity, s, [a]) == Apply(capacity, s, a)
  {
    hide Enabled, Apply;
    var one := [a];
    assert one[0] == a && one[1..] == [];
    assert Legal(capacity, s, one);
    assert Exec(capacity, s, one) == Exec(capacity, Apply(capacity, s, a), []);
  }

  /** `n` jobs are registered, all under ids drawn before. */
  predicate Holds(s: State, n: nat) {
    |s.jobs| == n && s.nextId == n + 1 && forall id :: id in s.jobs ==> id <= n
  }

  /** The first `k` callers are admitted and the others outside. */
  predicate Waiting(s: State, callers: nat, k: nat) {
    && |s.callers| == callers && k <= callers
    && forall i :: 0 <= i < callers ==> s.callers[i] == if i < k then Admitted else Outside
  }

  /** An admitted caller goes through to its insert. */
  lemma Complete(capacity: nat, s0: State, acts: seq<Action>, i: nat, n: nat) returns (longer: seq<Action>)
    requires Legal(capacity, s0, acts)
    requires var s := Exec(capacity, s0, acts);
             i < |s.callers| && s.callers[i] == Admitted && Holds(s, n) && n + 2 < U32_MODULUS
    ensures Legal(capacity, s0, longer)
    ensures Holds(Exec(capacity, s0, longer), n + 1)
    ensures Exec(capacity, s0, longer).callers == Exec(capacity, s0, acts).callers[i := Outside]
  {
    hide Legal, Exec;
    var s := Exec(capacity, s0, acts);
    longer := Then(capacity, s0, acts, Call(i, Draw));
    longer := Then(capacity, s0, longer, Call(i, CheckKey));
    longer := Then(capacity, s0, longer, Call(i, Insert));
    assert Exec(capacity, s0, longer).callers == s.callers[i := Outside];
  }

  /** One caller alone fills the registry up to any size within the capacity. */
  lemma {:induction false} Fill(capacity: nat, callers: nat, n: nat) returns (acts: seq<Action>)
    requires callers >= 1 && n <= capacity && n + 1 < U32_MODULUS
    ensures Legal(capacity, Init(callers), acts)
    ensures var s := Exec(capacity, Init(callers), acts); Holds(s, n) && Waiting(s, callers, 0)
  {
    if n == 0 {
      acts := [];
    } else {
      acts := Fill(capacity, callers, n - 1);
      hide Legal, Exec, Holds;
      acts := Admit(capacity, Init(callers), acts, callers, 0, n - 1);
      acts := Complete(capacity, Init(callers), acts, 0, n - 1);
    }
  }

  lemma Admit(capacity: nat, s0: State, acts: seq<Action>, callers: nat, k: nat, n: nat) returns (longer: seq<Action>)
    requires Legal(capacity, s0, acts)
    requires var s := Exec(capacity, s0, acts); Holds(s, n) && Waiting(s, callers, k) && n < capacity && k < callers
    ensures Legal(capacity, s0, longer)
    ensures var s := Exec(capacity, s0, longer); Holds(s, n) && Waiting(s, callers, k + 1)
  {
    hide Legal, Exec;
    longer := Then(capacity, s0, acts, Call(k, CheckLength));
  }

  lemma {:induction false} AdmitAll(capacity: nat, callers: nat, k: nat) returns (acts: seq<Action>)
    requires 1 <= capacity < U32_MODULUS && 1 <= callers && k <= callers
    ensures Legal(capacity, Init(callers), acts)
    ensures var s := Exec(capacity, Init(callers), acts); Holds(s, capacity - 1) && Waiting(s, callers, k)
  {
    hide Legal, Exec, Holds, Waiting;
    if k == 0 {
      acts := Fill(capacity, callers, capacity - 1);
    } else {
      acts := AdmitAll(capacity, callers, k - 1);
      acts := Admit(capacity, Init(callers), acts, callers, k - 1, capacity - 1);
    }
  }

  lemma {:induction false} InsertAll(capacity: nat, callers: nat, k: nat) returns (acts: seq<Action>)
    requires 1 <= capacity && 1 <= callers && k <= callers && capacity + callers < U32_MODULUS
    ensures Legal(capacity, Init(callers), acts)
    ensures var s := Exec(capacity, Init(callers), acts);
            Holds(s, capacity - 1 + k) && Waiting(s, callers, callers - k)
  {
    hide Legal, Exec, Holds;
    if k == 0 {
      acts := AdmitAll(capacity, callers, callers);
    } else {
      acts := InsertAll(capacity, callers, k - 1);
      acts := Complete(capacity, Init(callers), acts, callers - k, capacity + k - 2);
    }
  }

  /** The bound is exact, for every capacity and number of callers. */
  lemma RacyCapacityBoundIsTight(capacity: nat, callers: nat)
    requires 1 <= capacity && callers >= 1 && capacity + callers < U32_MODULUS
    ensures exists acts :: Legal(capacity, Init(callers), acts)
                           && |Exec(capacity, Init(callers), acts).jobs| == capacity + callers - 1
  {
    var acts := InsertAll(capacity, callers, callers);
  }

  // --- Check, then insert --------------------------------------------------------------------

  predicate HasDrawn(c: Caller) {
    c.Redraw? || c.Drawn? || c.Cleared?
  }

  predicate HasId(c: Caller) {
    c.Drawn? || c.Cleared?
  }

  /** No draw comes as number `limit`, or later, after the latest draw of a call that is still under way. */
  predicate Timely(capacity: nat, s: State, acts: seq<Action>, limit: nat)
    requires Legal(capacity, s, acts)
    decreases |acts|
  {
    acts == []
    || (&& (acts[0].Call? && acts[0].event == Draw ==>
              forall i :: 0 <= i < |s.callers| && HasDrawn(s.callers[i]) ==> s.draws < s.callers[i].at + limit)
        && Timely(capacity, Apply(capacity, s, acts[0]), acts[1..], limit))
  }

  /** The ids in use by calls are those of their latest draws, all within one cycle of the counter, and no
      cleared id is registered. */
  predicate Fresh(s: State) {
    && s.nextId == WrapU32(s.draws + 1)
    && (forall i :: 0 <= i < |s.callers| ==> DrawnLately(s.callers[i], s.draws))
    && (forall i, j :: 0 <= i < j < |s.callers| && HasDrawn(s.callers[i]) && HasDrawn(s.callers[j]) ==>
          s.callers[i].at != s.callers[j].at)
    && (forall i :: 0 <= i < |s.callers| && s.callers[i].Cleared? ==> s.callers[i].id !in s.jobs)
  }

  predicate DrawnLately(c: Caller, draws: nat) {
    && (HasDrawn(c) ==> c.at < draws <= c.at + U32_MODULUS)
    && (c.Redraw? ==> WrapU32(c.at + 1) == 0)
    && (HasId(c) ==> c.id == WrapU32(c.at + 1) != 0)
  }

  /** Two numbers less than a cycle apart wrap differently. */
  lemma WrapsApart(a: nat, b: nat)
    requires a < b < a + U32_MODULUS
    ensures WrapU32(a) != WrapU32(b)
  {
  }

  lemma WrapsNext(a: nat)
    ensures WrapU32(WrapU32(a) + 1) == WrapU32(a + 1)
  {
  }

  lemma DrawKeepsFresh(capacity: nat, s: State, i: nat)
    requires Fresh(s) && Enabled(s, Call(i, Draw))
    requires forall k :: 0 <= k < |s.callers| && HasDrawn(s.callers[k]) ==> s.draws < s.callers[k].at + U32_MODULUS
    ensures Fresh(Apply(capacity, s, Call(i, Draw)))
  {
    var c, s' := s.callers[i], Apply(capacity, s, Call(i, Draw));
    if c.Redraw? {
      WrapsApart(c.at + 1, s.draws + 1);
    }
    WrapsNext(s.draws + 1);
    hide WrapU32;
    assert s'.nextId == WrapU32(s.draws + 2);
    assert DrawnLately(s'.callers[i], s'.draws);
    forall k | 0 <= k < |s'.callers| ensures DrawnLately(s'.callers[k], s'.draws) {
      assert k != i ==> s'.callers[k] == s.callers[k];
    }
  }

  lemma InsertKeepsFresh(capacity: nat, s: State, i: nat)
    requires Fresh(s) && Enabled(s, Call(i, Insert))
    ensures Fresh(Apply(capacity, s, Call(i, Insert)))
  {
    var c, s' := s.callers[i], Apply(capacity, s, Call(i, Insert));
    forall k | 0 <= k < |s'.callers| && s'.callers[k].Cleared? ensures s'.callers[k].id !in s'.jobs {
      var d := s.callers[k];
      assert DrawnLately(c, s.draws) && DrawnLately(d, s.draws);
      if d.at < c.at {
        WrapsApart(d.at + 1, c.at + 1);
      } else {
        WrapsApart(c.at + 1, d.at + 1);
      }
    }
  }

  lemma {:induction false} RunKeepsFresh(capacity: nat, s: State, acts: seq<Action>)
    requires Fresh(s) && Legal(capacity, s, acts) && Timely(capacity, s, acts, U32_MODULUS)
    ensures Fresh(Exec(capacity, s, acts))
    decreases |acts|
  {
    if acts != [] {
      var a := acts[0];
      if a.Call? && a.event.Draw? {
        DrawKeepsFresh(capacity, s, a.i);
      } else if a.Call? && a.event.Insert? {
        InsertKeepsFresh(capacity, s, a.i);
      }
      RunKeepsFresh(capacity, Apply(capacity, s, a), acts[1..]);
    }
  }

  /** The check for an existing job and the insert are two steps, yet in every interleaving, across any
      number of wraps, an insert finds its non-zero id unused: as long as no draw is the 2^32-th since the
      latest draw of a call still under way. */
  lemma InsertNeverOverwrites(capacity: nat, callers: nat, acts: seq<Action>, i: nat)
    requires Legal(capacity, Init(callers), acts) && Timely(capacity, Init(callers), acts, U32_MODULUS)
    requires var s := Exec(capacity, Init(callers), acts); i < |s.callers| && s.callers[i].Cleared?
    ensures var s := Exec(capacity, Init(callers), acts); s.callers[i].id != 0 && s.callers[i].id !in s.jobs
  {
    RunKeepsFresh(capacity, Init(callers), acts);
  }

  /** Nothing comes late in a run that draws only so often altogether. */
  lemma {:induction false} FewDrawsAreTimely(capacity: nat, s: State, acts: seq<Action>, limit: nat)
    requires Legal(capacity, s, acts) && Exec(capacity, s, acts).draws <= limit
    ensures s.draws <= limit && Timely(capacity, s, acts, limit)
    decreases |acts|
  {
    if acts != [] {
      FewDrawsAreTimely(capacity, Apply(capacity, s, acts[0]), acts[1..], limit);
    }
  }

  /** The second caller is about to insert id 1, and the first has drawn all ids up to `n` for jobs that
      are gone again. */
  predicate Overtaken(s: State, n: nat) {
    && |s.callers| == 2 && s.callers[0] == Outside && s.callers[1] == Cleared(1, 0)
    && s.jobs == {} && s.nextId == WrapU32(n + 1) && s.draws == n
  }

  lemma {:induction false} Overtake(capacity: nat, n: nat) returns (acts: seq<Action>)
    requires 1 <= capacity && 1 <= n < U32_MODULUS
    ensures Legal(capacity, Init(2), acts) && Overtaken(Exec(capacity, Init(2), acts), n)
  {
    var s0 := Init(2);
    if n == 1 {
      ExecOne(capacity, s0, Call(1, CheckLength));
      hide Legal, Exec;
      acts := Then(capacity, s0, [Call(1, CheckLength)], Call(1, Draw));
      acts := Then(capacity, s0, acts, Call(1, CheckKey));
    } else {
      acts := Overtake(capacity, n - 1);
      hide Legal, Exec;
      acts := Then(capacity, s0, acts, Call(0, CheckLength));
      acts := Then(capacity, s0, acts, Call(0, Draw));
      acts := Then(capacity, s0, acts, Call(0, CheckKey));
      acts := Then(capacity, s0, acts, Call(0, Insert));
      acts := Then(capacity, s0, acts, RemoveJob(n));
      assert Exec(capacity, s0, acts).jobs == {};
    }
  }

  /** The condition is sharp: a run in which one draw is exactly the 2^32-th since that of a call under way
      ends with this call about to replace a live job. */
  lemma WrappedInsertOverwrites(capacity: nat)
    requires 1 <= capacity
    ensures exists acts :: Legal(capacity, Init(2), acts) && Timely(capacity, Init(2), acts, U32_MODULUS + 1)
              && var s := Exec(capacity, Init(2), acts);
                 |s.callers| == 2 && s.callers[1].Cleared? && s.callers[1].id in s.jobs
  {
    var s0 := Init(2);
    var acts := Overtake(capacity, U32_MODULUS - 1);
    hide Legal, Exec, Timely;
    acts := Then(capacity, s0, acts, Call(0, CheckLength));
    acts := Then(capacity, s0, acts, Call(0, Draw));
    acts := Then(capacity, s0, acts, Call(0, Draw));
    acts := Then(capacity, s0, acts, Call(0, CheckKey));
    acts := Then(capacity, s0, acts, Call(0, Insert));
    FewDrawsAreTimely(capacity, s0, acts, U32_MODULUS + 1);
  }
}
