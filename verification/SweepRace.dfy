/** `cleanup_idle_jobs` while other tasks create, change and remove jobs: the scan, the listing and each
    removal are steps of their own, one registry entry at a time (src/job_manager.rs). */
module SweepRace {
  import opened MachineWords
  import opened Errors
  import opened JobStates
  import opened JobRegistry

  /** A registered job; `born` numbers the insertions, so it tells apart jobs that reuse an id. */
  datatype Entry = Entry(born: nat, job: Job)

  /** `listSince` is the number of insertions when a listing began. `visited` are the entries it has come
      across, `marks` those it means to remove, as they were at that moment. */
  datatype Phase =
    | Ready
    | Scanning(isQuiet: bool)
    | Collecting(listSince: nat, marks: map<u32, Entry>)
    | Examining(listSince: nat, visited: set<nat>, marks: map<u32, Entry>)
    | Removing(quiet: bool, marks: map<u32, Entry>)

  /** One removal: the entry as it was, and as it was when it was listed. */
  datatype Swept = Swept(quiet: bool, entry: Entry, mark: Entry)

  /** `since` is the number of insertions when the scan began, `seen` the entries it found terminal. */
  datatype State = State(
    jobs: map<u32, Entry>, births: nat, lastCreated: nat,
    phase: Phase, since: nat, seen: set<nat>, swept: seq<Swept>)

  datatype Times = Times(now: nat, idle: nat, quiet: nat)

  datatype Action =
    | Begin
    | Visit(id: u32)
    | EndScan
    | Collect(id: u32)
    | Examine(id: u32)
    | EndListing
    | RemoveNext(id: u32)
    | InsertJob(id: u32, timeout: Option<nat>, at: nat)
    | StampCreation(at: nat)
    | ChangeJob(id: u32, changed: Job)
    | DropJob(id: u32)

  /** How other tasks may change a job: once terminal, its state and completion time stay. */
  predicate Evolves(job: Job, job': Job) {
    IsTerminal(job.state) ==> job'.state == job.state && job'.completedAt == job.completedAt
  }

  /** An iteration ends only after it has come across every entry that has been there all the time. */
  predicate PassedAll(jobs: map<u32, Entry>, since: nat, visited: set<nat>) {
    forall id :: id in jobs && jobs[id].born < since ==> jobs[id].born in visited
  }

  predicate AllMarked(jobs: map<u32, Entry>, since: nat, marks: map<u32, Entry>) {
    forall id :: id in jobs && jobs[id].born < since ==> id in marks
  }

  predicate Enabled(s: State, a: Action) {
    match a
    case Begin => s.phase.Ready?
    case Visit(id) => s.phase.Scanning? && id in s.jobs
    case EndScan => s.phase.Scanning? && PassedAll(s.jobs, s.since, s.seen)
    case Collect(id) => s.phase.Collecting? && id in s.jobs
    case Examine(id) => s.phase.Examining? && id in s.jobs
    case EndListing =>
      || (s.phase.Collecting? && AllMarked(s.jobs, s.phase.listSince, s.phase.marks))
      || (s.phase.Examining? && PassedAll(s.jobs, s.phase.listSince, s.phase.visited))
    case RemoveNext(id) => s.phase.Removing? && id in s.phase.marks
    case InsertJob(id, _, _) => id !in s.jobs
    case StampCreation(_) => true
    case ChangeJob(id, job) => id in s.jobs && Evolves(s.jobs[id].job, job)
    case DropJob(_) => true
  }

  function Apply(t: Times, s: State, a: Action): State
    requires Enabled(s, a)
  {
    match a
    case Begin => s.(phase := Scanning(HasElapsed(t.now, s.lastCreated, t.quiet)), since := s.births, seen := {})
    case Visit(id) =>
      if IsTerminal(s.jobs[id].job.state) then s.(seen := s.seen + {s.jobs[id].born})
      else s.(phase := Examining(s.births, {}, map[]))
    case EndScan =>
      s.(phase := if s.phase.isQuiet && s.seen != {} then Collecting(s.births, map[])
                  else Examining(s.births, {}, map[]))
    case Collect(id) => s.(phase := Collecting(s.phase.listSince, s.phase.marks[id := s.jobs[id]]))
    case Examine(id) =>
      var listed := Expired(s.jobs[id].job, t.now, t.idle);
      s.(phase := Examining(s.phase.listSince, s.phase.visited + {s.jobs[id].born},
                            if listed then s.phase.marks[id := s.jobs[id]] else s.phase.marks))
    case EndListing => s.(phase := Removing(s.phase.Collecting?, s.phase.marks))
    case RemoveNext(id) =>
      var next := s.(phase := Removing(s.phase.quiet, s.phase.marks - {id}));
      if id in s.jobs then
        next.(jobs := s.jobs - {id}, swept := s.swept + [Swept(s.phase.quiet, s.jobs[id], s.phase.marks[id])])
      else next
    case InsertJob(id, timeout, at) =>
      s.(jobs := s.jobs[id := Entry(s.births, NewJob(timeout, at))], births := s.births + 1)
    case StampCreation(at) => s.(lastCreated := at)
    case ChangeJob(id, job) => s.(jobs := s.jobs[id := s.jobs[id].(job := job)])
    case DropJob(id) => s.(jobs := s.jobs - {id})
  }

  predicate Legal(t: Times, s: State, acts: seq<Action>)
    decreases |acts|
  {
    acts == [] || (Enabled(s, acts[0]) && Legal(t, Apply(t, s, acts[0]), acts[1..]))
  }

  function Exec(t: Times, s: State, acts: seq<Action>): State
    requires Legal(t, s, acts)
    decreases |acts|
  {
    if acts == [] then s else Exec(t, Apply(t, s, acts[0]), acts[1..])
  }

  predicate OwnNumbers(s: State) {
    && (forall id :: id in s.jobs ==> s.jobs[id].born < s.births)
    && (forall i, j :: i in s.jobs && j in s.jobs && i != j ==> s.jobs[i].born != s.jobs[j].born)
  }

  /** A registry before the sweep. */
  predicate Before(s: State) {
    && s.phase.Ready? && s.swept == [] && s.seen == {} && s.since == 0 && OwnNumbers(s)
  }

  // --- What every step keeps -----------------------------------------------------------------

  predicate ScanPassed(s: State) {
    s.phase.Collecting? || (s.phase.Removing? && s.phase.quiet)
  }

  function MarksOf(phase: Phase): map<u32, Entry> {
    if phase.Ready? || phase.Scanning? then map[] else phase.marks
  }

  /** What the scan has seen is terminal for good; after a quiet scan that is everything older than it. */
  predicate ScanInv(s: State) {
    Numbered(s) && SeenTerminal(s) && (ScanPassed(s) ==> PassedAll(s.jobs, s.since, s.seen))
  }

  predicate Numbered(s: State) {
    s.since <= s.births && OwnNumbers(s) && forall b :: b in s.seen ==> b < s.births
  }

  predicate SeenTerminal(s: State) {
    forall id :: id in s.jobs && s.jobs[id].born in s.seen ==> IsTerminal(s.jobs[id].job.state)
  }

  /** A registered job under a listed id is the listed one, evolved, or was inserted since the scan began. */
  predicate Continues(since: nat, mark: Entry, entry: Entry) {
    (entry.born == mark.born && Evolves(mark.job, entry.job)) || entry.born >= since
  }

  predicate IdlePass(phase: Phase) {
    phase.Examining? || (phase.Removing? && !phase.quiet)
  }

  predicate MarksInv(t: Times, s: State) {
    forall id :: id in MarksOf(s.phase) ==>
      && (IdlePass(s.phase) ==> Expired(MarksOf(s.phase)[id].job, t.now, t.idle))
      && (id in s.jobs ==> Continues(s.since, MarksOf(s.phase)[id], s.jobs[id]))
  }

  predicate Justified(t: Times, since: nat, seen: set<nat>, sw: Swept) {
    && Continues(since, sw.mark, sw.entry)
    && (if sw.quiet then IsTerminal(sw.entry.job.state) || (sw.entry.born >= since && sw.entry.born !in seen)
        else Expired(sw.mark.job, t.now, t.idle))
  }

  predicate SweepInv(t: Times, s: State) {
    && ScanInv(s) && MarksInv(t, s)
    && (s.phase.Ready? || s.phase.Scanning? ==> s.swept == [])
    && forall k :: 0 <= k < |s.swept| ==> Justified(t, s.since, s.seen, s.swept[k]) && s.swept[k].entry.born < s.births
  }

  lemma StepKeepsScan(t: Times, s: State, a: Action)
    requires ScanInv(s) && Enabled(s, a)
    ensures ScanInv(Apply(t, s, a))
  {
    hide HasElapsed, Expired, IsTerminal;
    StepKeepsNumbers(t, s, a);
    StepKeepsSeen(t, s, a);
    hide SeenTerminal, OwnNumbers;
  }

  lemma StepKeepsNumbers(t: Times, s: State, a: Action)
    requires Numbered(s) && Enabled(s, a)
    ensures Numbered(Apply(t, s, a))
  {
    hide HasElapsed, Expired, PassedAll, AllMarked, IsTerminal;
  }

  lemma StepKeepsSeen(t: Times, s: State, a: Action)
    requires Numbered(s) && SeenTerminal(s) && Enabled(s, a)
    ensures SeenTerminal(Apply(t, s, a))
  {
    hide HasElapsed, Expired, PassedAll, AllMarked, IsTerminal;
  }

  lemma StepKeepsMarks(t: Times, s: State, a: Action)
    requires ScanInv(s) && MarksInv(t, s) && Enabled(s, a)
    ensures MarksInv(t, Apply(t, s, a))
  {
    hide Expired, PassedAll, AllMarked, HasElapsed;
  }

  lemma StepKeepsSweep(t: Times, s: State, a: Action)
    requires SweepInv(t, s) && Enabled(s, a)
    ensures SweepInv(t, Apply(t, s, a))
  {
    StepKeepsScan(t, s, a);
    StepKeepsMarks(t, s, a);
    if a.RemoveNext? && a.id in s.jobs {
      assert Justified(t, s.since, s.seen, Swept(s.phase.quiet, s.jobs[a.id], s.phase.marks[a.id]));
    }
    hide ScanInv, MarksInv, Justified, Expired;
  }

  lemma {:induction false} RunKeepsSweep(t: Times, s: State, acts: seq<Action>)
    requires SweepInv(t, s) && Legal(t, s, acts)
    ensures SweepInv(t, Exec(t, s, acts))
    decreases |acts|
  {
    hide SweepInv, Apply, Enabled;
    if acts != [] {
      StepKeepsSweep(t, s, acts[0]);
      RunKeepsSweep(t, Apply(t, s, acts[0]), acts[1..]);
    }
  }

  // --- What a sweep removes under interference -----------------------------------------------

  /** The quiet sweep, in every run: a job it removes while not terminal was inserted after the scan had
      begun and was not come across by it. With no insertion since then (`births` still at `since`) there is
      none. */
  lemma LiveRemovalsAreLate(t: Times, s: State, acts: seq<Action>, k: nat)
    requires Before(s) && Legal(t, s, acts) && k < |Exec(t, s, acts).swept|
    ensures var end := Exec(t, s, acts);
            var sw := end.swept[k];
            sw.quiet && !IsTerminal(sw.entry.job.state) ==>
              end.since <= sw.entry.born < end.births && sw.entry.born !in end.seen
  {
    RunKeepsSweep(t, s, acts);
  }

  predicate SweptGone(s: State) {
    forall k, id :: 0 <= k < |s.swept| && id in s.jobs ==> s.jobs[id].born != s.swept[k].entry.born
  }

  lemma StepKeepsSweptGone(t: Times, s: State, a: Action)
    requires SweepInv(t, s) && SweptGone(s) && Enabled(s, a)
    ensures SweptGone(Apply(t, s, a))
  {
    hide Expired, PassedAll, AllMarked, IsTerminal, MarksInv, Justified;
  }

  /** A job that has been removed is gone for good: no registered job is that one. */
  lemma {:induction false} RemovedJobsStayGone(t: Times, s: State, acts: seq<Action>)
    requires SweepInv(t, s) && SweptGone(s) && Legal(t, s, acts)
    ensures SweptGone(Exec(t, s, acts))
    decreases |acts|
  {
    if acts != [] {
      StepKeepsSweptGone(t, s, acts[0]);
      StepKeepsSweep(t, s, acts[0]);
      hide SweepInv, Apply, Enabled, SweptGone;
      RemovedJobsStayGone(t, Apply(t, s, acts[0]), acts[1..]);
    }
  }

  /** Somewhere in the run the sweep begins with the last creation at least `quiet` old. */
  predicate BeginsQuiet(t: Times, s: State, acts: seq<Action>)
    requires Legal(t, s, acts)
    decreases |acts|
  {
    acts != []
    && ((acts[0] == Begin && s.lastCreated + t.quiet <= t.now) || BeginsQuiet(t, Apply(t, s, acts[0]), acts[1..]))
  }

  /** The sweep is on, or past, the way that only a quiet service allows. */
  predicate OnQuietWay(s: State) {
    || (s.phase.Scanning? && s.phase.isQuiet)
    || ScanPassed(s)
    || exists k :: 0 <= k < |s.swept| && s.swept[k].quiet
  }

  predicate SeenSome(s: State) {
    (ScanPassed(s) || exists k :: 0 <= k < |s.swept| && s.swept[k].quiet) ==> s.seen != {}
  }

  lemma StepKeepsSeenSome(t: Times, s: State, a: Action)
    requires Enabled(s, a) && SeenSome(s)
    requires s.phase.Ready? || s.phase.Scanning? ==> s.swept == []
    ensures SeenSome(Apply(t, s, a))
    ensures OnQuietWay(Apply(t, s, a)) ==> OnQuietWay(s) || (a == Begin && s.lastCreated + t.quiet <= t.now)
  {
    hide Expired, PassedAll, AllMarked, IsTerminal;
    var s' := Apply(t, s, a);
    assert forall k :: 0 <= k < |s.swept| ==> s'.swept[k] == s.swept[k];
  }

  lemma {:induction false} RunKeepsQuietWay(t: Times, s: State, acts: seq<Action>)
    requires SweepInv(t, s) && SeenSome(s) && Legal(t, s, acts)
    ensures SeenSome(Exec(t, s, acts))
    ensures OnQuietWay(Exec(t, s, acts)) ==> OnQuietWay(s) || BeginsQuiet(t, s, acts)
    decreases |acts|
  {
    if acts != [] {
      StepKeepsSeenSome(t, s, acts[0]);
      StepKeepsSweep(t, s, acts[0]);
      hide SweepInv, Apply, Enabled, SeenSome, OnQuietWay;
      RunKeepsQuietWay(t, Apply(t, s, acts[0]), acts[1..]);
    }
  }

  /** A quiet sweep removes only if there were jobs to scan and the last creation, as read when the sweep began,
      was at least the quiet time old. */
  lemma QuietSweepsAreQuiet(t: Times, s: State, acts: seq<Action>, k: nat)
    requires Before(s) && Legal(t, s, acts) && k < |Exec(t, s, acts).swept| && Exec(t, s, acts).swept[k].quiet
    ensures Exec(t, s, acts).seen != {} && BeginsQuiet(t, s, acts)
  {
    RunKeepsQuietWay(t, s, acts);
  }

  /** The idle pass, in every run: a removed job had expired when it was examined. If it was terminal then
      it still is, with the same completion time, and so is due; only a live one may have woken up in
      between. The one exception is an id that was reused meanwhile. */
  lemma IdleRemovalsWereDue(t: Times, s: State, acts: seq<Action>, k: nat)
    requires Before(s) && Legal(t, s, acts) && k < |Exec(t, s, acts).swept| && !Exec(t, s, acts).swept[k].quiet
    ensures var end := Exec(t, s, acts);
            var sw := end.swept[k];
            && Expired(sw.mark.job, t.now, t.idle)
            && (sw.entry.born < end.since ==>
                  && sw.entry.born == sw.mark.born
                  && (IsTerminal(sw.mark.job.state) ==> Expired(sw.entry.job, t.now, t.idle)))
  {
    RunKeepsSweep(t, s, acts);
  }

  // --- Exactly when a quiet sweep takes a live job -------------------------------------------

  predicate SweepOnly(acts: seq<Action>) {
    forall a :: a in acts ==> a.Collect? || a.EndListing? || a.RemoveNext?
  }

  /** No removal after the first `n` took a live job. */
  predicate SparesLive(s: State, n: nat) {
    forall k :: n <= k < |s.swept| ==> IsTerminal(s.swept[k].entry.job.state)
  }

  lemma {:induction false} AloneSparesTerminal(t: Times, s: State, acts: seq<Action>, n: nat)
    requires Legal(t, s, acts) && SweepOnly(acts) && SparesLive(s, n)
    requires forall id :: id in s.jobs ==> IsTerminal(s.jobs[id].job.state)
    ensures SparesLive(Exec(t, s, acts), n)
    decreases |acts|
  {
    if acts != [] {
      assert acts[0] in acts;
      AloneSparesTerminal(t, Apply(t, s, acts[0]), acts[1..], n);
    }
  }

  /** One more step at the end of a run. */
  lemma Then(t: Times, s: State, acts: seq<Action>, a: Action) returns (longer: seq<Action>)
    requires Legal(t, s, acts) && Enabled(Exec(t, s, acts), a)
    ensures longer == acts + [a]
    ensures Legal(t, s, longer) && Exec(t, s, longer) == Apply(t, Exec(t, s, acts), a)
  {
    longer := acts + [a];
    ExtendRun(t, s, acts, a);
  }

  lemma {:induction false} ExtendRun(t: Times, s: State, acts: seq<Action>, a: Action)
    requires Legal(t, s, acts) && Enabled(Exec(t, s, acts), a)
    ensures Legal(t, s, acts + [a]) && Exec(t, s, acts + [a]) == Apply(t, Exec(t, s, acts), a)
    decreases |acts|
  {
    hide Apply, Enabled;
    if acts == [] {
      assert ([] + [a])[0] == a && ([] + [a])[1..] == [];
      assert Legal(t, Apply(t, s, a), []);
    } else {
      assert (acts + [a])[0] == acts[0] && (acts + [a])[1..] == acts[1..] + [a];
      ExtendRun(t, Apply(t, s, acts[0]), acts[1..], a);
    }
  }

  /** The listing comes across a given set of registered jobs. */
  lemma {:induction false} CollectAll(t: Times, s: State, ids: set<u32>) returns (acts: seq<Action>)
    requires s.phase.Collecting? && ids <= s.jobs.Keys
    ensures Legal(t, s, acts) && SweepOnly(acts)
    ensures var end := Exec(t, s, acts);
            && end.phase.Collecting? && end.phase.listSince == s.phase.listSince
            && end.jobs == s.jobs && end.swept == s.swept
            && forall id :: id in ids ==> id in end.phase.marks && end.phase.marks[id] == s.jobs[id]
  {
    if ids == {} {
      acts := [];
    } else {
      var id :| id in ids;
      acts := CollectAll(t, s, ids - {id});
      hide Legal, Exec;
      acts := Then(t, s, acts, Collect(id));
    }
  }

  /** Left alone, it can take any job registered at that time. */
  lemma ListedIsRemoved(t: Times, s: State, id: u32) returns (acts: seq<Action>)
    requires s.phase.Collecting? && id in s.jobs
    ensures Legal(t, s, acts) && SweepOnly(acts)
    ensures Exec(t, s, acts).swept == s.swept + [Swept(true, s.jobs[id], s.jobs[id])]
  {
    acts := CollectAll(t, s, s.jobs.Keys);
    hide Legal, Exec;
    acts := Then(t, s, acts, EndListing);
    acts := Then(t, s, acts, RemoveNext(id));
  }

  /** Once its scan has passed, a quiet sweep that is left alone spares all live jobs iff none is
      registered by then; those that are were inserted after the scan began. */
  lemma QuietSweepExact(t: Times, s: State, before: seq<Action>)
    requires Before(s) && Legal(t, s, before) && Exec(t, s, before).phase.Collecting?
    ensures var m := Exec(t, s, before);
            && ((forall acts :: Legal(t, m, acts) && SweepOnly(acts) ==> SparesLive(Exec(t, m, acts), |m.swept|))
                <==> forall id :: id in m.jobs ==> IsTerminal(m.jobs[id].job.state))
            && forall id :: id in m.jobs && !IsTerminal(m.jobs[id].job.state) ==> m.jobs[id].born >= m.since
  {
    var m := Exec(t, s, before);
    RunKeepsSweep(t, s, before);
    if forall id :: id in m.jobs ==> IsTerminal(m.jobs[id].job.state) {
      forall acts | Legal(t, m, acts) && SweepOnly(acts) ensures SparesLive(Exec(t, m, acts), |m.swept|) {
        AloneSparesTerminal(t, m, acts, |m.swept|);
      }
    } else {
      var id :| id in m.jobs && !IsTerminal(m.jobs[id].job.state);
      var acts := ListedIsRemoved(t, m, id);
      assert !SparesLive(Exec(t, m, acts), |m.swept|) by {
        assert Exec(t, m, acts).swept[|m.swept|].entry == m.jobs[id];
      }
    }
  }

  // --- Exactly when the idle pass takes a job that is not due --------------------------------

  predicate RemovalsOnly(acts: seq<Action>) {
    forall a :: a in acts ==> a.RemoveNext?
  }

  predicate Due(t: Times, entry: Entry) {
    Expired(entry.job, t.now, t.idle)
  }

  predicate MarkedAreDue(t: Times, s: State) {
    forall id :: id in MarksOf(s.phase) && id in s.jobs ==> Due(t, s.jobs[id])
  }

  /** All removals after the first `n` took jobs that were due at that moment. */
  predicate TookDue(t: Times, s: State, n: nat) {
    forall k :: n <= k < |s.swept| ==> Due(t, s.swept[k].entry)
  }

  lemma {:induction false} AloneTakesDue(t: Times, s: State, acts: seq<Action>, n: nat)
    requires Legal(t, s, acts) && RemovalsOnly(acts) && TookDue(t, s, n) && MarkedAreDue(t, s)
    ensures TookDue(t, Exec(t, s, acts), n)
    decreases |acts|
  {
    hide Due;
    if acts != [] {
      assert acts[0].RemoveNext?;
      AloneTakesDue(t, Apply(t, s, acts[0]), acts[1..], n);
    }
  }

  /** Once its listing has passed, an idle pass that is left alone takes only jobs that are due iff every
      listed job still registered is due by then; one that is not was live when it was examined, or has come
      under a reused id since the scan began. */
  lemma IdlePassExact(t: Times, s: State, before: seq<Action>)
    requires Before(s) && Legal(t, s, before)
    requires Exec(t, s, before).phase.Removing? && !Exec(t, s, before).phase.quiet
    ensures var m := Exec(t, s, before);
            && ((forall acts :: Legal(t, m, acts) && RemovalsOnly(acts) ==> TookDue(t, Exec(t, m, acts), |m.swept|))
                <==> MarkedAreDue(t, m))
            && forall id :: id in m.phase.marks && id in m.jobs && !Due(t, m.jobs[id]) ==>
                 || m.jobs[id].born >= m.since
                 || (m.jobs[id].born == m.phase.marks[id].born && !IsTerminal(m.phase.marks[id].job.state))
  {
    var m := Exec(t, s, before);
    RunKeepsSweep(t, s, before);
    if MarkedAreDue(t, m) {
      forall acts | Legal(t, m, acts) && RemovalsOnly(acts) ensures TookDue(t, Exec(t, m, acts), |m.swept|) {
        AloneTakesDue(t, m, acts, |m.swept|);
      }
    } else {
      var id :| id in m.phase.marks && id in m.jobs && !Due(t, m.jobs[id]);
      var none: seq<Action> := [];
      assert Legal(t, m, none) && Exec(t, m, none) == m;
      hide Legal, Exec, Due;
      var acts := Then(t, m, none, RemoveNext(id));
      assert !TookDue(t, Exec(t, m, acts), |m.swept|) by {
        assert Exec(t, m, acts).swept[|m.swept|].entry == m.jobs[id];
      }
    }
  }

  // --- Runs that show it ---------------------------------------------------------------------

  function Start(job: Job): State {
    State(map[1 := Entry(0, job)], 1, 0, Ready, 0, {}, [])
  }

  /** A job created between scan and listing is removed live. */
  lemma LiveJobSwept()
    ensures var done := Job(Completed, false, None, 0, Some(90), 90);
            exists acts :: Before(Start(done)) && Legal(Times(100, 50, 20), Start(done), acts)
              && var end := Exec(Times(100, 50, 20), Start(done), acts);
                 |end.swept| == 1 && end.swept[0].quiet && end.swept[0].entry.job.state == Created
  {
    var t, s := Times(100, 50, 20), Start(Job(Completed, false, None, 0, Some(90), 90));
    var acts: seq<Action> := [];
    assert Legal(t, s, acts) && Exec(t, s, acts) == s;
    hide Legal, Exec;
    acts := Then(t, s, acts, Begin);
    acts := Then(t, s, acts, Visit(1));
    acts := Then(t, s, acts, EndScan);
    acts := InsertSecond(t, s, acts);
    hide Start;
    acts := RemoveSecond(t, s, acts);
  }

  lemma InsertSecond(t: Times, s: State, acts: seq<Action>) returns (longer: seq<Action>)
    requires Legal(t, s, acts)
    requires var m := Exec(t, s, acts);
             m.phase == Collecting(1, map[]) && m.swept == [] && m.jobs.Keys == {1} && m.births == 1
    ensures Legal(t, s, longer)
    ensures var m := Exec(t, s, longer);
            && m.phase == Collecting(1, map[]) && m.swept == []
            && m.jobs.Keys == {1, 2} && m.jobs[2].job.state == Created && m.jobs[2].born == 1
  {
    hide Legal, Exec;
    longer := Then(t, s, acts, InsertJob(2, None, 100));
  }

  lemma RemoveSecond(t: Times, s: State, acts: seq<Action>) returns (longer: seq<Action>)
    requires Legal(t, s, acts)
    requires var m := Exec(t, s, acts);
             && m.phase == Collecting(1, map[]) && m.swept == []
             && m.jobs.Keys == {1, 2} && m.jobs[2].job.state == Created && m.jobs[2].born == 1
    ensures Legal(t, s, longer)
    ensures var end := Exec(t, s, longer);
            |end.swept| == 1 && end.swept[0].quiet && end.swept[0].entry.job.state == Created
  {
    hide Legal, Exec;
    longer := Then(t, s, acts, Collect(1));
    longer := Then(t, s, longer, Collect(2));
    longer := Then(t, s, longer, EndListing);
    longer := Then(t, s, longer, RemoveNext(2));
  }

  /** A live job that shows activity between its examination and its removal is removed all the same. */
  lemma ActiveJobSwept()
    ensures var live := Job(Running, false, None, 0, None, 0);
            exists acts :: Before(Start(live)) && Legal(Times(100, 50, 20), Start(live), acts)
              && var end := Exec(Times(100, 50, 20), Start(live), acts);
                 |end.swept| == 1 && !Expired(end.swept[0].entry.job, 100, 50)
  {
    var t, s := Times(100, 50, 20), Start(Job(Running, false, None, 0, None, 0));
    var acts: seq<Action> := [];
    assert Legal(t, s, acts) && Exec(t, s, acts) == s;
    hide Legal, Exec;
    acts := Then(t, s, acts, Begin);
    acts := Then(t, s, acts, Visit(1));
    acts := Then(t, s, acts, Examine(1));
    acts := Then(t, s, acts, EndListing);
    acts := TouchThenRemove(t, s, acts);
  }

  lemma TouchThenRemove(t: Times, s: State, acts: seq<Action>) returns (longer: seq<Action>)
    requires Legal(t, s, acts)
    requires var m := Exec(t, s, acts);
             && m.phase.Removing? && 1 in m.phase.marks && m.swept == []
             && 1 in m.jobs && m.jobs[1].job.state == Running
    ensures Legal(t, s, longer)
    ensures var end := Exec(t, s, longer); |end.swept| == 1 && !Expired(end.swept[0].entry.job, 100, 50)
  {
    hide Legal, Exec;
    longer := Then(t, s, acts, ChangeJob(1, Job(Running, false, None, 0, None, 99)));
    longer := Then(t, s, longer, RemoveNext(1));
  }
}
