/** The job state machine (src/job_manager.rs). */
module JobStates {

  datatype JobState = Created | Starting | Running | Exiting | Completed | Failed | Canceled | TimedOut

  predicate CanTransition(from: JobState, to: JobState) {
    || (from == Created && to == Starting)
    || (from == Starting && to == Running)
    || (from == Starting && to == Failed)
    || (from == Running && to == Exiting)
    || (from == Running && to == Canceled)
    || (from == Running && to == TimedOut)
    || (from == Running && to == Failed)
    || (from == Exiting && to == Completed)
    || (from == Exiting && to == Failed)
    || (from == Created && to == Canceled)
    || (from == Starting && to == Canceled)
    || (from == Exiting && to == Canceled)
  }

  predicate IsTerminal(s: JobState) {
    s == Completed || s == Failed || s == Canceled || s == TimedOut
  }

  /** A measure that every transition increases. */
  function Rank(s: JobState): (r: nat)
    ensures r <= 4
    ensures r == 4 <==> IsTerminal(s)
  {
    match s
    case Created => 0
    case Starting => 1
    case Running => 2
    case Exiting => 3
    case _ => 4
  }

  lemma TransitionsClimb(from: JobState, to: JobState)
    ensures CanTransition(from, to) ==> Rank(from) < Rank(to)
  {
  }

  /** Where each state can be entered from, and that a state is terminal iff nothing leads out of it. */
  lemma Predecessors(from: JobState)
    ensures !CanTransition(from, Created)
    ensures CanTransition(from, Starting) <==> from == Created
    ensures CanTransition(from, Running) <==> from == Starting
    ensures CanTransition(from, Exiting) <==> from == Running
    ensures CanTransition(from, Completed) <==> from == Exiting
    ensures CanTransition(from, TimedOut) <==> from == Running
    ensures CanTransition(from, Failed) <==> from == Starting || from == Running || from == Exiting
    ensures CanTransition(from, Canceled) <==> from == Created || from == Starting || from == Running || from == Exiting
    ensures IsTerminal(from) <==> forall s :: !CanTransition(from, s)
  {
    if !IsTerminal(from) {
      assert CanTransition(from, Canceled);
    }
  }

  /** Cancelling is possible exactly while a job is not terminal. */
  lemma CancelableIffLive(s: JobState)
    ensures CanTransition(s, Canceled) <==> !IsTerminal(s)
  {
  }

  /** The states of a job from creation on: each entry one allowed transition after the one before. */
  predicate Path(states: seq<JobState>) {
    forall i :: 0 < i < |states| ==> CanTransition(states[i - 1], states[i])
  }

  /** A job makes at most four transitions, and none after its first terminal state. */
  lemma {:induction false} PathsAreShort(states: seq<JobState>)
    requires states != [] && Path(states)
    ensures |states| - 1 <= Rank(states[|states| - 1])
    ensures forall i :: 0 <= i < |states| - 1 ==> !IsTerminal(states[i])
  {
    var n := |states| - 1;
    if n > 0 {
      PathsAreShort(states[..n]);
      TransitionsClimb(states[n - 1], states[n]);
    }
  }
}
