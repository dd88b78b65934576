/** The life of a tomb: goroutines started, returned and killed, one locked step at a time. */
module Tombs {
  datatype Error = Nil | ErrStillAlive | ErrDying | Failure(id: int)

  datatype Panic = GoAfterDeath | KillWithStillAlive | KillWithDying | CloseOfClosed

  /** Whether the two channels are closed stands for the channels. */
  datatype State = State(alive: int, dying: bool, dead: bool, reason: Error)

  datatype Alarm = Quiet | Panicked(why: Panic)

  datatype Outcome = Fine(state: State) | Panics(why: Panic)

  /** A goroutine is started, one returns, or the tomb is killed. */
  datatype Step = Go | Return(err: Error) | Kill(err: Error)

  const NEWBORN := State(0, false, false, ErrStillAlive)

  // --------------------------------------------------------- single steps

  function Killed(s: State, reason: Error): Outcome {
    if reason == ErrStillAlive then Panics(KillWithStillAlive)
    else if reason == ErrDying then
      if s.reason == ErrStillAlive then Panics(KillWithDying) else Fine(s)
    else if s.reason == ErrStillAlive then
      if s.dying then Panics(CloseOfClosed) else Fine(s.(reason := reason, dying := true))
    else if s.reason == Nil then Fine(s.(reason := reason))
    else Fine(s)
  }

  function Returned(s: State, err: Error): Outcome {
    var left := s.(alive := s.alive - 1);
    if left.alive != 0 && err == Nil then Fine(left)
    else
      var killed := Killed(left, err);
      if killed.Panics? || left.alive != 0 then killed
      else if killed.state.dead then Panics(CloseOfClosed)
      else Fine(killed.state.(dead := true))
  }

  function Next(s: State, step: Step): Outcome {
    match step
    case Go => if s.dead then Panics(GoAfterDeath) else Fine(s.(alive := s.alive + 1))
    case Return(err) => Returned(s, err)
    case Kill(err) => Killed(s, err)
  }

  // ----------------------------------------------------------- whole runs

  function Started(steps: seq<Step>): nat {
    if steps == [] then 0 else Started(steps[..|steps| - 1]) + (if steps[|steps| - 1].Go? then 1 else 0)
  }

  function Ended(steps: seq<Step>): nat {
    if steps == [] then 0 else Ended(steps[..|steps| - 1]) + (if steps[|steps| - 1].Return? then 1 else 0)
  }

  predicate Balanced(steps: seq<Step>) {
    Ended(steps) <= Started(steps)
  }

  /** No more goroutines return than were started, at any time. */
  ghost predicate Possible(steps: seq<Step>) {
    forall i :: 0 <= i <= |steps| ==> Balanced(steps[..i])
  }

  function Run(steps: seq<Step>): Outcome {
    if steps == [] then Fine(NEWBORN)
    else
      var before := Run(steps[..|steps| - 1]);
      if before.Panics? then before else Next(before.state, steps[|steps| - 1])
  }

  // ---------------------------------------- what a history says on its own

  predicate Real(e: Error) {
    e != Nil && e != ErrDying
  }

  /** The first error presented that is neither nil nor ErrDying, or nil. */
  function FirstReal(steps: seq<Step>): Error {
    if steps == [] then Nil
    else
      var before := FirstReal(steps[..|steps| - 1]);
      var last := steps[|steps| - 1];
      if before == Nil && !last.Go? && Real(last.err) then last.err else before
  }

  /** Somebody called Kill, or a goroutine returned an error. */
  predicate Told(steps: seq<Step>) {
    exists i :: 0 <= i < |steps| && (steps[i].Kill? || (steps[i].Return? && steps[i].err != Nil))
  }

  predicate AllReturned(steps: seq<Step>) {
    Started(steps) == Ended(steps) > 0
  }

  /** The state a history should lead to, read off the history alone. */
  function Expected(steps: seq<Step>): State {
    var dying := Told(steps) || AllReturned(steps);
    State(Started(steps) - Ended(steps), dying, AllReturned(steps), if dying then FirstReal(steps) else ErrStillAlive)
  }

  lemma ToldLater(steps: seq<Step>)
    requires steps != []
    ensures Told(steps) <==> Told(steps[..|steps| - 1]) || steps[|steps| - 1].Kill?
                             || (steps[|steps| - 1].Return? && steps[|steps| - 1].err != Nil)
  {
    var before := steps[..|steps| - 1];
    if Told(before) {
      var i :| 0 <= i < |before| && (before[i].Kill? || (before[i].Return? && before[i].err != Nil));
      assert steps[i] == before[i];
    }
    if Told(steps) {
      var i :| 0 <= i < |steps| && (steps[i].Kill? || (steps[i].Return? && steps[i].err != Nil));
      assert i < |before| ==> before[i] == steps[i];
    }
  }

  lemma {:induction false} UntoldMeansNothingReal(steps: seq<Step>)
    ensures !Told(steps) ==> FirstReal(steps) == Nil
    ensures FirstReal(steps) == Nil || Real(FirstReal(steps))
  {
    if steps != [] {
      UntoldMeansNothingReal(steps[..|steps| - 1]);
      ToldLater(steps);
    }
  }

  lemma PossibleBefore(steps: seq<Step>)
    requires Possible(steps) && steps != []
    ensures Possible(steps[..|steps| - 1]) && Ended(steps) <= Started(steps)
  {
    var before := steps[..|steps| - 1];
    assert steps[..|steps|] == steps;
    forall i | 0 <= i <= |before|
      ensures Balanced(before[..i])
    {
      assert before[..i] == steps[..i];
    }
  }

  /** Every run that does not panic ends in the state its history calls for: the count of what runs,
      dying once told to or out of goroutines, dead exactly when all that were started have returned,
      and the first real error, or nil, for a reason. */
  lemma {:induction false} RunExactly(steps: seq<Step>)
    requires Possible(steps) && Run(steps).Fine?
    ensures Run(steps).state == Expected(steps)
    ensures FirstReal(steps) != ErrStillAlive
  {
    if steps != [] {
      var before := steps[..|steps| - 1];
      PossibleBefore(steps);
      RunExactly(before);
      ToldLater(steps);
      UntoldMeansNothingReal(before);
    } else {
      assert !Told(steps);
    }
  }

  /** What makes the next step panic. */
  predicate Misused(steps: seq<Step>, step: Step) {
    match step
    case Go => AllReturned(steps)
    case Return(err) => err == ErrStillAlive || (err == ErrDying && !Told(steps) && !AllReturned(steps))
    case Kill(err) => err == ErrStillAlive || (err == ErrDying && !Told(steps) && !AllReturned(steps))
  }

  /** A step panics if and only if it starts a goroutine after all have returned, or gives
      ErrStillAlive, or gives ErrDying to a tomb that is not dying. So neither channel is ever closed twice. */
  lemma PanicsExactly(steps: seq<Step>, step: Step)
    requires Possible(steps + [step]) && Run(steps).Fine?
    ensures Run(steps + [step]).Panics? <==> Misused(steps, step)
    ensures Run(steps + [step]) != Panics(CloseOfClosed)
  {
    var after := steps + [step];
    assert after[..|after| - 1] == steps;
    PossibleBefore(after);
    RunExactly(steps);
  }

  /** No run closes a channel twice. */
  lemma {:induction false} ClosesOnce(steps: seq<Step>)
    requires Possible(steps)
    ensures Run(steps) != Panics(CloseOfClosed)
  {
    if steps != [] {
      var before := steps[..|steps| - 1];
      PossibleBefore(steps);
      ClosesOnce(before);
      if Run(before).Fine? {
        assert before + [steps[|steps| - 1]] == steps;
        PanicsExactly(before, steps[|steps| - 1]);
      }
    }
  }

  /** From one moment of a run to a later one: what is closed stays closed, nothing is dead that is
      not dying, a dead tomb runs nothing, and a real reason is never replaced. */
  lemma {:induction false} OnlyForward(steps: seq<Step>, i: nat)
    requires Possible(steps) && Run(steps).Fine? && i <= |steps|
    ensures Run(steps[..i]).Fine?
    ensures var early, late := Run(steps[..i]).state, Run(steps).state;
            && (early.dying ==> late.dying) && (early.dead ==> late.dead)
            && (late.dead ==> late.dying && late.alive == 0)
            && (early.dying && early.reason != Nil ==> late.reason == early.reason)
  {
    RunExactly(steps);
    if i < |steps| {
      var before := steps[..|steps| - 1];
      PossibleBefore(steps);
      OnlyForward(before, i);
      assert before[..i] == steps[..i];
      RunExactly(before);
      UntoldMeansNothingReal(before);
    } else {
      assert steps[..i] == steps;
    }
  }

  /** A tomb that never started a goroutine never dies, however often it is killed. */
  lemma KilledEmptyNeverDies(steps: seq<Step>)
    requires Possible(steps) && Run(steps).Fine? && Started(steps) == 0
    ensures !Run(steps).state.dead
  {
    RunExactly(steps);
  }

  // ----------------------------------------------------------- the object

  class Tomb {
    var made: bool
    var alive: int
    var dying: bool
    var dead: bool
    var reason: Error

    /** The zero value is ready for use: its channels are made at the first call. */
    constructor ()
      ensures Now() == NEWBORN
    {
      made, alive, dying, dead, reason := false, 0, false, false, Nil;
    }

    ghost function Now(): State
      reads this
    {
      if made then State(alive, dying, dead, reason) else NEWBORN.(alive := alive)
    }

    method Init()
      modifies this
      ensures made && Now() == old(Now()) && alive == old(alive)
    {
      if !made {
        made, dying, dead, reason := true, false, false, ErrStillAlive;
      }
    }

    /** The part of starting a goroutine that holds the lock. */
    method Go() returns (alarm: Alarm)
      modifies this
      ensures match Next(old(Now()), Step.Go)
              case Fine(s) => Now() == s && alarm == Quiet
              case Panics(why) => Now() == old(Now()) && alarm == Panicked(why)
    {
      Init();
      if dead {
        return Panicked(GoAfterDeath);
      }
      alive := alive + 1;
      alarm := Quiet;
    }

    /** What a goroutine does once its function has returned. */
    method Finish(err: Error) returns (alarm: Alarm)
      requires made
      modifies this
      ensures made
      ensures match Next(old(Now()), Return(err))
              case Fine(s) => Now() == s && alarm == Quiet
              case Panics(why) => alarm == Panicked(why)
    {
      alarm := Quiet;
      alive := alive - 1;
      if alive == 0 || err != Nil {
        alarm := KillLocked(err);
        if alarm == Quiet && alive == 0 {
          if dead {
            return Panicked(CloseOfClosed);
          }
          dead := true;
        }
      }
    }

    method Kill(err: Error) returns (alarm: Alarm)
      modifies this
      ensures match Next(old(Now()), Step.Kill(err))
              case Fine(s) => Now() == s && alarm == Quiet
              case Panics(why) => alarm == Panicked(why) && (why != CloseOfClosed ==> Now() == old(Now()))
    {
      Init();
      alarm := KillLocked(err);
    }

    method KillLocked(err: Error) returns (alarm: Alarm)
      requires made
      modifies this
      ensures made && alive == old(alive)
      ensures match Killed(old(Now()), err)
              case Fine(s) => Now() == s && alarm == Quiet
              case Panics(why) => alarm == Panicked(why) && (why != CloseOfClosed ==> Now() == old(Now()))
    {
      alarm := Quiet;
      if err == ErrStillAlive {
        return Panicked(KillWithStillAlive);
      }
      if err == ErrDying {
        if reason == ErrStillAlive {
          return Panicked(KillWithDying);
        }
        return;
      }
      if reason == ErrStillAlive {
        reason := err;
        if dying {
          return Panicked(CloseOfClosed);
        }
        dying := true;
        return;
      }
      if reason == Nil {
        reason := err;
      }
    }

    method Err() returns (r: Error)
      modifies this
      ensures r == Now().reason && Now() == old(Now())
    {
      Init();
      r := reason;
    }
  }
}
