/** The page that owns the goal list and the gamification counters. The list transforms
    are pure functions on sequences; the handlers are methods of `Home`, which reassign
    its state fields the way the page's setters do. */
module HomePage {
  import opened GoalTypes

  /** Some goal in the list carries this id. */
  predicate HasId(goals: seq<Goal>, id: string)
  {
    exists g :: g in goals && g.id == id
  }

  /** handleSaveGoal's list: the new goal, with the page's fresh id and timestamp and not
      completed, appended after every existing goal. */
  function Appended(goals: seq<Goal>, newGoal: Goal, freshId: string, now: Date): (r: seq<Goal>)
    ensures |r| == |goals| + 1 && r[..|goals|] == goals
    ensures r[|goals|] == newGoal.(id := freshId, date := now, completed := false)
  {
    goals + [newGoal.(id := freshId, date := now, completed := false)]
  }

  /** handleDeleteGoal's list: the goals whose id differs from `id`, in their order. */
  function Removed(goals: seq<Goal>, id: string): (r: seq<Goal>)
    ensures |r| <= |goals|
    ensures forall g :: g in r <==> g in goals && g.id != id
  {
    if goals == [] then []
    else if goals[0].id != id then [goals[0]] + Removed(goals[1..], id)
    else Removed(goals[1..], id)
  }

  /** handleCompleteGoal's list: every goal with this id marked completed, nothing else
      touched. */
  function MarkedCompleted(goals: seq<Goal>, id: string): (r: seq<Goal>)
    ensures |r| == |goals|
    ensures forall i :: 0 <= i < |goals| ==>
              r[i] == if goals[i].id == id then goals[i].(completed := true) else goals[i]
  {
    if goals == [] then []
    else [if goals[0].id == id then goals[0].(completed := true) else goals[0]]
         + MarkedCompleted(goals[1..], id)
  }

  /** handleUpdateProgress's list: progress and savings of every goal with this id
      overwritten, completed or not; nothing else touched. */
  function ProgressUpdated(goals: seq<Goal>, id: string, progress: real, currentSavings: real): (r: seq<Goal>)
    ensures |r| == |goals|
    ensures forall i :: 0 <= i < |goals| ==>
              r[i] == if goals[i].id == id
                      then goals[i].(progress := progress, currentSavings := currentSavings)
                      else goals[i]
  {
    if goals == [] then []
    else [if goals[0].id == id then goals[0].(progress := progress, currentSavings := currentSavings)
          else goals[0]]
         + ProgressUpdated(goals[1..], id, progress, currentSavings)
  }

  /** The number of completed goals in the list. */
  function CompletedCount(goals: seq<Goal>): (n: nat)
    ensures n <= |goals|
  {
    if goals == [] then 0
    else (if goals[0].completed then 1 else 0) + CompletedCount(goals[1..])
  }

  /** The count is 0 exactly when no goal is completed, and the length exactly when
      every goal is. */
  lemma {:induction false} CompletedCountExtremes(goals: seq<Goal>)
    ensures CompletedCount(goals) == 0 <==> forall g :: g in goals ==> !g.completed
    ensures CompletedCount(goals) == |goals| <==> forall g :: g in goals ==> g.completed
  {
    if goals != [] {
      CompletedCountExtremes(goals[1..]);
      assert forall g :: g in goals <==> g == goals[0] || g in goals[1..];
    }
  }

  /** Math.floor(completed / 5) + 1: one level per five completed goals, starting at 1. */
  function Level(completed: nat): (level: nat)
    ensures level >= 1
    ensures 5 * (level - 1) <= completed < 5 * level
  {
    completed / 5 + 1
  }

  lemma LevelExamples()
    ensures Level(0) == 1 && Level(4) == 1 && Level(5) == 2 && Level(12) == 3
  {
  }

  /** Deleting distributes over concatenation: each goal is kept or dropped on its own,
      and the kept ones stay in their order. */
  lemma {:induction false} RemovedConcat(xs: seq<Goal>, ys: seq<Goal>, id: string)
    ensures Removed(xs + ys, id) == Removed(xs, id) + Removed(ys, id)
  {
    if xs != [] {
      assert (xs + ys)[0] == xs[0] && (xs + ys)[1..] == xs[1..] + ys;
      RemovedConcat(xs[1..], ys, id);
      if xs[0].id != id {
        calc {
          Removed(xs + ys, id);
          [xs[0]] + Removed(xs[1..] + ys, id);
          [xs[0]] + (Removed(xs[1..], id) + Removed(ys, id));
          ([xs[0]] + Removed(xs[1..], id)) + Removed(ys, id);
        }
      }
    } else {
      assert xs + ys == ys;
    }
  }

  /** Deleting an id nobody carries leaves the list as it was. */
  lemma {:induction false} RemovedAbsent(goals: seq<Goal>, id: string)
    requires !HasId(goals, id)
    ensures Removed(goals, id) == goals
  {
    if goals != [] {
      assert goals[0] in goals;
      assert !HasId(goals[1..], id) by {
        forall g | g in goals[1..] ensures g.id != id {
          assert g in goals;
        }
      }
      RemovedAbsent(goals[1..], id);
    }
  }

  /** Saving under a fresh id and then deleting that id gives back the original list. */
  lemma SaveThenDelete(goals: seq<Goal>, newGoal: Goal, freshId: string, now: Date)
    requires !HasId(goals, freshId)
    ensures Removed(Appended(goals, newGoal, freshId, now), freshId) == goals
  {
    var saved := newGoal.(id := freshId, date := now, completed := false);
    RemovedConcat(goals, [saved], freshId);
    RemovedAbsent(goals, freshId);
  }

  /** Completing twice is completing once. */
  lemma MarkedCompletedIdempotent(goals: seq<Goal>, id: string)
    ensures MarkedCompleted(MarkedCompleted(goals, id), id) == MarkedCompleted(goals, id)
  {
    var once := MarkedCompleted(goals, id);
    var twice := MarkedCompleted(once, id);
    assert forall i :: 0 <= i < |goals| ==> twice[i] == once[i];
  }

  /** The count is additive over concatenation. */
  lemma {:induction false} CompletedCountConcat(xs: seq<Goal>, ys: seq<Goal>)
    ensures CompletedCount(xs + ys) == CompletedCount(xs) + CompletedCount(ys)
  {
    if xs != [] {
      assert (xs + ys)[0] == xs[0] && (xs + ys)[1..] == xs[1..] + ys;
      CompletedCountConcat(xs[1..], ys);
    } else {
      assert xs + ys == ys;
    }
  }

  /** Saving adds a goal that is not completed, so the count stays. */
  lemma CompletedCountAppended(goals: seq<Goal>, newGoal: Goal, freshId: string, now: Date)
    ensures CompletedCount(Appended(goals, newGoal, freshId, now)) == CompletedCount(goals)
  {
    var saved := newGoal.(id := freshId, date := now, completed := false);
    CompletedCountConcat(goals, [saved]);
  }

  /** Deleting can only lower the count; it lowers it when a completed goal goes. */
  lemma {:induction false} CompletedCountRemoved(goals: seq<Goal>, id: string)
    ensures CompletedCount(Removed(goals, id)) <= CompletedCount(goals)
    ensures (exists g :: g in goals && g.id == id && g.completed) ==>
              CompletedCount(Removed(goals, id)) < CompletedCount(goals)
  {
    if goals != [] {
      CompletedCountRemoved(goals[1..], id);
      if goals[0].id != id {
        assert Removed(goals, id) == [goals[0]] + Removed(goals[1..], id);
        assert ([goals[0]] + Removed(goals[1..], id))[1..] == Removed(goals[1..], id);
      }
      assert forall g :: g in goals && g != goals[0] ==> g in goals[1..];
    }
  }

  /** Updating progress never changes which goals are completed, so the count stays. */
  lemma {:induction false} CompletedCountProgressUpdated(goals: seq<Goal>, id: string, progress: real, currentSavings: real)
    ensures CompletedCount(ProgressUpdated(goals, id, progress, currentSavings)) == CompletedCount(goals)
  {
    if goals != [] {
      var r := ProgressUpdated(goals, id, progress, currentSavings);
      assert r[1..] == ProgressUpdated(goals[1..], id, progress, currentSavings);
      CompletedCountProgressUpdated(goals[1..], id, progress, currentSavings);
    }
  }

  /** Completing never lowers the count; it raises it when an open goal carries the id. */
  lemma {:induction false} CompletedCountMarked(goals: seq<Goal>, id: string)
    ensures CompletedCount(MarkedCompleted(goals, id)) >= CompletedCount(goals)
    ensures (exists g :: g in goals && g.id == id && !g.completed) ==>
              CompletedCount(MarkedCompleted(goals, id)) > CompletedCount(goals)
  {
    if goals != [] {
      var r := MarkedCompleted(goals, id);
      assert r[1..] == MarkedCompleted(goals[1..], id);
      CompletedCountMarked(goals[1..], id);
      assert forall g :: g in goals && g != goals[0] ==> g in goals[1..];
    }
  }

  /** An id is present exactly when some position carries it. */
  lemma HasIdAt(goals: seq<Goal>, id: string)
    ensures HasId(goals, id) <==> exists i :: 0 <= i < |goals| && goals[i].id == id
  {
    if HasId(goals, id) {
      var g :| g in goals && g.id == id;
      var i :| 0 <= i < |goals| && goals[i] == g;
    }
  }

  /** Completing and updating progress keep every goal's id, so the ids that delete can
      find stay the same. */
  lemma IdsKept(goals: seq<Goal>, id: string, other: string, progress: real, currentSavings: real)
    ensures HasId(MarkedCompleted(goals, id), other) <==> HasId(goals, other)
    ensures HasId(ProgressUpdated(goals, id, progress, currentSavings), other) <==> HasId(goals, other)
  {
    var m := MarkedCompleted(goals, id);
    var p := ProgressUpdated(goals, id, progress, currentSavings);
    assert forall i :: 0 <= i < |goals| ==> m[i].id == goals[i].id && p[i].id == goals[i].id;
    HasIdAt(goals, other);
    HasIdAt(m, other);
    HasIdAt(p, other);
  }

  /** No list operation clears `completed`: a completed goal stays completed, in place. */
  lemma NothingReopens(goals: seq<Goal>, id: string, progress: real, currentSavings: real)
    ensures forall i :: 0 <= i < |goals| && goals[i].completed ==>
              MarkedCompleted(goals, id)[i].completed
              && ProgressUpdated(goals, id, progress, currentSavings)[i].completed
    ensures forall g :: g in Removed(goals, id) && g.completed ==> g in goals
  {
  }

  /** The stale counter: deleting the only completed goal empties the list, but the
      page keeps the count of 1 it had. */
  lemma DeleteLeavesCountStale(g: Goal)
    requires g.completed
    ensures CompletedCount([g]) == 1 && CompletedCount(Removed([g], g.id)) == 0
  {
  }

  /** The page state. `userLevel` always follows `completedGoals` by the level formula,
      the first-goal badge is shown whenever goals exist, and the counter never falls
      below the completed goals actually in the list (it can only run ahead, after a
      delete). */
  class Home {
    var goals: seq<Goal>
    var calculationResult: Option<CalculationResult>
    var userLevel: nat
    var completedGoals: nat
    var showFirstGoalBadge: bool

    ghost predicate Valid()
      reads this
    {
      && userLevel == Level(completedGoals)
      && (goals != [] ==> showFirstGoalBadge)
      && CompletedCount(goals) <= completedGoals
    }

    constructor ()
      ensures Valid()
      ensures goals == [] && calculationResult == None
      ensures userLevel == 1 && completedGoals == 0 && !showFirstGoalBadge
    {
      goals := [];
      calculationResult := None;
      userLevel := 1;
      completedGoals := 0;
      showFirstGoalBadge := false;
    }

    /** The load effect; `saved` is the stored list, `None` when the slot is empty. */
    method LoadSavedGoals(saved: Option<seq<Goal>>)
      requires Valid()
      modifies this
      ensures Valid()
      ensures calculationResult == old(calculationResult)
      ensures saved.None? ==>
                goals == old(goals) && completedGoals == old(completedGoals)
                && userLevel == old(userLevel) && showFirstGoalBadge == old(showFirstGoalBadge)
      ensures saved.Some? ==>
                goals == saved.value && completedGoals == CompletedCount(goals)
                && userLevel == Level(completedGoals) && showFirstGoalBadge == (|goals| > 0)
    {
      if saved.Some? {
        var parsed := saved.value;
        goals := parsed;
        var completed := CompletedCount(parsed);
        completedGoals := completed;
        userLevel := completed / 5 + 1;
        showFirstGoalBadge := |parsed| > 0;
      }
    }

    method HandleCalculate(result: CalculationResult)
      requires Valid()
      modifies this
      ensures Valid()
      ensures calculationResult == Some(result)
      ensures goals == old(goals) && completedGoals == old(completedGoals)
      ensures userLevel == old(userLevel) && showFirstGoalBadge == old(showFirstGoalBadge)
    {
      calculationResult := Some(result);
    }

    /** Saving appends; the first goal ever saved turns the badge on. The counters are
        not touched. */
    method HandleSaveGoal(newGoal: Goal, freshId: string, now: Date)
      requires Valid()
      modifies this
      ensures Valid()
      ensures goals == Appended(old(goals), newGoal, freshId, now)
      ensures showFirstGoalBadge == (old(showFirstGoalBadge) || |goals| == 1)
      ensures showFirstGoalBadge
      ensures completedGoals == old(completedGoals) && userLevel == old(userLevel)
      ensures calculationResult == old(calculationResult)
    {
      var updatedGoals := goals + [newGoal.(id := freshId, date := now, completed := false)];
      CompletedCountAppended(goals, newGoal, freshId, now);
      goals := updatedGoals;
      if |updatedGoals| == 1 {
        showFirstGoalBadge := true;
      }
    }

    /** Deleting filters the list and leaves the counters as they were, even when the
        deleted goal was completed. */
    method HandleDeleteGoal(id: string)
      requires Valid()
      modifies this
      ensures Valid()
      ensures goals == Removed(old(goals), id)
      ensures completedGoals == old(completedGoals) && userLevel == old(userLevel)
      ensures showFirstGoalBadge == old(showFirstGoalBadge)
      ensures calculationResult == old(calculationResult)
      // deleting a completed goal leaves the counter above the real count
      ensures (exists g :: g in old(goals) && g.id == id && g.completed) ==>
                CompletedCount(goals) < completedGoals
    {
      CompletedCountRemoved(goals, id);
      goals := Removed(goals, id);
    }

    /** Completing marks the goal and recounts; the level follows the new count. */
    method HandleCompleteGoal(id: string)
      requires Valid()
      modifies this
      ensures Valid()
      ensures goals == MarkedCompleted(old(goals), id)
      ensures completedGoals == CompletedCount(goals) && userLevel == Level(completedGoals)
      ensures showFirstGoalBadge == old(showFirstGoalBadge)
      ensures calculationResult == old(calculationResult)
    {
      var updatedGoals := MarkedCompleted(goals, id);
      var completed := CompletedCount(updatedGoals);
      completedGoals := completed;
      userLevel := completed / 5 + 1;
      goals := updatedGoals;
    }

    /** Updating progress overwrites two fields of the matching goals, completed or not;
        the counters are not touched. */
    method HandleUpdateProgress(id: string, progress: real, currentSavings: real)
      requires Valid()
      modifies this
      ensures Valid()
      ensures goals == ProgressUpdated(old(goals), id, progress, currentSavings)
      ensures completedGoals == old(completedGoals) && userLevel == old(userLevel)
      ensures showFirstGoalBadge == old(showFirstGoalBadge)
      ensures calculationResult == old(calculationResult)
    {
      CompletedCountProgressUpdated(goals, id, progress, currentSavings);
      goals := ProgressUpdated(goals, id, progress, currentSavings);
    }
  }
}
