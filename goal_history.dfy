/** The goal list's per-goal actions and the "Update Goal Progress" dialog, whose two
    inputs keep savings and percentage in step. */
module GoalHistory {
  import opened GoalTypes
  import HomePage

  datatype Action = UpdateProgress | Complete | Delete

  /** The buttons a goal's card offers: update and complete only while the goal is
      open, delete always. */
  function ActionsFor(goal: Goal): (actions: set<Action>)
    ensures Delete in actions
    ensures UpdateProgress in actions <==> !goal.completed
    ensures Complete in actions <==> !goal.completed
  {
    if goal.completed then {Delete} else {UpdateProgress, Complete, Delete}
  }

  /** Once the page has completed a goal, its card offers nothing but delete. */
  lemma CompletedGoalOffersOnlyDelete(goals: seq<Goal>, id: string)
    ensures forall g :: g in HomePage.MarkedCompleted(goals, id) && g.id == id ==>
              ActionsFor(g) == {Delete}
  {
    var r := HomePage.MarkedCompleted(goals, id);
    forall g | g in r && g.id == id ensures ActionsFor(g) == {Delete} {
      var i :| 0 <= i < |r| && r[i] == g;
      assert g.completed;
    }
  }

  /** The percentage a savings figure stands for. */
  function ProgressFromSavings(savings: real, goalAmount: real): real
    requires goalAmount != 0.0
  {
    (savings / goalAmount) * 100.0
  }

  /** The savings a percentage stands for. */
  function SavingsFromProgress(progress: real, goalAmount: real): real
  {
    (progress / 100.0) * goalAmount
  }

  /** Dragging the slider and reading the savings back gives the same percentage. */
  lemma ProgressRoundTrip(progress: real, goalAmount: real)
    requires goalAmount > 0.0
    ensures ProgressFromSavings(SavingsFromProgress(progress, goalAmount), goalAmount) == progress
  {
    var s := SavingsFromProgress(progress, goalAmount);
    assert s / goalAmount == progress / 100.0;
  }

  /** Typing savings and reading the percentage back gives the same savings. */
  lemma SavingsRoundTrip(savings: real, goalAmount: real)
    requires goalAmount > 0.0
    ensures SavingsFromProgress(ProgressFromSavings(savings, goalAmount), goalAmount) == savings
  {
    var p := ProgressFromSavings(savings, goalAmount);
    assert p / 100.0 == savings / goalAmount;
  }

  /** The arguments handed to the page's onUpdateProgress. */
  datatype ProgressUpdate = ProgressUpdate(id: string, progress: real, currentSavings: real)

  class ProgressDialog {
    var isDialogOpen: bool
    var selectedGoal: Option<Goal>
    var progressValue: real
    var currentSavingsValue: real

    /** The two fields agree with each other for the selected goal. */
    predicate InStep()
      reads this
      requires selectedGoal.Some? && selectedGoal.value.goalAmount > 0.0
    {
      progressValue == ProgressFromSavings(currentSavingsValue, selectedGoal.value.goalAmount)
    }

    constructor ()
      ensures !isDialogOpen && selectedGoal == None
      ensures progressValue == 0.0 && currentSavingsValue == 0.0
    {
      isDialogOpen := false;
      selectedGoal := None;
      progressValue := 0.0;
      currentSavingsValue := 0.0;
    }

    /** openProgressDialog: select the goal, copy its two figures, open. */
    method OpenProgressDialog(goal: Goal)
      modifies this
      ensures selectedGoal == Some(goal) && isDialogOpen
      ensures progressValue == goal.progress && currentSavingsValue == goal.currentSavings
    {
      selectedGoal := Some(goal);
      progressValue := goal.progress;
      currentSavingsValue := goal.currentSavings;
      isDialogOpen := true;
    }

    /** The dialog's open flag set from outside: Cancel, or the dialog closing itself. */
    method SetDialogOpen(open: bool)
      modifies this
      ensures isDialogOpen == open
      ensures selectedGoal == old(selectedGoal)
      ensures progressValue == old(progressValue) && currentSavingsValue == old(currentSavingsValue)
    {
      isDialogOpen := open;
    }

    /** The savings input. The percentage follows only when the goal amount is positive,
        and is not clamped to [0,100]. The input is rendered only while a goal is
        selected. */
    method OnSavingsInput(value: real)
      requires selectedGoal.Some?
      modifies this
      ensures selectedGoal == old(selectedGoal) && isDialogOpen == old(isDialogOpen)
      ensures currentSavingsValue == value
      ensures progressValue == if selectedGoal.value.goalAmount > 0.0
                               then ProgressFromSavings(value, selectedGoal.value.goalAmount)
                               else old(progressValue)
      ensures selectedGoal.value.goalAmount > 0.0 ==> InStep()
    {
      currentSavingsValue := value;
      if selectedGoal.value.goalAmount > 0.0 {
        progressValue := (value / selectedGoal.value.goalAmount) * 100.0;
      }
    }

    /** The percentage slider; the savings always follow. */
    method OnProgressInput(value: real)
      requires selectedGoal.Some?
      modifies this
      ensures selectedGoal == old(selectedGoal) && isDialogOpen == old(isDialogOpen)
      ensures progressValue == value
      ensures currentSavingsValue == SavingsFromProgress(value, selectedGoal.value.goalAmount)
      ensures selectedGoal.value.goalAmount > 0.0 ==> InStep()
    {
      progressValue := value;
      currentSavingsValue := (value / 100.0) * selectedGoal.value.goalAmount;
      if selectedGoal.value.goalAmount > 0.0 {
        ProgressRoundTrip(value, selectedGoal.value.goalAmount);
      }
    }

    /** handleUpdateProgress: with a goal selected, hand its id and the two figures to
        the page and close; with none, do nothing. */
    method HandleUpdateProgress() returns (emitted: Option<ProgressUpdate>)
      modifies this
      ensures old(selectedGoal).None? ==> emitted == None && isDialogOpen == old(isDialogOpen)
      ensures old(selectedGoal).Some? ==>
                emitted == Some(ProgressUpdate(old(selectedGoal).value.id, old(progressValue),
                                               old(currentSavingsValue)))
                && !isDialogOpen
      ensures selectedGoal == old(selectedGoal)
      ensures progressValue == old(progressValue) && currentSavingsValue == old(currentSavingsValue)
    {
      emitted := None;
      if selectedGoal.Some? {
        emitted := Some(ProgressUpdate(selectedGoal.value.id, progressValue, currentSavingsValue));
        isDialogOpen := false;
      }
    }
  }
}
