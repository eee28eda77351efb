/** Small states of the store, built event by event from the empty one, for the inputs on which a property fails. */
module SandboxExamples {
  import opened Basics
  import opened Receipts
  import opened SandboxModel
  import opened SandboxRuns

  const SCOPE: Scope := Scope(0, 0, 0, 0)

  const STARTED: Run :=
    Run(0, SCOPE, 0, 0, Resources(1, 1), 0, Startup.Startup(0, None, None, None, None, None), None, None, Starting, 0,
        None, None, None, None, 0, None, None, None, None, None)

  const RECEIPT: Claiming<Id> := Claiming(Key(0, 0, Operation.CreateTask, 0), 0, OnTask(0), 0, 0, 1)

  /** One task with one Run and one message. */
  function Picture(run: Run, delivery: Delivery, claim: Option<Id>): State {
    State(map[0 := Project(0, ProjectActive)], map[0 := None], map[0 := 1], map[0 := Task(SCOPE, 0, Some(0), false, false)],
          map[0 := run], map[0 := Message(0, 0, delivery, claim, false)], {0}, map[RECEIPT.key := Opened(RECEIPT)], map[])
  }

  const PROJECT: State := State(map[0 := Project(0, ProjectActive)], map[0 := None], map[0 := 0], map[], map[], map[], {}, map[], map[])

  const CREATION: CreateInput :=
    CreateInput(Task(SCOPE, 0, Some(0), false, false), Some(STARTED), Admission(0, 1), Some(RECEIPT), Bindable, Some(FirstMessage(0, 0, true)))

  lemma ProjectIsCreated()
    ensures Reachable(PROJECT)
  {
    assert Reachable(EMPTY) by { assert RunsFrom(EMPTY, []) && After(EMPTY, []) == EMPTY; }
    ReachableGoesOn(EMPTY, Event.CreateProject(0, 0, None));
  }

  lemma RunIsAdmitted(s: State)
    requires s == PROJECT.(receipts := s.receipts)
    ensures Admit(s, CREATION.admission, STARTED) == Inserted(map[0 := STARTED], map[0 := 1])
  {
    assert Unreleased(s.runs, 0) == {} && UnreleasedInNamespace(s.runs, 0) == {};
    assert Unreleased(map[0 := STARTED], 0) == {0};
  }

  lemma CreationAddsTask()
    ensures CreateTaskStep(PROJECT, CREATION).0 == Picture(STARTED, Pending, None)
  {
    hide Admit;
    var claimed := PROJECT.(receipts := Claim(PROJECT.receipts, RECEIPT).0);
    assert claimed.receipts == map[RECEIPT.key := Opened(RECEIPT)];
    RunIsAdmitted(claimed);
    assert CreateClaimed(PROJECT, claimed, CREATION).0 == Picture(STARTED, Pending, None);
  }

  lemma TaskIsCreated()
    ensures Reachable(Picture(STARTED, Pending, None))
  {
    hide Reachable, CreateTaskStep, Picture;
    ProjectIsCreated();
    CreationAddsTask();
    ReachableGoesOn(PROJECT, Event.CreateTask(CREATION));
  }

  lemma StartupGoesOn(r: Run, step: StartupStep)
    requires Reachable(Picture(r, Pending, None)) && r.id == 0 && r.phase.Starting? && r.token == 0 && r.scope == SCOPE
    ensures Reachable(Picture(StartupRun(r, true, step).0, Pending, None))
  {
    var s, e := Picture(r, Pending, None), Event.Startup(0, 0, 0, step);
    ReachableGoesOn(s, e);
    assert Step(s, e).0 == Picture(StartupRun(r, true, step).0, Pending, None);
  }

  const RUNNING: Run := ActivatedRun(ACTING, 0)

  const ACTING: Run := STARTED.(readyAt := Some(0), claim := Some(0), lease := Some(1), deadline := Some(1))

  /** The startup of the Run has begun its first action. */
  lemma ActionIsBegun()
    ensures Reachable(Picture(ACTING, Pending, None))
  {
    hide Reachable;
    var ready := STARTED.(readyAt := Some(0));
    var claimed := ready.(claim := Some(0), lease := Some(1));
    TaskIsCreated();
    StartupGoesOn(STARTED, MarkReady(0));
    StartupGoesOn(ready, ClaimStartup(0, 0, 1));
    StartupGoesOn(claimed, BeginAction(0, 0, 1));
  }

  lemma RunIsActivated()
    ensures Reachable(Picture(RUNNING, Pending, None))
  {
    hide Reachable;
    ActionIsBegun();
    ActivationStartsRun();
    ReachableGoesOn(Picture(ACTING, Pending, None), Event.Activate(ACTIVATION));
  }

  const ACTIVATION: ActivateInput := ActivateInput(0, 0, 0, 0, 1, None, None, None, None, 0)

  lemma ActivationStartsRun()
    ensures ActivateStep(Picture(ACTING, Pending, None), ACTIVATION).0 == Picture(RUNNING, Pending, None)
  {
    var s := Picture(ACTING, Pending, None);
    assert PendingStarts(s.receipts, 0) == {};
    assert StartsClosed(s.receipts, 0, RunActivated(0)) == s.receipts;
  }

  lemma MessageIsDispatched()
    ensures Reachable(Picture(RUNNING.(owned := Some(0)), Dispatching, Some(0)))
  {
    RunIsActivated();
    var s := Picture(RUNNING, Pending, None);
    ReachableGoesOn(s, Event.ClaimMessage(0, 0, 0, 1, 0));
    assert ClaimMessageStep(s, 0, 0, 0, 1, 0).0 == Picture(RUNNING.(owned := Some(0)), Dispatching, Some(0));
  }
}
