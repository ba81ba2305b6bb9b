/** The board wired as the page wires it, an active and a finished list
    sharing one store, driven through a create, a drag onto
    the finished list, and a repeated drop. */
module BoardScenario {
  import opened Projects
  import opened Board

  /** The page's two lists, registered on `store` in this order. */
  ghost predicate Wired(store: ProjectState, active: ProjectList, finished: ProjectList)
    reads store
  {
    && store.listeners == [active, finished]
    && active.kind == ActiveList && finished.kind == FinishedList
  }

  /** The wired board holds the single project `p`, and each list shows
      what it keeps of it. */
  ghost predicate Holds(store: ProjectState, active: ProjectList, finished: ProjectList, p: Project)
    reads store, active, finished
  {
    && Wired(store, active, finished)
    && store.projects == [p]
    && active.assignedProjects == (if p.status == Active then [p] else [])
    && finished.assignedProjects == (if p.status == Finished then [p] else [])
  }

  /** The store with its two lists, as the page constructs them. */
  method NewBoard() returns (store: ProjectState, active: ProjectList, finished: ProjectList)
    ensures fresh(store) && fresh(active) && fresh(finished)
    ensures Wired(store, active, finished) && store.projects == [] && store.delivered == []
  {
    store := new ProjectState();
    active := new ProjectList(ActiveList, store);
    finished := new ProjectList(FinishedList, store);
  }

  /** Submitting ("Build API", "desc", 4) to an empty board. */
  method Create(store: ProjectState, active: ProjectList, finished: ProjectList, id: string)
    returns (created: Project)
    requires Wired(store, active, finished) && store.projects == []
    modifies store`projects, store`delivered, active, finished
    ensures created == Project(id, "Build API", "desc", Int(4), Active)
    ensures Holds(store, active, finished, created)
    ensures |store.delivered| == |old(store.delivered)| + 2
    ensures finished.droppable == old(finished.droppable)
  {
    assert store.ListenerSet() == {active, finished};
    store.AddProject(id, "Build API", "desc", Int(4));
    created := store.projects[0];
    assert store.projects == [] + [created];
    SelectAppend([], created, Active);
    SelectAppend([], created, Finished);
  }

  /** Dropping the board's one project, still Active, onto the finished
      list: it moves and both lists are notified. */
  method DropAndMove(store: ProjectState, active: ProjectList, finished: ProjectList, p: Project, dt: DataTransfer)
    requires Holds(store, active, finished, p) && p.status == Active && PlainText(dt) == p.id
    modifies store`projects, store`delivered, active, finished
    ensures Holds(store, active, finished, p.(status := Finished))
    ensures |store.delivered| == |old(store.delivered)| + 2
    ensures finished.droppable == old(finished.droppable)
  {
    assert store.ListenerSet() == {active, finished};
    var moved := p.(status := Finished);
    MoveSingle(p, Finished);
    assert MoveApplies(store.projects, PlainText(dt), TargetStatus(finished.kind));
    finished.Drop(dt, store);
    assert store.projects == [] + [moved];
    SelectAppend([], moved, Active);
    SelectAppend([], moved, Finished);
  }

  /** Dropping the board's one project, already Finished, onto the finished
      list again: nothing changes and no listener is called. */
  method DropAgain(store: ProjectState, active: ProjectList, finished: ProjectList, p: Project, dt: DataTransfer)
    requires Holds(store, active, finished, p) && p.status == Finished && PlainText(dt) == p.id
    modifies store`projects, store`delivered, active, finished
    ensures Holds(store, active, finished, p)
    ensures store.delivered == old(store.delivered)
  {
    assert store.ListenerSet() == {active, finished};
    MoveSingle(p, Finished);
    assert !MoveApplies(store.projects, PlainText(dt), TargetStatus(finished.kind));
    finished.Drop(dt, store);
  }

  /** Create ("Build API", "desc", 4), drag it onto the finished list, then
      drop it there a second time. */
  method CreateDragAndDropAgain(id: string)
    returns (created: Project, activeAfterCreate: seq<Project>, finishedAfterCreate: seq<Project>,
             activeAfterDrop: seq<Project>, finishedAfterDrop: seq<Project>,
             accepted: bool, finishedAfterSecondDrop: seq<Project>,
             ghost callsAfterCreate: nat, ghost callsAfterDrop: nat, ghost callsAfterSecondDrop: nat)
    ensures created == Project(id, "Build API", "desc", Int(4), Active)
    ensures activeAfterCreate == [created] && finishedAfterCreate == []
    ensures accepted
    ensures activeAfterDrop == [] && finishedAfterDrop == [created.(status := Finished)]
    ensures finishedAfterSecondDrop == finishedAfterDrop
    ensures callsAfterCreate == 2 && callsAfterDrop == 4 && callsAfterSecondDrop == 4
  {
    var store, active, finished := NewBoard();
    created := Create(store, active, finished, id);
    activeAfterCreate, finishedAfterCreate := active.assignedProjects, finished.assignedProjects;
    callsAfterCreate := |store.delivered|;

    var dt := DragStart(created);
    DragStartIsAccepted(created);
    accepted := finished.DragOver(Some(dt));
    assert Holds(store, active, finished, created);
    DropAndMove(store, active, finished, created, dt);
    activeAfterDrop, finishedAfterDrop := active.assignedProjects, finished.assignedProjects;
    callsAfterDrop := |store.delivered|;

    var moved := created.(status := Finished);
    DropAgain(store, active, finished, moved, dt);
    finishedAfterSecondDrop := finished.assignedProjects;
    callsAfterSecondDrop := |store.delivered|;
  }
}
