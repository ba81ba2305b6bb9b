/** The project board: the observable project store, the two status lists
    that subscribe to it and act as drop targets, the rendering of one
    project item (the drag source), and the input form that creates
    projects. The document itself is not modelled: each unit keeps, as
    fields, only the state its handlers read or write. */
module Board {
  import opened Text
  import opened Projects

  // ---------------------------------------------------------------------
  // List kinds and the labels derived from them

  /** The `type` a `ProjectList` is constructed with. */
  datatype ListType = ActiveList | FinishedList

  function TypeName(t: ListType): string {
    match t
    case ActiveList => "active"
    case FinishedList => "finished"
  }

  /** The status a list shows and the status a drop onto it moves to. */
  function TargetStatus(t: ListType): (st: ProjectStatus)
    ensures st == Active <==> t == ActiveList
  {
    if t == ActiveList then Active else Finished
  }

  /** The id given to the list's root element. */
  function ElementId(t: ListType): (id: string)
    ensures id == if t == ActiveList then "active-projects" else "finished-projects"
  {
    TypeName(t) + "-projects"
  }

  /** The id given to the list's `ul`, which also hosts its items. */
  function ListId(t: ListType): (id: string)
    ensures id == ElementId(t) + "-list"
    ensures id == if t == ActiveList then "active-projects-list" else "finished-projects-list"
  {
    TypeName(t) + "-projects-list"
  }

  /** The list heading: the type name upper-cased, then " PROJECTS". */
  function Heading(t: ListType): (h: string)
    ensures h == if t == ActiveList then "ACTIVE PROJECTS" else "FINISHED PROJECTS"
  {
    Upper(TypeName(t)) + " PROJECTS"
  }

  /** Each list's element id, list id and heading differ from the other
      list's, so the two lists never address each other's elements. */
  lemma LabelsDistinguishLists(t: ListType, u: ListType)
    requires t != u
    ensures ElementId(t) != ElementId(u)
    ensures ListId(t) != ListId(u)
    ensures Heading(t) != Heading(u)
  {
    assert ElementId(t)[0] != ElementId(u)[0];
    assert ListId(t)[0] != ListId(u)[0];
  }

  // ---------------------------------------------------------------------
  // Rendering one project item

  /** `${n}` for a number. */
  function NumberText(x: Num): (s: string)
    ensures x.NaN? <==> s == "NaN"
  {
    match x
    case Int(n) => IntToString(n)
    case NaN => "NaN"
  }

  lemma NumberTextInjective(x: Num, y: Num)
    ensures NumberText(x) == NumberText(y) ==> x == y
  {
    if x.Int? && y.Int? {
      IntToStringInjective(x.value, y.value);
    }
  }

  /** The `persons` getter: singular for exactly one person, plural otherwise. */
  function Persons(people: Num): (s: string)
    ensures s == "1 person" <==> people == Int(1)
    ensures people != Int(1) ==> s == NumberText(people) + " persons"
  {
    if people == Int(1) then "1 person" else NumberText(people) + " persons"
  }

  /** The phrase determines the people count: different counts never render
      alike. */
  lemma PersonsInjective(x: Num, y: Num)
    ensures Persons(x) == Persons(y) ==> x == y
  {
    if Persons(x) == Persons(y) && x != Int(1) && y != Int(1) {
      var s := Persons(x);
      assert NumberText(x) == s[..|s| - 8] == NumberText(y);
      NumberTextInjective(x, y);
    }
  }

  /** What a `ProjectItem` writes into its element: id, `h2`, `h3` and `p`.
      `elementId` is None when the template's own id is kept. */
  datatype RenderedItem = RenderedItem(
    elementId: Option<string>,
    heading: string,
    peopleLine: string,
    body: string)

  /** The element id is set only for a non-empty project id: an empty
      string is falsy, and then the template's id stays. */
  function RenderItem(p: Project): (r: RenderedItem)
    ensures r.elementId.Some? <==> p.id != ""
    ensures r.elementId.Some? ==> r.elementId.value == p.id
    ensures r.heading == p.title && r.body == p.description
    ensures r.peopleLine == Persons(p.people) + " assigned"
  {
    var elementId := if p.id != "" then Some(p.id) else None;
    RenderedItem(elementId, p.title, Persons(p.people) + " assigned", p.description)
  }

  /** `renderProjects`: one item per assigned project, in order. */
  function RenderItems(ps: seq<Project>): (rs: seq<RenderedItem>)
    ensures |rs| == |ps|
    ensures forall k :: 0 <= k < |ps| ==> rs[k] == RenderItem(ps[k])
  {
    seq(|ps|, k requires 0 <= k < |ps| => RenderItem(ps[k]))
  }

  // ---------------------------------------------------------------------
  // Drag payloads

  /** The part of a drag event's `dataTransfer` the handlers use: the list
      of payload types, the plain-text payload and the allowed effect. */
  datatype DataTransfer = DataTransfer(types: seq<string>, payload: string, effectAllowed: string)

  /** `dragStartHandler`: the item offers its project's id as plain text,
      to be moved. */
  function DragStart(p: Project): (dt: DataTransfer)
    ensures dt.types == ["text/plain"] && dt.payload == p.id && dt.effectAllowed == "move"
  {
    DataTransfer(["text/plain"], p.id, "move")
  }

  /** `getData('text/plain')`: the payload, or "" when no plain text was set. */
  function PlainText(dt: DataTransfer): (s: string)
    ensures "text/plain" in dt.types ==> s == dt.payload
    ensures "text/plain" !in dt.types ==> s == ""
  {
    if "text/plain" in dt.types then dt.payload else ""
  }

  /** The `dragOverHandler` test: a transfer exists and its first type is
      plain text. */
  predicate AcceptsDrag(dt: Option<DataTransfer>)
    ensures AcceptsDrag(dt) ==> dt.Some? && "text/plain" in dt.value.types
    ensures AcceptsDrag(dt) ==> PlainText(dt.value) == dt.value.payload
  {
    dt.Some? && |dt.value.types| > 0 && dt.value.types[0] == "text/plain"
  }

  /** A drag started on any project item is accepted by either list, and a
      drop delivers exactly that project's id. */
  lemma DragStartIsAccepted(p: Project)
    ensures AcceptsDrag(Some(DragStart(p)))
    ensures PlainText(DragStart(p)) == p.id
  {
  }

  /** A transfer without data, or whose first type is not plain text, is
      not accepted. */
  lemma ForeignDragIsRejected(dt: Option<DataTransfer>)
    requires dt.None? || dt.value.types == [] || dt.value.types[0] != "text/plain"
    ensures !AcceptsDrag(dt)
  {
  }

  // ---------------------------------------------------------------------
  // The store

  /** One call of a listener: which listener, and the copy it received. */
  datatype Delivery = Delivery(listener: ProjectList, snapshot: seq<Project>)

  /** One notification round: every listener in registration order, each
      receiving the same snapshot. */
  function Round(ls: seq<ProjectList>, snapshot: seq<Project>): (r: seq<Delivery>)
    ensures |r| == |ls|
    ensures forall k :: 0 <= k < |ls| ==> r[k] == Delivery(ls[k], snapshot)
  {
    seq(|ls|, k requires 0 <= k < |ls| => Delivery(ls[k], snapshot))
  }

  /** A list that has processed `snapshot`: it holds the projects of its
      status, in snapshot order, and shows one item for each. */
  ghost predicate Shows(l: ProjectList, snapshot: seq<Project>)
    reads l
  {
    && l.assignedProjects == Select(snapshot, TargetStatus(l.kind))
    && l.items == RenderItems(l.assignedProjects)
  }

  /** `ProjectState`: the ordered projects and the ordered listeners. The
      ghost `delivered` records every listener call, in order. */
  class ProjectState {
    var projects: seq<Project>
    var listeners: seq<ProjectList>
    ghost var delivered: seq<Delivery>

    constructor ()
      ensures projects == [] && listeners == [] && delivered == []
    {
      projects := [];
      listeners := [];
      delivered := [];
    }

    ghost function ListenerSet(): set<ProjectList>
      reads this
    {
      set l | l in listeners
    }

    /** `addListener`: registration appends; nothing is called yet. */
    method AddListener(l: ProjectList)
      modifies this`listeners
      ensures listeners == old(listeners) + [l]
    {
      listeners := listeners + [l];
    }

    /** `updateListeners`: every listener, in registration order, receives a
        copy of the current projects. */
    method UpdateListeners()
      modifies this`delivered, ListenerSet()
      ensures delivered == old(delivered) + Round(listeners, projects)
      ensures forall l :: l in listeners ==> Shows(l, projects)
      ensures forall l :: l in listeners ==> l.droppable == old(l.droppable)
    {
      var i := 0;
      while i < |listeners|
        invariant 0 <= i <= |listeners|
        invariant delivered == old(delivered) + Round(listeners[..i], projects)
        invariant forall j :: 0 <= j < i ==> Shows(listeners[j], projects)
        invariant forall l :: l in listeners ==> l.droppable == old(l.droppable)
      {
        listeners[i].Receive(projects);
        delivered := delivered + [Delivery(listeners[i], projects)];
        assert Round(listeners[..i + 1], projects) == Round(listeners[..i], projects) + [Delivery(listeners[i], projects)];
        i := i + 1;
      }
      assert listeners[..i] == listeners;
      forall l | l in listeners ensures Shows(l, projects) {
        var j :| 0 <= j < |listeners| && listeners[j] == l;
      }
    }

    /** `addProject`: append one Active project with the given fields and
        notify. The id is supplied by the caller; the source draws it from
        `Math.random()`. */
    method AddProject(id: string, title: string, description: string, people: Num)
      modifies this`projects, this`delivered, ListenerSet()
      ensures projects == old(projects) + [Project(id, title, description, people, Active)]
      ensures delivered == old(delivered) + Round(listeners, projects)
      ensures forall l :: l in listeners ==> Shows(l, projects)
      ensures forall l :: l in listeners ==> l.droppable == old(l.droppable)
    {
      projects := projects + [Project(id, title, description, people, Active)];
      UpdateListeners();
    }

    /** `moveProject`: change the status of the first project with this id
        and notify, unless there is no such project or it already has that
        status, in which case nothing happens at all. */
    method MoveProject(id: string, newStatus: ProjectStatus)
      modifies this`projects, this`delivered, ListenerSet()
      ensures projects == Move(old(projects), id, newStatus)
      ensures MoveApplies(old(projects), id, newStatus) ==>
        && delivered == old(delivered) + Round(listeners, projects)
        && (forall l :: l in listeners ==> Shows(l, projects))
        && (forall l :: l in listeners ==> l.droppable == old(l.droppable))
      ensures !MoveApplies(old(projects), id, newStatus) ==>
        delivered == old(delivered) && unchanged(ListenerSet())
    {
      var found := FindIndex(projects, id);
      if found.Some? && projects[found.value].status != newStatus {
        var i := found.value;
        projects := projects[i := projects[i].(status := newStatus)];
        UpdateListeners();
      }
    }
  }

  // ---------------------------------------------------------------------
  // The lists

  /** `ProjectList`: shows the projects of one status and accepts drops. */
  class ProjectList {
    const kind: ListType
    var assignedProjects: seq<Project>
    /** The items currently rendered into the list's `ul`. */
    var items: seq<RenderedItem>
    /** Whether the `ul` carries the `droppable` class. */
    var droppable: bool

    /** Constructing a list subscribes it to the store (`configure`). */
    constructor (kind: ListType, store: ProjectState)
      modifies store`listeners
      ensures this.kind == kind && assignedProjects == [] && items == [] && !droppable
      ensures store.listeners == old(store.listeners) + [this]
    {
      this.kind := kind;
      assignedProjects := [];
      items := [];
      droppable := false;
      new;
      store.AddListener(this);
    }

    /** The listener registered in `configure`: keep the projects of this
        list's status and redraw one item per project. */
    method Receive(snapshot: seq<Project>)
      modifies this`assignedProjects, this`items
      ensures Shows(this, snapshot)
    {
      assignedProjects := Select(snapshot, TargetStatus(kind));
      items := RenderItems(assignedProjects);
    }

    /** `dragOverHandler`: accept a plain-text drag (the default is
        suppressed) and show the droppable affordance; any other drag leaves
        the affordance as it was. */
    method DragOver(dt: Option<DataTransfer>) returns (accepted: bool)
      modifies this`droppable
      ensures accepted == AcceptsDrag(dt)
      ensures droppable == (accepted || old(droppable))
    {
      accepted := dt.Some? && |dt.value.types| > 0 && dt.value.types[0] == "text/plain";
      if accepted {
        droppable := true;
      }
    }

    /** `dragLeaveHandler`: remove the affordance. */
    method DragLeave()
      modifies this`droppable
      ensures !droppable
    {
      droppable := false;
    }

    /** `dropHandler`: move the project whose id the drag carries to this
        list's status. The affordance is not touched. */
    method Drop(dt: DataTransfer, store: ProjectState)
      modifies store`projects, store`delivered, store.ListenerSet()
      ensures store.projects == Move(old(store.projects), PlainText(dt), TargetStatus(kind))
      ensures MoveApplies(old(store.projects), PlainText(dt), TargetStatus(kind)) ==>
        && store.delivered == old(store.delivered) + Round(store.listeners, store.projects)
        && forall l :: l in store.listeners ==> Shows(l, store.projects)
      ensures !MoveApplies(old(store.projects), PlainText(dt), TargetStatus(kind)) ==>
        store.delivered == old(store.delivered) && unchanged(old(store.ListenerSet()))
      ensures forall l :: l in store.listeners ==> l.droppable == old(l.droppable)
      ensures droppable == old(droppable)
    {
      store.MoveProject(PlainText(dt), TargetStatus(kind));
    }
  }

  // ---------------------------------------------------------------------
  // The input form

  /** The tuple `gatherUserInput` returns. */
  datatype Entered = Entered(title: string, description: string, people: Num)

  /** `ProjectInput`: the values of its three input fields. */
  class ProjectInput {
    var title: string
    var description: string
    var people: string

    /** The form's fields, holding whatever the page's template put in them. */
    constructor (title: string, description: string, people: string)
      ensures this.title == title && this.description == description && this.people == people
    {
      this.title, this.description, this.people := title, description, people;
    }

    /** `gatherUserInput`: the raw (untrimmed) values, the people field
        coerced by `toNumber` (the unary `+`), when no trimmed field is
        empty. */
    function GatherUserInput(toNumber: string -> Num): (r: Option<Entered>)
      reads this
      ensures r.Some? <==> !Blank(title) && !Blank(description) && !Blank(people)
      ensures r.Some? ==> r.value == Entered(title, description, toNumber(people))
    {
      TrimEmptyIffBlank(title);
      TrimEmptyIffBlank(description);
      TrimEmptyIffBlank(people);
      if |Trim(title)| == 0 || |Trim(description)| == 0 || |Trim(people)| == 0 then None
      else Some(Entered(title, description, toNumber(people)))
    }

    /** `clearInputs`. */
    method ClearInputs()
      modifies this
      ensures title == "" && description == "" && people == ""
    {
      title, description, people := "", "", "";
    }

    /** `submitHandler`: on valid input create the project and then clear
        the fields; on invalid input change nothing. */
    method SubmitHandler(store: ProjectState, toNumber: string -> Num, newId: string)
      modifies this, store`projects, store`delivered, store.ListenerSet()
      ensures old(GatherUserInput(toNumber)).Some? ==>
        var e := old(GatherUserInput(toNumber)).value;
        && store.projects == old(store.projects) + [Project(newId, e.title, e.description, e.people, Active)]
        && store.delivered == old(store.delivered) + Round(store.listeners, store.projects)
        && (forall l :: l in store.listeners ==> Shows(l, store.projects))
        && (forall l :: l in store.listeners ==> l.droppable == old(l.droppable))
        && title == "" && description == "" && people == ""
      ensures old(GatherUserInput(toNumber)).None? ==>
        && unchanged(this) && unchanged(store) && unchanged(old(store.ListenerSet()))
    {
      var userInput := GatherUserInput(toNumber);
      if userInput.Some? {
        var e := userInput.value;
        store.AddProject(newId, e.title, e.description, e.people);
        ClearInputs();
      }
    }
  }
}
