/** The project records of the board and the pure operations the store and
    the lists apply to a sequence of them: `find` by id, the status change
    of a move, and the status filter each list applies to a snapshot. */
module Projects {

  datatype Option<T> = None | Some(value: T)

  datatype ProjectStatus = Active | Finished

  /** A JavaScript number as this model sees it: an integer value, or the
      not-a-number value that coercing a non-numeric string yields. */
  datatype Num = Int(value: int) | NaN

  datatype Project = Project(
    id: string,
    title: string,
    description: string,
    people: Num,
    status: ProjectStatus)

  /** `projects.find(prj => prj.id === id)`, as the index of the project found. */
  function FindIndex(ps: seq<Project>, id: string): (r: Option<nat>)
    ensures r.Some? ==> r.value < |ps| && ps[r.value].id == id
    ensures r.Some? ==> forall j :: 0 <= j < r.value ==> ps[j].id != id
    ensures r.None? <==> forall j :: 0 <= j < |ps| ==> ps[j].id != id
  {
    if ps == [] then None
    else if ps[0].id == id then Some(0)
    else match FindIndex(ps[1..], id)
      case None => None
      case Some(k) => Some(k + 1)
  }

  /** The condition under which a move changes anything and notifies: a
      project with that id exists and its status differs from the new one. */
  predicate MoveApplies(ps: seq<Project>, id: string, newStatus: ProjectStatus)
    ensures MoveApplies(ps, id, newStatus) <==>
      exists i :: 0 <= i < |ps| && ps[i].id == id && ps[i].status != newStatus
        && forall j :: 0 <= j < i ==> ps[j].id != id
  {
    match FindIndex(ps, id)
    case None => false
    case Some(i) => ps[i].status != newStatus
  }

  /** The projects after `moveProject(id, newStatus)`. */
  function Move(ps: seq<Project>, id: string, newStatus: ProjectStatus): (r: seq<Project>)
    ensures |r| == |ps|
    ensures forall j :: 0 <= j < |ps| ==> r[j] == ps[j].(status := r[j].status)
    ensures MoveApplies(ps, id, newStatus) ==> r[FindIndex(ps, id).value].status == newStatus
    ensures forall j :: 0 <= j < |ps| && r[j] != ps[j] ==> FindIndex(ps, id) == Some(j)
  {
    if MoveApplies(ps, id, newStatus) then
      var i := FindIndex(ps, id).value;
      ps[i := ps[i].(status := newStatus)]
    else ps
  }

  /** Two sequences that differ at most in statuses. */
  predicate SameButStatus(ps: seq<Project>, qs: seq<Project>) {
    && |ps| == |qs|
    && forall j :: 0 <= j < |ps| ==> ps[j] == qs[j].(status := ps[j].status)
  }

  lemma {:induction false} FindIndexIgnoresStatus(ps: seq<Project>, qs: seq<Project>, id: string)
    requires SameButStatus(ps, qs)
    ensures FindIndex(ps, id) == FindIndex(qs, id)
  {
    if ps != [] {
      assert ps[0].id == qs[0].id;
      assert SameButStatus(ps[1..], qs[1..]) by {
        forall j | 0 <= j < |ps| - 1 ensures ps[1..][j] == qs[1..][j].(status := ps[1..][j].status) {
          assert ps[1..][j] == ps[j + 1];
        }
      }
      FindIndexIgnoresStatus(ps[1..], qs[1..], id);
    }
  }

  /** An id that matches no project: nothing changes and no listener is called. */
  lemma MoveMissIsNoop(ps: seq<Project>, id: string, newStatus: ProjectStatus)
    requires forall j :: 0 <= j < |ps| ==> ps[j].id != id
    ensures !MoveApplies(ps, id, newStatus)
    ensures Move(ps, id, newStatus) == ps
  {
  }

  /** Moving the project `find` returns to the status it already has changes
      nothing and notifies nobody. */
  lemma MoveToSameStatusIsNoop(ps: seq<Project>, id: string, i: nat)
    requires i < |ps| && ps[i].id == id
    requires forall j :: 0 <= j < i ==> ps[j].id != id
    ensures !MoveApplies(ps, id, ps[i].status)
    ensures Move(ps, id, ps[i].status) == ps
  {
    assert FindIndex(ps, id) == Some(i);
  }

  /** A move that applies changes only the status of the first project with
      that id: the length, the order and every other field stay. */
  lemma MoveChangesOnlyFirstMatch(ps: seq<Project>, id: string, newStatus: ProjectStatus)
    requires MoveApplies(ps, id, newStatus)
    ensures var i := FindIndex(ps, id).value;
      && |Move(ps, id, newStatus)| == |ps|
      && Move(ps, id, newStatus)[i] == ps[i].(status := newStatus)
      && ps[i].status != newStatus
      && (forall j :: 0 <= j < |ps| && j != i ==> Move(ps, id, newStatus)[j] == ps[j])
      && (forall j :: 0 <= j < i ==> ps[j].id != id)
  {
  }

  /** A move on a one-project snapshot, by that project's id. */
  lemma MoveSingle(p: Project, newStatus: ProjectStatus)
    ensures MoveApplies([p], p.id, newStatus) <==> p.status != newStatus
    ensures Move([p], p.id, newStatus) == [p.(status := newStatus)]
  {
    assert FindIndex([p], p.id) == Some(0);
  }

  /** Every move keeps ids, titles, descriptions, people and order. */
  lemma MoveKeepsAllButStatus(ps: seq<Project>, id: string, newStatus: ProjectStatus)
    ensures SameButStatus(Move(ps, id, newStatus), ps)
  {
  }

  /** A move changes the projects exactly when it notifies. */
  lemma MoveAppliesIffChanged(ps: seq<Project>, id: string, newStatus: ProjectStatus)
    ensures MoveApplies(ps, id, newStatus) <==> Move(ps, id, newStatus) != ps
  {
    if MoveApplies(ps, id, newStatus) {
      var i := FindIndex(ps, id).value;
      assert Move(ps, id, newStatus)[i].status != ps[i].status;
    }
  }

  /** Repeating a move is idempotent: the second one neither changes nor notifies. */
  lemma MoveIdempotent(ps: seq<Project>, id: string, newStatus: ProjectStatus)
    ensures !MoveApplies(Move(ps, id, newStatus), id, newStatus)
    ensures Move(Move(ps, id, newStatus), id, newStatus) == Move(ps, id, newStatus)
  {
    var qs := Move(ps, id, newStatus);
    FindIndexIgnoresStatus(qs, ps, id);
  }

  predicate UniqueIds(ps: seq<Project>) {
    forall j, k :: 0 <= j < k < |ps| ==> ps[j].id != ps[k].id
  }

  /** With unique ids, moving any project to its own status is a no-op. */
  lemma MoveToOwnStatusIsNoop(ps: seq<Project>, k: nat)
    requires UniqueIds(ps) && k < |ps|
    ensures !MoveApplies(ps, ps[k].id, ps[k].status)
    ensures Move(ps, ps[k].id, ps[k].status) == ps
  {
    MoveToSameStatusIsNoop(ps, ps[k].id, k);
  }

  /** Ids are not checked for uniqueness, and with a duplicate id `find` hits
      the first project: moving the second one to its own status still
      changes the first. */
  lemma DuplicateIdMoveChangesFirst()
    ensures var a := Project("x", "A", "", Int(1), Active);
      var b := Project("x", "B", "", Int(1), Finished);
      && MoveApplies([a, b], b.id, b.status)
      && Move([a, b], b.id, b.status) == [a.(status := Finished), b]
  {
    var a := Project("x", "A", "", Int(1), Active);
    var b := Project("x", "B", "", Int(1), Finished);
    assert FindIndex([a, b], "x") == Some(0);
  }

  /** The indices of the projects with status `st`, in increasing order. */
  function Positions(ps: seq<Project>, st: ProjectStatus): (r: seq<nat>)
    ensures forall k :: 0 <= k < |r| ==> r[k] < |ps| && ps[r[k]].status == st
    ensures forall k, m :: 0 <= k < m < |r| ==> r[k] < r[m]
    ensures forall i :: 0 <= i < |ps| && ps[i].status == st ==> i in r
  {
    if ps == [] then []
    else
      var n := |ps| - 1;
      Positions(ps[..n], st) + (if ps[n].status == st then [n] else [])
  }

  /** `projects.filter(prj => prj.status === st)`. */
  function Select(ps: seq<Project>, st: ProjectStatus): (r: seq<Project>)
    ensures |r| <= |ps|
    ensures forall k :: 0 <= k < |r| ==> r[k].status == st
  {
    if ps == [] then []
    else
      var n := |ps| - 1;
      Select(ps[..n], st) + (if ps[n].status == st then [ps[n]] else [])
  }

  /** The filter keeps snapshot order: its k-th project is the snapshot's
      project at the k-th position of that status. */
  lemma {:induction false} SelectAt(ps: seq<Project>, st: ProjectStatus)
    ensures |Select(ps, st)| == |Positions(ps, st)|
    ensures forall k :: 0 <= k < |Select(ps, st)| ==> Select(ps, st)[k] == ps[Positions(ps, st)[k]]
  {
    if ps != [] {
      var n := |ps| - 1;
      SelectAt(ps[..n], st);
      var tail := if ps[n].status == st then [ps[n]] else [];
      assert Select(ps, st) == Select(ps[..n], st) + tail;
      assert Positions(ps, st) == Positions(ps[..n], st) + (if ps[n].status == st then [n] else []);
    }
  }

  /** Appending a project extends exactly the list of its own status. */
  lemma SelectAppend(ps: seq<Project>, p: Project, st: ProjectStatus)
    ensures Select(ps + [p], st) == Select(ps, st) + (if p.status == st then [p] else [])
  {
    assert (ps + [p])[..|ps|] == ps;
  }

  /** An index is among the positions of `st` exactly when its project has
      status `st`. */
  lemma PositionsExact(ps: seq<Project>, st: ProjectStatus, i: int)
    ensures i in Positions(ps, st) <==> 0 <= i < |ps| && ps[i].status == st
  {
    var r := Positions(ps, st);
    if i in r {
      var k :| 0 <= k < |r| && r[k] == i;
    }
  }

  /** The active and the finished filter partition every snapshot: each
      index lands in exactly one of the two lists ... */
  lemma SelectPartitionsIndices(ps: seq<Project>)
    ensures forall i :: 0 <= i < |ps| ==> (i in Positions(ps, Active) <==> i !in Positions(ps, Finished))
  {
    forall i | 0 <= i < |ps| ensures i in Positions(ps, Active) <==> i !in Positions(ps, Finished) {
      PositionsExact(ps, Active, i);
      PositionsExact(ps, Finished, i);
    }
  }

  /** ... and together the two lists hold every project exactly as often as
      the snapshot does. */
  lemma {:induction false} SelectPartitions(ps: seq<Project>)
    ensures multiset(Select(ps, Active)) + multiset(Select(ps, Finished)) == multiset(ps)
  {
    if ps != [] {
      var init, last := ps[..|ps| - 1], ps[|ps| - 1];
      assert ps == init + [last];
      SelectPartitions(init);
      SelectAppend(init, last, Active);
      SelectAppend(init, last, Finished);
      var a, f := Select(init, Active), Select(init, Finished);
      var ea := if last.status == Active then [last] else [];
      var ef := if last.status == Finished then [last] else [];
      assert multiset(ea) + multiset(ef) == multiset{last};
      calc {
        multiset(Select(ps, Active)) + multiset(Select(ps, Finished));
        multiset(a + ea) + multiset(f + ef);
        (multiset(a) + multiset(f)) + (multiset(ea) + multiset(ef));
        multiset(init) + multiset{last};
        multiset(init + [last]);
      }
    }
  }

  /** Consequently the two lists together are as long as the snapshot. */
  lemma SelectLengthsAddUp(ps: seq<Project>)
    ensures |Select(ps, Active)| + |Select(ps, Finished)| == |ps|
  {
    SelectPartitions(ps);
    assert |multiset(ps)| == |ps|;
    assert |multiset(Select(ps, Active))| == |Select(ps, Active)|;
    assert |multiset(Select(ps, Finished))| == |Select(ps, Finished)|;
  }
}
