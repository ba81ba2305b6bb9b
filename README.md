# Project board and click counter, modelled in Dafny

This project models two small browser programs.

**The project board** (`1/src/app.ts`) keeps projects in one store. Each project has an id, a title, a description, a people count and a status, Active or Finished. The store keeps its projects in insertion order. Listeners subscribe to it and are called in registration order. Each call receives a copy of the projects.

- `addProject` appends a new Active project and notifies every listener.
- `moveProject` looks up the first project with the given id. It changes that project's status and notifies, but only when the project exists and its status differs from the new one.
- Two lists, "active" and "finished", subscribe to the store. On each notification a list keeps the projects of its own status, in snapshot order, and redraws one item per project.
- Each list is also a drop target. A drag whose first payload type is `text/plain` is accepted and marks the list droppable. Leaving the list clears that mark. A drop moves the dragged project to the list's status.
- An item renders its project's title, its description and a people phrase: "1 person", otherwise "n persons". Dragging an item offers its project's id as plain text.
- The input form accepts a submission only when none of its three fields is empty after trimming whitespace. It then creates the project from the untrimmed values and clears the fields. On invalid input it changes nothing.

**The click counter** (`2/app.js`) keeps an integer `count`.

- A click on a button with class "decrease" decrements it.
- Otherwise a button with class "increase" increments it.
- Any other button resets it to 0.
- After each click the display turns green above zero, `#222` at zero and red below zero. Its text becomes the count.

Files:

- `text.dfy` (module `Text`): ECMAScript whitespace and `trim`, ASCII upper-casing, and the decimal form of an integer together with its parser.
- `projects.dfy` (module `Projects`): the project record, and the pure functions the store and the lists apply to a sequence of projects: `find` by id, the move, and the status filter. It also holds the lemmas about them.
- `board.dfy` (module `Board`): the classes `ProjectState`, `ProjectList` and `ProjectInput`, item rendering and drag payloads.
- `scenario.dfy` (module `BoardScenario`): the two lists wired to one store, taken through create, drag, drop and a repeated drop, one step method per user action.
- `counter.dfy` (module `ClickCounter`): the counter class and its colour function.

The store is a class. Its fields are `projects: seq<Project>` and `listeners: seq<ProjectList>`, plus a ghost log `delivered` that records each listener call: which listener was called, and the snapshot it received. Every method that changes state states the whole new state. The properties of the pure functions are proved as lemmas.

## Model

| member | source | states |
|---|---|---|
| Text.Trim | 1/src/app.ts:331-333 | `trim` never lengthens a string, and a non-empty result neither starts nor ends with ECMAScript whitespace |
| Text.TrimEmptyIffBlank | 1/src/app.ts:330-334 | `trim().length === 0` holds exactly when every character is ECMAScript whitespace |
| Text.TrimIsInnerSlice | 1/src/app.ts:331-333 | trim returns a contiguous slice of its input; only whitespace is cut on either side; the result neither starts nor ends with whitespace |
| Text.Upper | 1/src/app.ts:257 | upper-casing keeps the length and maps each character by itself, ASCII letters to capitals |
| Text.IntToString | 1/src/app.ts:160 | the decimal text of an integer is non-empty and starts with a minus sign or a digit |
| Text.IntToStringRoundTrip | 2/app.js:29 | the decimal text written for an integer parses back to that integer |
| Text.IntToStringInjective | 1/src/app.ts:160 | different integers are written as different strings |
| Projects.FindIndex | 1/src/app.ts:75 | `find` by id returns the first index whose id matches; it returns nothing exactly when no project has that id |
| Projects.MoveApplies | 1/src/app.ts:75-76 | a move applies exactly when the first project with the id exists and has a status other than the new one |
| Projects.Move | 1/src/app.ts:74-80 | a move keeps the length and every field except statuses; when it applies, the first project with the id gets the new status; no other project changes |
| Projects.MoveMissIsNoop | 1/src/app.ts:74-80 | with an id that matches no project, the move neither changes the projects nor notifies |
| Projects.MoveToSameStatusIsNoop | 1/src/app.ts:75-79 | moving the project that `find` returns to the status it already has changes nothing and notifies nobody |
| Projects.MoveChangesOnlyFirstMatch | 1/src/app.ts:75-78 | a move that applies changes only the status of the first project with that id; length, order and every other project stay the same |
| Projects.MoveKeepsAllButStatus | 1/src/app.ts:74-80 | every move keeps the length, the order, and each project's id, title, description and people |
| Projects.MoveAppliesIffChanged | 1/src/app.ts:76-79 | a move notifies exactly when it changes the projects |
| Projects.MoveIdempotent | 1/src/app.ts:74-80 | repeating a move changes nothing further and does not notify |
| Projects.MoveToOwnStatusIsNoop | 1/src/app.ts:74-80 | when ids are unique, moving any project to its own status is a no-op |
| Projects.DuplicateIdMoveChangesFirst | 1/src/app.ts:64-77 | ids are not checked for uniqueness; with a duplicate id, moving the second project to its own status still changes the first |
| Projects.Positions | 1/src/app.ts:238-243 | the positions of a status are in range, strictly increasing, and include every index of a project with that status |
| Projects.PositionsExact | 1/src/app.ts:238-243 | an index is a position of a status exactly when its project has that status |
| Projects.Select | 1/src/app.ts:238-243 | the filter is no longer than the snapshot, and every project it keeps has the filtered status |
| Projects.SelectAt | 1/src/app.ts:238-244 | the filter keeps snapshot order: its k-th project is the snapshot's project at the k-th position of that status |
| Projects.SelectAppend | 1/src/app.ts:237-245 | appending a project extends only the filtered list of its own status, and only at the end |
| Projects.SelectPartitionsIndices | 1/src/app.ts:237-245 | each index of a snapshot is in exactly one of the active and finished lists |
| Projects.SelectPartitions | 1/src/app.ts:237-245 | together the active and finished lists hold every project exactly as often as the snapshot does |
| Projects.SelectLengthsAddUp | 1/src/app.ts:237-245 | the active and finished lists are together as long as the snapshot |
| Board.TargetStatus | 1/src/app.ts:218-224 | the "active" list filters for and drops to Active, the "finished" list Finished |
| Board.ElementId | 1/src/app.ts:201 | a list's root element id is "active-projects" or "finished-projects" |
| Board.ListId | 1/src/app.ts:252-254 | a list's `ul` id is its element id followed by "-list": "active-projects-list" or "finished-projects-list" |
| Board.Heading | 1/src/app.ts:256-257 | the heading is "ACTIVE PROJECTS" or "FINISHED PROJECTS" |
| Board.LabelsDistinguishLists | 1/src/app.ts:201-257 | the two lists have different element ids, list ids and headings |
| Board.NumberText | 1/src/app.ts:160 | a number is written "NaN" exactly when it is not a number |
| Board.NumberTextInjective | 1/src/app.ts:160 | different numbers are written differently |
| Board.Persons | 1/src/app.ts:156-162 | the phrase is "1 person" exactly when people is 1; otherwise it is the number followed by " persons" |
| Board.PersonsInjective | 1/src/app.ts:156-162 | different people counts never give the same phrase |
| Board.RenderItem | 1/src/app.ts:130-191 | an item's element gets the project's id exactly when that id is non-empty (otherwise the template's own id stays); it shows its project's title, its people phrase plus " assigned", and its description |
| Board.RenderItems | 1/src/app.ts:260-269 | `renderProjects` draws one item per assigned project, in order |
| Board.DragStart | 1/src/app.ts:173-176 | an item's drag carries its project id as `text/plain`, with effect "move" |
| Board.PlainText | 1/src/app.ts:219 | `getData('text/plain')` is the payload when plain text was set, otherwise "" |
| Board.DragStartIsAccepted | 1/src/app.ts:173-224 | a drag started on an item is accepted by either list, and a drop reads back exactly that project's id |
| Board.AcceptsDrag | 1/src/app.ts:210 | an accepted drag has a transfer that offers `text/plain`, so what a drop reads from it is its payload |
| Board.ForeignDragIsRejected | 1/src/app.ts:210 | a drag without data, or whose first type is not `text/plain`, is not accepted |
| Board.Round | 1/src/app.ts:82-86 | one notification round calls every listener once, in registration order, each with the same snapshot |
| Board.ProjectState.constructor | 1/src/app.ts:44-51 | a new store has no projects, no listeners and no calls |
| Board.ProjectState.AddListener | 1/src/app.ts:39-41 | registration appends the listener and calls nothing |
| Board.ProjectState.UpdateListeners | 1/src/app.ts:82-86 | each listener is called once, in order, with a copy equal to the current projects; afterwards every listener shows the projects of its status; no droppable mark changes |
| Board.ProjectState.AddProject | 1/src/app.ts:62-72 | the projects gain exactly one project at the end, Active, with the given fields; one notification round follows |
| Board.ProjectState.MoveProject | 1/src/app.ts:74-80 | the projects become the move of the old ones; one notification round follows when the move applies; otherwise no listener is called and no list changes |
| Board.ProjectList.constructor | 1/src/app.ts:200-206 | a new list is empty, not droppable, and registered last among the store's listeners |
| Board.ProjectList.Receive | 1/src/app.ts:237-246 | the list keeps the snapshot's projects of its status and draws one item for each |
| Board.ProjectList.DragOver | 1/src/app.ts:209-215 | returns whether the drag is accepted; an accepted drag sets the droppable mark; any other drag leaves the mark as it was |
| Board.ProjectList.DragLeave | 1/src/app.ts:227-230 | the droppable mark is cleared |
| Board.ProjectList.Drop | 1/src/app.ts:218-224 | moves the project with the dragged id to the list's status, with the store's notification rule; neither this list's droppable mark nor any other list's is touched |
| Board.ProjectInput.constructor | 1/src/app.ts:305-313 | the form starts with the field values the page gives it |
| Board.ProjectInput.GatherUserInput | 1/src/app.ts:325-341 | returns a tuple exactly when no field is blank; the tuple holds the raw title, the raw description and the coerced people value |
| Board.ProjectInput.ClearInputs | 1/src/app.ts:344-348 | all three fields become "" |
| Board.ProjectInput.SubmitHandler | 1/src/app.ts:352-364 | on valid input, exactly one Active project with the entered values is added, one notification round follows, then the fields are cleared, and no list's droppable mark changes; on invalid input the form, the store and every list are unchanged |
| BoardScenario.CreateDragAndDropAgain | 1/src/app.ts:62-86 | a created project is shown in the active list only; a drag onto the finished list is accepted; the drop moves the project there with one notification per list; dropping it again calls no listener |
| ClickCounter.Colour | 2/app.js:21-27 | "green" exactly when count > 0, "#222" exactly when count is 0, "red" exactly when count < 0 |
| ClickCounter.Counter.constructor | 2/app.js:1 | the count starts at 0 |
| ClickCounter.Counter.Click | 2/app.js:12-30 | "decrease" decrements, and takes precedence over "increase"; "increase" alone increments; any other button resets to 0, leaving the colour "#222"; the colour follows the new count's sign; the text is the new count |

## Intended behaviour versus what the code does

The board's intended behaviour differs from its code in a few places. The model follows the code in each case.

- A drag over a list without a plain-text payload is meant to leave the drop affordance unset. In the code, `dragOverHandler` simply does nothing for such a drag, so a mark set earlier stays set (`Board.ProjectList.DragOver`).
- The affordance is meant to be cleared on drop. `dropHandler` does not clear it; only `dragLeaveHandler` does.
- Project ids are meant to be unique. The code draws them from `Math.random()` and never checks them, and `moveProject` acts on the first project with the id. So "moving any project to its own status is a no-op" holds only when ids are unique (`Projects.MoveToOwnStatusIsNoop`, `Projects.DuplicateIdMoveChangesFirst`).
- The people count is meant to be a positive integer. The code only checks that the field is not blank, then coerces it with unary `+`. Non-numeric text becomes NaN, and an item with NaN people shows "NaN persons".

## Left out

- The document itself is not modelled: template lookup, `importNode`, `insertAdjacentElement`, `querySelector`, `textContent` and the `innerHTML = ''` clear. The ids that elements receive are kept as values (`Board.ElementId`, `Board.ListId`, `Board.RenderItem`). These are the `Component` base class and its calls (1/src/app.ts:109-148). Lists and items keep only the values those writes would show.
- Event-listener wiring (`addEventListener`) and the `autobind` decorator are not modelled. Handlers are methods that are called directly.
- `alert`, `console.log` (`dragEndHandler`) and `event.preventDefault` are browser side effects and are not modelled. `DragOver` returns whether it would suppress the default.
- Board.ProjectState.AddProject: the id is a parameter. Drawing it from `Math.random().toString()` is floating-point randomness and is not modelled, so nothing is claimed about uniqueness.
- Board.ProjectInput.GatherUserInput: the unary `+` coercion is a parameter `toNumber`. Numbers are modelled as integers or NaN only. Fractions, infinities and negative zero are not modelled.
- Board.ProjectState.UpdateListeners: the only listener the source ever registers is a list's filter closure, so `listeners` has type `seq<ProjectList>`. The generic `State<T>` listener type is not modelled.
- Projects are values, not shared objects. In the source, `projects.slice()` is a shallow copy, so `moveProject` changes a status inside lists' arrays as well. Every such change is followed at once by a notification that replaces those arrays, so this sharing is not modelled.
- The `getInstance` singleton and the module-level construction of the form and the two lists (1/src/app.ts:53-59, 91, 374-376) are not modelled. The store is an object passed explicitly.
- 1/app.js is not part of this model. It only picks a random colour and writes styles.
- ClickCounter.Counter.Click: `count` is an unbounded integer. JavaScript numbers stop being exact past 2^53, which is not modelled. The DOM lookups and style writes of 2/app.js are kept only as the `colour` and `text` fields.
- Board.NumberText: integers are written in plain decimal. JavaScript writes magnitudes of 10^21 and above in exponent form ("1e+21"), and integers past 2^53 are not exact. Neither is modelled. Board.Persons inherits the same limits.
- Upper-casing is ASCII-only. The only strings the source upper-cases are the two list names.
