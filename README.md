# JPaint edit-state engine in Dafny

This project models the edit-state core of the JPaint structured-drawing editor:

- the `ApplicationState` object, which owns three ordered lists of shape items: the top-level
  `shapes` in z-order, the `selected` items and the `clipboard`;
- the reversible `UngroupCommand`, which acts on those lists.

Shape items are the datatype `Item = Leaf(id) | Group(children)`. The source tests for a group
with the exact class check `getClass().equals(ShapeGroup.class)`; the model uses the `Group?`
discriminator instead.

Files:

- `shape_items.dfy` (module `ShapeItems`): the item datatype and `Flatten1`, the one-level
  ungrouping of a list. It also holds `RemoveFirst`, which is Java's `ArrayList.remove(Object)`,
  and the lemmas about both functions.
- `application_state.dfy` (module `Persistence`): the class `ApplicationState` with mutable fields.
  Canvas repainting is counted in a ghost field, `redraws`, so each contract says how many repaints
  a call performs.
- `ungroup_command.dfy` (module `Commands`): the construction loop (`Ungroup`, proved against
  `Flatten1`), the class `UngroupCommand` with `Run`/`Undo`/`Redo`, and three client methods that
  state the run/undo/redo behaviour.

Lists are value sequences. In the source, the getters return the live `ArrayList`, and the command
keeps references to the state's lists rather than copies. The snapshot properties therefore assume
that nothing edits those lists in place (through `addShape`/`removeShape`) between construction,
run and undo.

One might expect ungrouping to select only the children spliced in from groups. The code adds
every item it appends to the new shapes to the new selection, non-group items included
(UngroupCommand.java:36-37, 42-43). The model follows the code: the new selection always equals
the new shapes.

The tool-setting enums `ShapeType`, `ShapeColor` and `MouseMode` are not part of this model. Their
values named in `ApplicationState.java` are constructors of their own; the other values are stood
for by one tagged constructor per enum, so stating a default rules the other values out.

## Model

| member | source | states |
|---|---|---|
| Persistence.ApplicationState.constructor | src/model/persistence/ApplicationState.java:38-48 | a new state has empty shapes, selection and clipboard, no repaints yet, and the default tool settings (rectangle, blue, green, filled-in, draw mode) |
| Persistence.ApplicationState.SetDefaults | src/model/persistence/ApplicationState.java:225-231 | installs exactly the five default tool settings and changes nothing else |
| Persistence.ApplicationState.DrawShapes | src/model/persistence/ApplicationState.java:212-223 | each repaint raises the repaint count by one; the drawing itself is not modelled |
| Persistence.ApplicationState.GetShapes | src/model/persistence/ApplicationState.java:143-145 | returns the current shapes; it modifies nothing, so the repaint count is unchanged |
| Persistence.ApplicationState.GetSelected | src/model/persistence/ApplicationState.java:134-136 | returns the current selection with no side effect |
| Persistence.ApplicationState.GetClipboard | src/model/persistence/ApplicationState.java:152-154 | returns the current clipboard with no side effect |
| Persistence.ApplicationState.SetSelected | src/model/persistence/ApplicationState.java:138-141 | the selection becomes the given list; shapes and clipboard are unchanged; exactly one repaint |
| Persistence.ApplicationState.SetShapes | src/model/persistence/ApplicationState.java:147-150 | the shapes become the given list; selection and clipboard are unchanged; exactly one repaint |
| Persistence.ApplicationState.AddShape | src/model/persistence/ApplicationState.java:156-160 | the shape is appended on top of the z-order (new list is old list plus the shape); nothing else changes; exactly one repaint |
| Persistence.ApplicationState.RemoveShape | src/model/persistence/ApplicationState.java:162-165 | an absent shape leaves the list unchanged; otherwise only its first occurrence is deleted; as a bag, one copy is removed; a repaint happens in both cases |
| Persistence.ApplicationState.SetClipboard | src/model/persistence/ApplicationState.java:167-169 | the clipboard becomes the given list; shapes and selection are unchanged; no repaint |
| Persistence.ApplicationState.RunCommand | src/model/persistence/ApplicationState.java:56 | the opaque command's effect is installed whether it completed or threw an IOException, which is caught and only reported |
| Persistence.ApplicationState.Copy | src/model/persistence/ApplicationState.java:54-58 | after the copy command, with or without an IOException, exactly one further repaint |
| Persistence.ApplicationState.Paste | src/model/persistence/ApplicationState.java:60-64 | after the paste command, with or without an IOException, exactly one further repaint |
| Persistence.ApplicationState.Delete | src/model/persistence/ApplicationState.java:66-70 | after the delete command, with or without an IOException, exactly one further repaint |
| ShapeItems.Flatten1Append | src/model/Commands/UngroupCommand.java:32-45 | ungrouping works item by item: ungrouping a concatenation is the concatenation of the ungrouped parts |
| ShapeItems.Flatten1Step | src/model/Commands/UngroupCommand.java:32-45 | one more loop iteration appends exactly the current item's expansion (a group's children, or the item) |
| ShapeItems.Flatten1Splice | src/model/Commands/UngroupCommand.java:33-44 | order is preserved, and each item's expansion sits in the result where the item stood |
| ShapeItems.Flatten1Length | src/model/Commands/UngroupCommand.java:32-45 | length of the result is the number of non-group items plus the direct-child counts of all groups |
| ShapeItems.EmptyGroupVanishes | src/model/Commands/UngroupCommand.java:34-38 | an empty top-level group leaves nothing behind, wherever it stood |
| ShapeItems.Flatten1NoGroups | src/model/Commands/UngroupCommand.java:41-43 | with no top-level group, the result equals the input |
| ShapeItems.Flatten1Members | src/model/Commands/UngroupCommand.java:32-45 | an item is in the result if and only if it is a top-level non-group item or a direct child of a top-level group |
| ShapeItems.NestedGroupKept | src/model/Commands/UngroupCommand.java:34-36 | only one level is removed: a group inside a top-level group is an item of the result, unchanged, at its splice position |
| ShapeItems.UngroupExample | src/model/Commands/UngroupCommand.java:32-45 | [A, Group[B, C], D] ungroups to [A, B, C, D] |
| ShapeItems.FirstIndex | src/model/persistence/ApplicationState.java:163 | the index that the list removal finds holds the item, and no earlier index does |
| ShapeItems.RemoveFirstAbsent | src/model/persistence/ApplicationState.java:163 | removing an item that is not in the list leaves the list unchanged |
| ShapeItems.RemoveFirstPresent | src/model/persistence/ApplicationState.java:163 | removing a present item deletes its first occurrence and keeps everything else in order |
| ShapeItems.RemoveFirstMultiset | src/model/persistence/ApplicationState.java:163 | as a bag, removal takes away exactly one copy of the item, or none if it is absent |
| Commands.Ungroup | src/model/Commands/UngroupCommand.java:27-45 | the loop's new shapes are the one-level flattening of the old shapes, and the new selection equals the new shapes element for element |
| Commands.UngroupCommand.constructor | src/model/Commands/UngroupCommand.java:22-46 | snapshots the state's shapes and selection, computes the flattened lists with all of them selected, and leaves the state unchanged |
| Commands.UngroupCommand.Run | src/model/Commands/UngroupCommand.java:48-53 | installs the new shapes and selection (clipboard untouched, two repaints); afterwards every selected item is a top-level shape |
| Commands.UngroupCommand.Undo | src/model/Commands/UngroupCommand.java:55-60 | reinstalls the snapshot shapes and selection; clipboard untouched; two repaints |
| Commands.UngroupCommand.Redo | src/model/Commands/UngroupCommand.java:62-65 | has exactly the effect of Run |
| Commands.UngroupThenUndo | src/model/Commands/UngroupCommand.java:49-60 | constructing, running and undoing restores the constructed-from shapes, selection and clipboard |
| Commands.UngroupUndoRedoRedo | src/model/Commands/UngroupCommand.java:49-65 | redo after undo re-applies the ungrouped lists, and a second redo gives the same lists as one |
| Commands.UngroupWithoutGroups | src/model/Commands/UngroupCommand.java:41-43 | ungrouping a state with no top-level group keeps the shapes and selects all of them |

## Left out

- Drawing (`drawShapes`, `drawShapeItem`, the draw strategies, `Graphics2D`, the canvas): graphics side effects. Only the number of repaints is modelled.
- Persistence.ApplicationState.DrawShapes: the model's repaint always returns. In the source, `drawShapes` draws every top-level item (ApplicationState.java:220-221), and for a `ShapeGroup` `drawShapeItem` calls itself with the same argument (203-204), so as written it ends in a StackOverflowError whenever `shapes` holds a top-level group. Then `SetShapes`, `SetSelected`, `AddShape`, `RemoveShape` throw right after their assignment, and `Copy`/`Paste`/`Delete` throw after the command (their catch handles only IOException). `UngroupCommand.Run` throws after `setShapes` when a nested group is left at top level, so the new selection is not installed; `UngroupCommand.Undo` throws after `setShapes(oldShapes)` whenever the ungroup removed a group, so the old selection is not reinstalled, and `UngroupThenUndo`'s restored selection does not hold for the source as written. The model states the behaviour the code evidently intends: one completed repaint per mutation.
- `setActiveShape`, `setActivePrimaryColor`, `setActiveSecondaryColor`, `setActiveShadingType`, `setActiveStartAndEndPointMode`: each sets a field from a user dialog, which is UI input outside this model. The matching `getActive*` getters (lines 109-132) are left out with them; the model keeps only the fields and their defaults.
- `UNDO`/`REDO` and the classes `UndoCommand`, `RedoCommand`, `CopyCommand`, `PasteCommand`, `DeleteCommand`: their code is not part of this model. So there is no history stack, and copy/paste/delete run an opaque command, given as a `CommandEffect` parameter: the lists it leaves, the repaints it made and whether it threw.
- `setStateHandler`, `stateHandler.notifyObservers` and all `System.out.println` logging: an external observer and console output.
- Java reference aliasing of the `ArrayList`s: lists are values. The getters hand out, and the command keeps, references to the live lists, so an in-place `addShape`/`removeShape` between an ungroup's construction and its undo would also change its snapshot. Likewise, after `run` the state's `shapes` and `selected` are the command's own new lists (UngroupCommand.java:50-51), so an `addShape`/`removeShape` after `Run` also changes what a later `Redo` reinstalls. The model captures neither case.
- Item equality: `ArrayList.remove(Object)` compares with `equals`, and the shape classes' `equals` is not part of this model. The model uses value equality of items, with a leaf's `id` standing for its identity.
