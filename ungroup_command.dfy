/** The reversible ungroup command. Construction snapshots the state's shapes
    and selection and computes the ungrouped lists; `Run` installs the new
    lists, `Undo` reinstalls the snapshot, `Redo` is `Run`.

    The snapshot lists are values here. In the source they are references to
    the state's live lists, so the snapshot properties below assume that no
    in-place addShape/removeShape happens between construction, run and undo. */
module Commands {
  import opened ShapeItems
  import opened Persistence

  /** The construction loop: each top-level group is replaced by its direct
      children in their order, every other item is copied, and every item
      appended to the new shapes is appended to the new selection as well. */
  method Ungroup(oldShapes: seq<Item>) returns (shapes: seq<Item>, selected: seq<Item>)
    ensures shapes == Flatten1(oldShapes)
    ensures selected == shapes
  {
    shapes, selected := [], [];
    for i := 0 to |oldShapes|
      invariant shapes == Flatten1(oldShapes[..i])
      invariant selected == shapes
    {
      var shape := oldShapes[i];
      Flatten1Step(oldShapes, i);
      if shape.Group? {
        var group := shape.children;
        for j := 0 to |group|
          invariant shapes == Flatten1(oldShapes[..i]) + group[..j]
          invariant selected == shapes
        {
          shapes := shapes + [group[j]];
          selected := selected + [group[j]];
        }
        assert group[..|group|] == group;
      } else {
        shapes := shapes + [shape];
        selected := selected + [shape];
      }
    }
    assert oldShapes[..|oldShapes|] == oldShapes;
  }

  class UngroupCommand {
    const applicationState: ApplicationState
    const oldShapes: seq<Item>
    const oldSelected: seq<Item>
    const shapes: seq<Item>
    const selected: seq<Item>

    /** The new lists are the one-level flattening of the snapshot, and the
        new selection is exactly the new shapes. */
    ghost predicate Valid()
    {
      shapes == Flatten1(oldShapes) && selected == shapes
    }

    /** Reads the state, changes nothing in it. */
    constructor (applicationState: ApplicationState)
      ensures this.applicationState == applicationState
      ensures oldShapes == applicationState.shapes && oldSelected == applicationState.selected
      ensures shapes == Flatten1(oldShapes) && selected == shapes
      ensures Valid()
      ensures unchanged(applicationState)
    {
      var snapshotSelected := applicationState.GetSelected();
      var snapshotShapes := applicationState.GetShapes();
      var newShapes, newSelected := Ungroup(snapshotShapes);
      this.applicationState := applicationState;
      oldSelected, oldShapes := snapshotSelected, snapshotShapes;
      shapes, selected := newShapes, newSelected;
    }

    method Run()
      requires Valid()
      modifies applicationState`shapes, applicationState`selected, applicationState`redraws
      ensures applicationState.shapes == shapes && applicationState.selected == selected
      ensures applicationState.clipboard == old(applicationState.clipboard)
      ensures applicationState.redraws == old(applicationState.redraws) + 2
      ensures applicationState.SelectionWithinShapes()
    {
      applicationState.SetShapes(shapes);
      applicationState.SetSelected(selected);
    }

    method Undo()
      modifies applicationState`shapes, applicationState`selected, applicationState`redraws
      ensures applicationState.shapes == oldShapes && applicationState.selected == oldSelected
      ensures applicationState.clipboard == old(applicationState.clipboard)
      ensures applicationState.redraws == old(applicationState.redraws) + 2
    {
      applicationState.SetShapes(oldShapes);
      applicationState.SetSelected(oldSelected);
    }

    method Redo()
      requires Valid()
      modifies applicationState`shapes, applicationState`selected, applicationState`redraws
      ensures applicationState.shapes == shapes && applicationState.selected == selected
      ensures applicationState.clipboard == old(applicationState.clipboard)
      ensures applicationState.redraws == old(applicationState.redraws) + 2
      ensures applicationState.SelectionWithinShapes()
    {
      Run();
    }
  }

  /** Ungrouping and then undoing gives back the lists the command was built
      from; only the repaint count moves (two repaints each way). */
  method UngroupThenUndo(app: ApplicationState)
    modifies app`shapes, app`selected, app`redraws
    ensures app.shapes == old(app.shapes) && app.selected == old(app.selected)
    ensures app.clipboard == old(app.clipboard)
    ensures app.redraws == old(app.redraws) + 4
  {
    var command := new UngroupCommand(app);
    command.Run();
    command.Undo();
  }

  /** Redo after undo re-applies the ungrouped lists, and a second redo (or
      run) leaves the same lists: running is idempotent on the state. */
  method UngroupUndoRedoRedo(app: ApplicationState)
    modifies app`shapes, app`selected, app`redraws
    ensures app.shapes == Flatten1(old(app.shapes)) && app.selected == app.shapes
    ensures app.clipboard == old(app.clipboard)
    ensures app.redraws == old(app.redraws) + 8
  {
    var command := new UngroupCommand(app);
    command.Run();
    command.Undo();
    command.Redo();
    command.Redo();
  }

  /** Ungrouping a state without top-level groups installs the same shapes
      and selects all of them. */
  method UngroupWithoutGroups(app: ApplicationState)
    requires NoGroups(app.shapes)
    modifies app`shapes, app`selected, app`redraws
    ensures app.shapes == old(app.shapes) && app.selected == app.shapes
    ensures app.clipboard == old(app.clipboard)
    ensures app.redraws == old(app.redraws) + 2
  {
    var command := new UngroupCommand(app);
    Flatten1NoGroups(command.oldShapes);
    command.Run();
  }
}
