/** The application state of the editor: the top-level shapes in z-order
    (first is painted first, so lies at the bottom), the current selection
    and the clipboard, plus the active tool settings.

    Lists are value sequences. In the source the getters hand out the live
    ArrayList and addShape/removeShape edit it in place; the model assumes
    nobody edits a list obtained from a getter behind the state's back.

    Repainting the canvas is not modelled; each call to the repaint routine
    is counted in the ghost field `redraws`, so a contract can say how many
    repaints an operation performs. */
module Persistence {
  import opened ShapeItems

  /** Tool-setting enums. The values this part of the editor names are
      constructors of their own; the values it does not name are stood for
      by one tagged constructor per enum, so the defaults are real choices. */
  datatype ShapeType = Rectangle | OtherShapeType(tag: nat)
  datatype ShapeColor = Blue | Green | OtherColor(tag: nat)
  datatype ShapeShadingType = FilledIn | Outline | OutlineAndFilledIn
  datatype MouseMode = Draw | OtherMouseMode(tag: nat)

  /** What an opaque command (copy, paste, delete) leaves behind when it is
      run: the three lists as it left them, how many repaints it performed
      itself, and whether it ended by throwing an IOException. */
  datatype CommandEffect = CommandEffect(
    shapes: seq<Item>,
    selected: seq<Item>,
    clipboard: seq<Item>,
    redraws: nat,
    threwIOException: bool)

  class ApplicationState {
    var shapes: seq<Item>
    var selected: seq<Item>
    var clipboard: seq<Item>

    var activeShapeType: ShapeType
    var activePrimaryColor: ShapeColor
    var activeSecondaryColor: ShapeColor
    var activeShapeShadingType: ShapeShadingType
    var activeMouseMode: MouseMode

    /** Number of times the canvas has been repainted. */
    ghost var redraws: nat

    /** Every selected item is a top-level shape. The setters do not
        enforce this, so it is a property of particular states rather than
        an object invariant. */
    ghost predicate SelectionWithinShapes()
      reads this
    {
      forall x :: x in selected ==> x in shapes
    }

    constructor ()
      ensures shapes == [] && selected == [] && clipboard == []
      ensures activeShapeType == Rectangle && activePrimaryColor == Blue
      ensures activeSecondaryColor == Green && activeShapeShadingType == FilledIn
      ensures activeMouseMode == Draw
      ensures redraws == 0
    {
      redraws := 0;
      new;
      SetDefaults();
      shapes := [];
      selected := [];
      clipboard := [];
    }

    /** Installs the default tool settings; touches nothing else. */
    method SetDefaults()
      modifies this`activeShapeType, this`activePrimaryColor, this`activeSecondaryColor,
        this`activeShapeShadingType, this`activeMouseMode
      ensures activeShapeType == Rectangle && activePrimaryColor == Blue
      ensures activeSecondaryColor == Green && activeShapeShadingType == FilledIn
      ensures activeMouseMode == Draw
    {
      activeShapeType := Rectangle;
      activePrimaryColor := Blue;
      activeSecondaryColor := Green;
      activeShapeShadingType := FilledIn;
      activeMouseMode := Draw;
    }

    /** Repaints the canvas from `shapes`; only the repaint itself is modelled. */
    method DrawShapes()
      modifies this`redraws
      ensures redraws == old(redraws) + 1
    {
      redraws := redraws + 1;
    }

    method GetShapes() returns (s: seq<Item>)
      ensures s == shapes
    {
      s := shapes;
    }

    method GetSelected() returns (s: seq<Item>)
      ensures s == selected
    {
      s := selected;
    }

    method GetClipboard() returns (c: seq<Item>)
      ensures c == clipboard
    {
      c := clipboard;
    }

    method SetSelected(s: seq<Item>)
      modifies this`selected, this`redraws
      ensures selected == s
      ensures shapes == old(shapes) && clipboard == old(clipboard)
      ensures redraws == old(redraws) + 1
    {
      selected := s;
      DrawShapes();
    }

    method SetShapes(s: seq<Item>)
      modifies this`shapes, this`redraws
      ensures shapes == s
      ensures selected == old(selected) && clipboard == old(clipboard)
      ensures redraws == old(redraws) + 1
    {
      shapes := s;
      DrawShapes();
    }

    /** Puts `shape` on top of the z-order. */
    method AddShape(shape: Item)
      modifies this`shapes, this`redraws
      ensures shapes == old(shapes) + [shape]
      ensures selected == old(selected) && clipboard == old(clipboard)
      ensures redraws == old(redraws) + 1
    {
      shapes := shapes + [shape];
      DrawShapes();
    }

    /** Removes the first occurrence of `shape`, if there is one; repaints
        in either case. */
    method RemoveShape(shape: Item)
      modifies this`shapes, this`redraws
      ensures shape !in old(shapes) ==> shapes == old(shapes)
      ensures shape in old(shapes) ==>
        var k := FirstIndex(old(shapes), shape);
        shapes == old(shapes)[..k] + old(shapes)[k + 1..]
      ensures multiset(shapes) == multiset(old(shapes)) - multiset{shape}
      ensures selected == old(selected) && clipboard == old(clipboard)
      ensures redraws == old(redraws) + 1
    {
      if shape in shapes {
        RemoveFirstPresent(shapes, shape);
      } else {
        RemoveFirstAbsent(shapes, shape);
      }
      RemoveFirstMultiset(shapes, shape);
      shapes := RemoveFirst(shapes, shape);
      DrawShapes();
    }

    /** Replaces the clipboard; the clipboard is not drawn, so no repaint. */
    method SetClipboard(c: seq<Item>)
      modifies this`clipboard
      ensures clipboard == c
      ensures shapes == old(shapes) && selected == old(selected)
      ensures redraws == old(redraws)
    {
      clipboard := c;
    }

    /** Runs an opaque command: its effect is installed whether it completed
        or threw an IOException (the exception is caught and only reported). */
    method RunCommand(command: CommandEffect)
      modifies this`shapes, this`selected, this`clipboard, this`redraws
      ensures shapes == command.shapes && selected == command.selected
      ensures clipboard == command.clipboard
      ensures redraws == old(redraws) + command.redraws
    {
      shapes, selected, clipboard := command.shapes, command.selected, command.clipboard;
      redraws := redraws + command.redraws;
    }

    /** Copy: run the copy command, then repaint once, exception or not. */
    method Copy(command: CommandEffect)
      modifies this`shapes, this`selected, this`clipboard, this`redraws
      ensures shapes == command.shapes && selected == command.selected
      ensures clipboard == command.clipboard
      ensures redraws == old(redraws) + command.redraws + 1
    {
      RunCommand(command);
      DrawShapes();
    }

    /** Paste: run the paste command, then repaint once, exception or not. */
    method Paste(command: CommandEffect)
      modifies this`shapes, this`selected, this`clipboard, this`redraws
      ensures shapes == command.shapes && selected == command.selected
      ensures clipboard == command.clipboard
      ensures redraws == old(redraws) + command.redraws + 1
    {
      RunCommand(command);
      DrawShapes();
    }

    /** Delete: run the delete command, then repaint once, exception or not. */
    method Delete(command: CommandEffect)
      modifies this`shapes, this`selected, this`clipboard, this`redraws
      ensures shapes == command.shapes && selected == command.selected
      ensures clipboard == command.clipboard
      ensures redraws == old(redraws) + command.redraws + 1
    {
      RunCommand(command);
      DrawShapes();
    }
  }
}
