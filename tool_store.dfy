/**
 * The drawing-tool settings of the editor
 * (interactive-preprocessing/src/stores/toolStore.ts): one record that
 * each setter replaces by a copy with one field (two, for the colour)
 * changed.
 */
module ToolStore {

  datatype Tool = Select | Brush | Eyedropper

  datatype ToolState = ToolState(
    activeTool: Tool,
    brushSize: int,
    brushColor: string,
    autoDetectColor: bool)

  const InitialBrushSize := 30
  const InitialBrushColor := "#ffffff"

  class Store {
    var state: ToolState

    /** The brush, 30 pixels wide, painting white, with the colour taken from the image. */
    constructor ()
      ensures state == ToolState(Brush, InitialBrushSize, InitialBrushColor, true)
    {
      state := ToolState(Brush, InitialBrushSize, InitialBrushColor, true);
    }

    method SetActiveTool(tool: Tool)
      modifies this
      ensures state.activeTool == tool
      ensures state.brushSize == old(state.brushSize)
      ensures state.brushColor == old(state.brushColor)
      ensures state.autoDetectColor == old(state.autoDetectColor)
    {
      state := state.(activeTool := tool);
    }

    method SetBrushSize(size: int)
      modifies this
      ensures state.brushSize == size
      ensures state.activeTool == old(state.activeTool)
      ensures state.brushColor == old(state.brushColor)
      ensures state.autoDetectColor == old(state.autoDetectColor)
    {
      state := state.(brushSize := size);
    }

    /** Picking a colour by hand switches automatic colour detection off. */
    method SetBrushColor(color: string)
      modifies this
      ensures state.brushColor == color && !state.autoDetectColor
      ensures state.activeTool == old(state.activeTool)
      ensures state.brushSize == old(state.brushSize)
    {
      state := state.(brushColor := color, autoDetectColor := false);
    }

    /** Switches automatic colour detection on; calling it again changes nothing. */
    method EnableAutoDetectColor()
      modifies this
      ensures state.autoDetectColor
      ensures state.activeTool == old(state.activeTool)
      ensures state.brushSize == old(state.brushSize)
      ensures state.brushColor == old(state.brushColor)
      ensures old(state.autoDetectColor) ==> state == old(state)
    {
      state := state.(autoDetectColor := true);
    }
  }
}
