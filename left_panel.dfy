/**
 * The left panel (components/LeftPanel.tsx): a button that opens and closes the rich-text
 * editor, whose height follows the window height. The window height is an input here.
 */
module LeftPanel {
  import opened Wrappers
  import opened Text

  /** Room kept above the editor, and the extra buffer below it. */
  const HeaderHeight: int := 140
  const Buffer: int := 10
  const MinEditorHeight: int := 100

  /** The panel's state: whether the editor is open and its CSS height. */
  datatype PanelState = PanelState(openTextEditor: bool, editorHeight: string)

  /** Before the first update the editor is closed and 400 pixels high. */
  const InitialPanel: PanelState := PanelState(false, "400px")

  /** `Math.max(innerHeight - 140 - 10, 100)`. */
  function EditorHeightPx(innerHeight: int): (h: int)
    ensures h >= MinEditorHeight && h >= innerHeight - HeaderHeight - Buffer
    ensures h == MinEditorHeight || h == innerHeight - HeaderHeight - Buffer
  {
    var available := innerHeight - HeaderHeight - Buffer;
    if available > MinEditorHeight then available else MinEditorHeight
  }

  /** `updateHeight`: the height becomes that number of pixels; whether the editor is open is kept. */
  function UpdateHeight(state: PanelState, innerHeight: int): (r: PanelState)
    ensures r.openTextEditor == state.openTextEditor
    ensures r.editorHeight == IntToString(EditorHeightPx(innerHeight)) + "px"
  {
    state.(editorHeight := IntToString(EditorHeightPx(innerHeight)) + "px")
  }

  /** The text-editor button: `setTextEditorOpen(!openTextEditor)`. */
  function ToggleTextEditor(state: PanelState): (r: PanelState)
    ensures r.openTextEditor == !state.openTextEditor && r.editorHeight == state.editorHeight
  {
    state.(openTextEditor := !state.openTextEditor)
  }

  /** The editor area is on screen when the editor exists and the panel has it open. */
  function EditorShown(state: PanelState, editorReady: bool): (shown: bool)
    ensures shown <==> editorReady && state.openTextEditor
  {
    editorReady && state.openTextEditor
  }

  /**
   * The editor area over the panel's life: hidden at first, shown and hidden in turn by
   * the button once the editor exists, and unaffected by a change of window height.
   */
  lemma EditorShownOverPanelLife(state: PanelState, innerHeight: int, editorReady: bool)
    ensures !EditorShown(InitialPanel, editorReady)
    ensures EditorShown(ToggleTextEditor(state), true) == !EditorShown(state, true)
    ensures EditorShown(UpdateHeight(state, innerHeight), editorReady) == EditorShown(state, editorReady)
    ensures !EditorShown(state, false)
  {
  }

  /** Two clicks on the button give back the state before them. */
  lemma ToggleTwice(state: PanelState)
    ensures ToggleTextEditor(ToggleTextEditor(state)) == state
  {
  }

  /** The height read back as a number is the clamped window height, never below 100. */
  lemma UpdatedHeightAtLeastMinimum(state: PanelState, innerHeight: int)
    ensures ParseInt(UpdateHeight(state, innerHeight).editorHeight) == Some(EditorHeightPx(innerHeight))
    ensures EditorHeightPx(innerHeight) >= 100
  {
    ParseIntOfIntToString(EditorHeightPx(innerHeight), "px");
  }

  /** The initial height reads as 400 and the editor starts closed. */
  lemma InitialPanelClosed()
    ensures !InitialPanel.openTextEditor && ParseInt(InitialPanel.editorHeight) == Some(400)
  {
    assert NatToString(4) == "4";
    assert NatToString(40) == "40";
    assert NatToString(400) == "400";
    assert InitialPanel.editorHeight == IntToString(400) + "px";
    ParseIntOfIntToString(400, "px");
  }
}
