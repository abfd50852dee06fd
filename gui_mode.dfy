/**
 * The main window's two layouts, visualization mode and network mode, and
 * how setGuiMode and saveSettings save and restore them.
 */
module Modes {
  import opened Geometry

  datatype GuiMode = ModeNone | ModeVisualization | ModeNetwork

  /** How the property list shows properties: a list at user level, or one processor at developer level. */
  datatype PropertyView = ListUserLevel | SingleDeveloperLevel

  /**
   * The layout state of the main window: the mode, the saved records of both
   * modes, the current dock layout (what saveState returns now), the tool and
   * widget visibility setGuiMode sets, and the two sub-windows.
   */
  datatype Layout = Layout(
    mode: GuiMode,
    visualizationModeState: seq<bv8>,
    networkModeState: seq<bv8>,
    renderWindowStateVisualizationMode: GeometryBlob,
    renderWindowStateNetworkMode: GeometryBlob,
    networkEditorWindowState: GeometryBlob,
    dockState: seq<bv8>,
    processorListVisible: bool,
    propertyListVisible: bool,
    networkEditorWidgetVisible: bool,
    processorListActionEnabled: bool,
    propertyView: PropertyView,
    render: WindowState,
    renderHint: Size,
    editor: WindowState,
    editorHint: Size)

  function SavedGeometry(w: WindowState): GeometryBlob
  {
    EncodeGeometry(w.frame, w.normal, w.maximized)
  }

  /** Saving the visualization layout: the dock layout and the render window's geometry. */
  function SaveVisualizationLayout(l: Layout): Layout
  {
    l.(visualizationModeState := l.dockState,
       renderWindowStateVisualizationMode := SavedGeometry(l.render))
  }

  /** Saving the network layout: the dock layout and both sub-windows' geometry. */
  function SaveNetworkLayout(l: Layout): Layout
  {
    l.(networkModeState := l.dockState,
       renderWindowStateNetworkMode := SavedGeometry(l.render),
       networkEditorWindowState := SavedGeometry(l.editor))
  }

  /** saveSettings: the current mode's layout is saved; in no mode nothing is. */
  function SnapshotLayout(l: Layout): (r: Layout)
    ensures r.mode == l.mode && r.dockState == l.dockState && r.render == l.render && r.editor == l.editor
    ensures l.mode == ModeVisualization ==>
      r == l.(visualizationModeState := l.dockState, renderWindowStateVisualizationMode := SavedGeometry(l.render))
    ensures l.mode == ModeNetwork ==>
      r == l.(networkModeState := l.dockState, renderWindowStateNetworkMode := SavedGeometry(l.render),
              networkEditorWindowState := SavedGeometry(l.editor))
    ensures l.mode == ModeNone ==> r == l
  {
    match l.mode
    case ModeVisualization => SaveVisualizationLayout(l)
    case ModeNetwork => SaveNetworkLayout(l)
    case ModeNone => l
  }

  /**
   * QMainWindow::restoreState: an empty record is refused; whether a
   * non-empty one is accepted depends on Qt's own checks, given as `accepted`.
   */
  predicate DockRestored(saved: seq<bv8>, accepted: bool)
  {
    |saved| > 0 && accepted
  }

  /** Restoring the dock layout, or the fallback tool visibility when that fails. */
  function RestoreDock(l: Layout, saved: seq<bv8>, accepted: bool, processorListFallback: bool): Layout
  {
    if DockRestored(saved, accepted) then l.(dockState := saved)
    else l.(processorListVisible := processorListFallback, propertyListVisible := true)
  }

  /** Entering visualization mode from the state `l` (with the left mode already saved). */
  function EnterVisualization(l: Layout, accepted: bool): (r: Layout)
    ensures r.mode == ModeVisualization && r.renderHint == l.renderHint && r.editorHint == l.editorHint
    ensures r.visualizationModeState == l.visualizationModeState && r.networkModeState == l.networkModeState
    ensures r.renderWindowStateVisualizationMode == l.renderWindowStateVisualizationMode
    ensures r.renderWindowStateNetworkMode == l.renderWindowStateNetworkMode
    ensures r.networkEditorWindowState == l.networkEditorWindowState
  {
    // both sub-windows and the editor widget are hidden first
    var hidden := l.(editor := Hidden(l.editor), networkEditorWidgetVisible := false, render := Hidden(l.render));
    var docked := RestoreDock(hidden, l.visualizationModeState, accepted, false);
    var shown := docked.(render := RestoredAndShown(docked.render, l.renderWindowStateVisualizationMode, l.renderHint, true));
    shown.(propertyView := ListUserLevel, processorListActionEnabled := false, mode := ModeVisualization)
  }

  /** Entering network mode from the state `l` (with the left mode already saved). */
  function EnterNetwork(l: Layout, accepted: bool): (r: Layout)
    ensures r.mode == ModeNetwork && r.renderHint == l.renderHint && r.editorHint == l.editorHint
    ensures r.visualizationModeState == l.visualizationModeState && r.networkModeState == l.networkModeState
    ensures r.renderWindowStateVisualizationMode == l.renderWindowStateVisualizationMode
    ensures r.renderWindowStateNetworkMode == l.renderWindowStateNetworkMode
    ensures r.networkEditorWindowState == l.networkEditorWindowState
  {
    var hidden := l.(editor := Hidden(l.editor));
    var docked := RestoreDock(hidden, l.networkModeState, accepted, true);
    // the editor widget is shown once the editor window is placed
    var edited := docked.(editor := RestoredAndShown(docked.editor, l.networkEditorWindowState, l.editorHint, true),
                          networkEditorWidgetVisible := true);
    var shown := edited.(render := RestoredAndShown(edited.render, l.renderWindowStateNetworkMode, l.renderHint, false));
    shown.(propertyView := SingleDeveloperLevel, processorListActionEnabled := true, mode := ModeNetwork)
  }

  /**
   * setGuiMode: nothing happens when the mode does not change; entering
   * visualization mode from network mode saves the network layout first,
   * and the other way round; then the target layout is restored.
   */
  function ModeSwitch(l: Layout, m: GuiMode, accepted: bool): (r: Layout)
    ensures r.mode == m
    ensures m == l.mode ==> r == l
    ensures r.renderHint == l.renderHint && r.editorHint == l.editorHint
  {
    if m == l.mode then l
    else
      match m
      case ModeVisualization =>
        EnterVisualization(if l.mode == ModeNetwork then SaveNetworkLayout(l) else l, accepted)
      case ModeNetwork =>
        EnterNetwork(if l.mode == ModeVisualization then SaveVisualizationLayout(l) else l, accepted)
      case ModeNone =>
        l.(mode := ModeNone)
  }

  /** Of the saved records, setGuiMode overwrites only those of the mode it leaves, and only when it enters the other mode. */
  lemma ModeSwitchSavesOnlyLeftMode(l: Layout, m: GuiMode, accepted: bool)
    ensures var r := ModeSwitch(l, m, accepted);
      var savesVisualization := l.mode == ModeVisualization && m == ModeNetwork;
      var savesNetwork := l.mode == ModeNetwork && m == ModeVisualization;
      && r.visualizationModeState == (if savesVisualization then l.dockState else l.visualizationModeState)
      && r.renderWindowStateVisualizationMode ==
           (if savesVisualization then SavedGeometry(l.render) else l.renderWindowStateVisualizationMode)
      && r.networkModeState == (if savesNetwork then l.dockState else l.networkModeState)
      && r.renderWindowStateNetworkMode ==
           (if savesNetwork then SavedGeometry(l.render) else l.renderWindowStateNetworkMode)
      && r.networkEditorWindowState ==
           (if savesNetwork then SavedGeometry(l.editor) else l.networkEditorWindowState)
  {
    if m != l.mode {
      match m
      case ModeVisualization =>
        assert ModeSwitch(l, m, accepted) ==
          EnterVisualization(if l.mode == ModeNetwork then SaveNetworkLayout(l) else l, accepted);
      case ModeNetwork =>
        assert ModeSwitch(l, m, accepted) ==
          EnterNetwork(if l.mode == ModeVisualization then SaveVisualizationLayout(l) else l, accepted);
      case ModeNone =>
    }
  }

  /** Leaving a mode for the other one saves exactly what saveSettings would save in that mode. */
  lemma ModeSwitchSavesLikeSaveSettings(l: Layout, m: GuiMode, accepted: bool)
    requires l.mode != ModeNone && m != ModeNone && m != l.mode
    ensures var r := ModeSwitch(l, m, accepted);
      var s := SnapshotLayout(l);
      r.visualizationModeState == s.visualizationModeState &&
      r.networkModeState == s.networkModeState &&
      r.renderWindowStateVisualizationMode == s.renderWindowStateVisualizationMode &&
      r.renderWindowStateNetworkMode == s.renderWindowStateNetworkMode &&
      r.networkEditorWindowState == s.networkEditorWindowState
  {
    if l.mode == ModeVisualization {
      assert SnapshotLayout(l) == SaveVisualizationLayout(l);
      assert ModeSwitch(l, m, accepted) == EnterNetwork(SaveVisualizationLayout(l), accepted);
    } else {
      assert SnapshotLayout(l) == SaveNetworkLayout(l);
      assert ModeSwitch(l, m, accepted) == EnterVisualization(SaveNetworkLayout(l), accepted);
    }
  }

  /** Asking for the same mode twice does nothing the second time. */
  lemma ModeSwitchIdempotent(l: Layout, m: GuiMode, accepted: bool, again: bool)
    ensures ModeSwitch(ModeSwitch(l, m, accepted), m, again) == ModeSwitch(l, m, accepted)
  {
  }

  /**
   * Going from visualization mode to network mode and back puts a normal
   * render window back on the rectangle it had, shown and not maximized,
   * and the visualization records are the ones saved on leaving.
   */
  lemma VisualizationLayoutSurvivesRoundTrip(l: Layout, accepted: bool, back: bool)
    requires l.mode == ModeVisualization
    requires l.render.frame.IsValid() && l.render.frame == l.render.normal && !l.render.maximized
    ensures var r := ModeSwitch(ModeSwitch(l, ModeNetwork, accepted), ModeVisualization, back);
      r.mode == ModeVisualization &&
      r.render.frame == l.render.frame && r.render.visible && !r.render.maximized && !r.render.fullScreen &&
      r.visualizationModeState == l.dockState &&
      r.renderWindowStateVisualizationMode == SavedGeometry(l.render)
  {
    var n := ModeSwitch(l, ModeNetwork, accepted);
    assert n.renderWindowStateVisualizationMode == SavedGeometry(l.render);
    assert n.mode == ModeNetwork;
    var n' := SaveNetworkLayout(n);
    RestoreAfterSave(l.render, Hidden(n'.render), n'.renderHint);
    DecodeAfterEncode(l.render.frame, l.render.normal, l.render.maximized, n'.renderHint);
  }
}
