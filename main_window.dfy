/**
 * VoreenMainWindow's session bookkeeping: which workspace and network are
 * current, the last workspace, the modified flag, the window title and the
 * recent-file list, as the file operations change them; and the window's
 * settings and layout as the constructor, init, setGuiMode, saveSettings and
 * closeEvent read and write them.
 */
module MainWindow {
  import opened Wrappers
  import opened Paths
  import opened Geometry
  import opened RecentFiles
  import opened Settings
  import opened Startup
  import opened Visualization
  import opened Modes

  /** The buttons of the "Save the current workspace?" question. */
  datatype Answer = Yes | No | Cancel

  /** The title without a file; "[*]" is where Qt shows the modified mark. */
  const TitleBase := "VoreenVE [*]"
  const TitleSeparator := " - "

  /**
   * updateWindowTitle: the base title, followed by the file name of the
   * current workspace, or of the current network when there is no workspace.
   */
  function WindowTitle(workspace: string, network: string): (t: string)
    ensures |TitleBase| <= |t| && t[..|TitleBase|] == TitleBase
    ensures t == TitleBase <==> workspace == "" && network == ""
    ensures t != TitleBase ==>
      t == TitleBase + TitleSeparator + FileName(if workspace != "" then workspace else network)
  {
    if workspace == "" && network == "" then TitleBase
    else
      var f := FileName(if workspace == "" then network else workspace);
      TitleBase + TitleSeparator + f
  }

  /** The title names the workspace's file, whatever network is current. */
  lemma TitleNamesWorkspaceFile(dir: string, name: string, network: string)
    requires name != "" && '/' !in name
    ensures WindowTitle(dir + "/" + name, network) == TitleBase + TitleSeparator + name
  {
    FileNameAfterDirectory(dir, name);
  }

  /** The title names the network's file when no workspace is current. */
  lemma TitleNamesNetworkFile(dir: string, name: string)
    requires name != "" && '/' !in name
    ensures WindowTitle("", dir + "/" + name) == TitleBase + TitleSeparator + name
  {
    FileNameAfterDirectory(dir, name);
  }

  /** askSave: whether the caller may go on; only Cancel on a modified window stops it. */
  function AskSaveProceeds(modified: bool, answer: Answer): (proceed: bool)
    ensures proceed <==> !modified || answer != Cancel
  {
    if !modified then true
    else
      match answer
      case Yes => true
      case No => true
      case Cancel => false
  }

  /**
   * saveWorkspace's target: the given name; without one, the current
   * workspace unless it is read-only; empty means "ask with a dialog".
   */
  function SaveTarget(filename: string, current: string, readOnly: bool): (f: string)
    ensures filename != "" ==> f == filename
    ensures filename == "" ==> (f == "" <==> readOnly || current == "")
    ensures f != "" ==> f == filename || f == current
  {
    if filename == "" && !readOnly then current else filename
  }

  /** The session state the file operations change. */
  datatype Session = Session(
    workspace: string,
    network: string,
    lastWorkspace: string,
    readOnly: bool,
    modified: bool,
    title: string,
    recentFiles: seq<string>)

  /** The title agrees with the current files. */
  predicate TitleCurrent(s: Session)
  {
    s.title == WindowTitle(s.workspace, s.network)
  }

  /** updateWindowTitle on a session. */
  function Retitled(s: Session): (r: Session)
    ensures TitleCurrent(r)
    ensures r.(title := s.title) == s
  {
    s.(title := WindowTitle(s.workspace, s.network))
  }

  /**
   * saveWorkspace once the target `f` is known: the serializer clears the
   * read-only flag either way; on success `f` becomes current and last
   * workspace and goes to the front of the recent files.
   */
  function WorkspaceSaved(s: Session, f: string, ok: bool): Session
  {
    if ok then
      Retitled(s.(workspace := f, lastWorkspace := f, readOnly := false)).(recentFiles := AddedToRecent(s.recentFiles, f))
    else s.(readOnly := false)
  }

  /** The file saveWorkspace hands to the serializer, if any; `dialog` is what "Save Workspace" returns. */
  function SaveWorkspaceWritten(s: Session, filename: string, dialog: Option<string>): Option<string>
    decreases if dialog.Some? then 1 else 0
  {
    var f := SaveTarget(filename, s.workspace, s.readOnly);
    if f != "" then Some(f)
    else
      match dialog
      case None => None
      case Some(chosen) => SaveWorkspaceWritten(s, chosen, None)
  }

  /**
   * saveWorkspace(filename) on a session: save to the target, or ask with
   * saveWorkspaceAs and save to the chosen file (nothing happens when the
   * dialog is cancelled).
   */
  function SaveWorkspaceOutcome(s: Session, filename: string, dialog: Option<string>, ok: bool): Session
    decreases if dialog.Some? then 1 else 0
  {
    var f := SaveTarget(filename, s.workspace, s.readOnly);
    if f != "" then WorkspaceSaved(s, f, ok)
    else
      match dialog
      case None => s
      case Some(chosen) => SaveWorkspaceOutcome(s, chosen, None, ok)
  }

  /** One step of saveWorkspace: save to the target when there is one, else ask with saveWorkspaceAs. */
  lemma SaveWorkspaceSteps(s: Session, filename: string, dialog: Option<string>, ok: bool)
    ensures var f := SaveTarget(filename, s.workspace, s.readOnly);
      (f != "" ==> SaveWorkspaceWritten(s, filename, dialog) == Some(f) &&
                   SaveWorkspaceOutcome(s, filename, dialog, ok) == WorkspaceSaved(s, f, ok)) &&
      (f == "" ==> SaveWorkspaceWritten(s, filename, dialog) ==
                     (if dialog.Some? then SaveWorkspaceWritten(s, dialog.value, None) else None) &&
                   SaveWorkspaceOutcome(s, filename, dialog, ok) == SaveWorkspaceAsOutcome(s, dialog, ok))
  {
  }

  /** saveWorkspaceAs on a session. */
  function SaveWorkspaceAsOutcome(s: Session, dialog: Option<string>, ok: bool): Session
  {
    match dialog
    case None => s
    case Some(chosen) => SaveWorkspaceOutcome(s, chosen, None, ok)
  }

  /** askSave on a session: only "Yes" on a modified window saves. */
  function AskSaveOutcome(s: Session, answer: Answer, dialog: Option<string>, ok: bool): Session
  {
    if s.modified && answer == Yes then SaveWorkspaceOutcome(s, "", dialog, ok) else s
  }

  /** newWorkspace on a session: after askSave, no files, writable and unmodified. */
  function NewWorkspaceOutcome(s: Session, answer: Answer, dialog: Option<string>, ok: bool): Session
  {
    if !AskSaveProceeds(s.modified, answer) then s
    else
      var asked := AskSaveOutcome(s, answer, dialog, ok);
      Retitled(asked.(workspace := "", network := "", lastWorkspace := "", readOnly := false)).(modified := false)
  }

  /**
   * openWorkspace(filename) on a session: a failed load leaves no current
   * (and no last) workspace; a successful one makes `f` current and last,
   * drops the current network and records `f` as recent.
   */
  function OpenWorkspaceOutcome(s: Session, f: string, load: WorkspaceLoad): Session
  {
    match load
    case WorkspaceLoadFailed =>
      Retitled(s.(workspace := "", lastWorkspace := "", readOnly := false))
    case WorkspaceLoaded(readOnly, modified) =>
      Retitled(s.(workspace := f, lastWorkspace := f, network := "", readOnly := readOnly, modified := modified))
        .(recentFiles := AddedToRecent(s.recentFiles, f))
  }

  /** openWorkspace() on a session: askSave, then the file chosen in the dialog, if any. */
  function ChooseWorkspaceOutcome(s: Session, answer: Answer, saveDialog: Option<string>, ok: bool,
                                  openDialog: Option<string>, load: WorkspaceLoad): Session
  {
    if !AskSaveProceeds(s.modified, answer) then s
    else
      var asked := AskSaveOutcome(s, answer, saveDialog, ok);
      match openDialog
      case None => asked
      case Some(f) => OpenWorkspaceOutcome(asked, f, load)
  }

  /**
   * openNetwork(filename) on a session: a failed load changes nothing; a
   * successful one (setNetwork) clears the modified flag, makes `f` the
   * current network and records it as recent; the current workspace stays.
   */
  function OpenNetworkOutcome(s: Session, f: string, loaded: bool): Session
  {
    if !loaded then s
    else Retitled(s.(modified := false, network := f)).(recentFiles := AddedToRecent(s.recentFiles, f))
  }

  /** init's loading step on a session: the workspace or the network the start-up plan names is opened. */
  function StartupOutcome(s: Session, target: LoadTarget, load: WorkspaceLoad, loaded: bool): Session
  {
    match target
    case WorkspaceFile(p) => OpenWorkspaceOutcome(s, p, load)
    case NetworkFile(p) => OpenNetworkOutcome(s, p, loaded)
  }

  /** openNetwork() on a session: askSave, then the file chosen in the dialog, if any. */
  function ChooseNetworkOutcome(s: Session, answer: Answer, saveDialog: Option<string>, ok: bool,
                                openDialog: Option<string>, loaded: bool): Session
  {
    if !AskSaveProceeds(s.modified, answer) then s
    else
      var asked := AskSaveOutcome(s, answer, saveDialog, ok);
      match openDialog
      case None => asked
      case Some(f) => OpenNetworkOutcome(asked, f, loaded)
  }

  /**
   * saveNetworkAs on a session: the chosen file becomes the current network
   * before the serializer runs, so a failed save leaves it changed (and the
   * title not updated); a successful one clears the modified flag, updates
   * the title and records the file as recent.
   */
  function SaveNetworkAsOutcome(s: Session, dialog: Option<string>, ok: bool): Session
  {
    match dialog
    case None => s
    case Some(f) =>
      if !ok then s.(network := f)
      else Retitled(s.(network := f, modified := false)).(recentFiles := AddedToRecent(s.recentFiles, f))
  }

  /** openRecentFile on a session: a ".vws" file (in any case) opens as a workspace, any other as a network. */
  function OpenRecentOutcome(s: Session, slot: nat, load: WorkspaceLoad, loaded: bool): Session
    requires slot < |s.recentFiles|
  {
    match RecentFileTarget(s.recentFiles[slot])
    case WorkspaceFile(p) => OpenWorkspaceOutcome(s, p, load)
    case NetworkFile(p) => OpenNetworkOutcome(s, p, loaded)
  }

  /** closeEvent asks only when a workspace is current and not read-only; the modified flag is not consulted. */
  predicate CloseAsks(s: Session)
  {
    s.workspace != "" && !s.readOnly
  }

  /** closeEvent on a session (after saveSettings, which leaves the session alone). */
  function CloseOutcome(s: Session, answer: Answer, dialog: Option<string>, ok: bool): Session
  {
    if CloseAsks(s) && answer == Yes then SaveWorkspaceOutcome(s, "", dialog, ok) else s
  }

  /** Whether closeEvent lets the window close. */
  function CloseAccepted(s: Session, answer: Answer): (accepted: bool)
    ensures !accepted <==> CloseAsks(s) && answer == Cancel
  {
    !(CloseAsks(s) && answer == Cancel)
  }

  // ----- properties of the session operations -------------------------------

  /** saveWorkspace writes the given file, else the current writable workspace, else the file chosen in the dialog. */
  lemma SaveWorkspaceWritesTarget(s: Session, filename: string, dialog: Option<string>)
    ensures filename != "" ==> SaveWorkspaceWritten(s, filename, dialog) == Some(filename)
    ensures filename == "" && !s.readOnly && s.workspace != "" ==>
      SaveWorkspaceWritten(s, filename, dialog) == Some(s.workspace)
    ensures filename == "" && (s.readOnly || s.workspace == "") ==>
      SaveWorkspaceWritten(s, filename, dialog) ==
        (if dialog.Some? && dialog.value != "" then Some(dialog.value) else None)
  {
  }

  /** A save that does not reach the serializer changes nothing. */
  lemma SaveWorkspaceWithoutTargetChangesNothing(s: Session, filename: string, dialog: Option<string>, ok: bool)
    requires SaveWorkspaceWritten(s, filename, dialog) == None
    ensures SaveWorkspaceOutcome(s, filename, dialog, ok) == s
  {
  }

  /**
   * A successful save makes the written file current and last workspace,
   * writable, first among the recent files and named in the title; the
   * network and the modified flag are untouched.
   */
  lemma SaveWorkspaceSuccess(s: Session, filename: string, dialog: Option<string>, f: string)
    requires SaveWorkspaceWritten(s, filename, dialog) == Some(f)
    ensures var r := SaveWorkspaceOutcome(s, filename, dialog, true);
      r.workspace == f && r.lastWorkspace == f && !r.readOnly && TitleCurrent(r) &&
      r.recentFiles == AddedToRecent(s.recentFiles, f) && r.recentFiles[0] == f &&
      r.network == s.network && r.modified == s.modified
  {
    var f' := SaveTarget(filename, s.workspace, s.readOnly);
    if f' == "" {
      assert dialog.Some?;
      assert SaveTarget(dialog.value, s.workspace, s.readOnly) == f;
    }
    assert f != "";
    AddedToRecentFront(s.recentFiles, f);
  }

  /** A failed save changes only the read-only flag, which the serializer has already cleared. */
  lemma SaveWorkspaceFailureKeepsFiles(s: Session, filename: string, dialog: Option<string>)
    ensures var r := SaveWorkspaceOutcome(s, filename, dialog, false);
      r.workspace == s.workspace && r.lastWorkspace == s.lastWorkspace && r.network == s.network &&
      r.title == s.title && r.recentFiles == s.recentFiles && r.modified == s.modified
  {
  }

  /** Saving leaves the modified flag as it was: saveWorkspace does not clear it. */
  lemma SaveWorkspaceKeepsModified(s: Session, filename: string, dialog: Option<string>, ok: bool)
    ensures SaveWorkspaceOutcome(s, filename, dialog, ok).modified == s.modified
  {
  }

  /** Cancelling the question leaves the session exactly as it was, for every operation that asks. */
  lemma CancelChangesNothing(s: Session, dialog: Option<string>, ok: bool,
                             openDialog: Option<string>, load: WorkspaceLoad, loaded: bool)
    requires s.modified
    ensures NewWorkspaceOutcome(s, Cancel, dialog, ok) == s
    ensures ChooseWorkspaceOutcome(s, Cancel, dialog, ok, openDialog, load) == s
    ensures ChooseNetworkOutcome(s, Cancel, dialog, ok, openDialog, loaded) == s
  {
  }

  /** A new workspace has no files, is writable and unmodified, and shows the bare title; the recent files are kept or grow by the saved file. */
  lemma NewWorkspaceIsEmpty(s: Session, answer: Answer, dialog: Option<string>, ok: bool)
    requires AskSaveProceeds(s.modified, answer)
    ensures var r := NewWorkspaceOutcome(s, answer, dialog, ok);
      r.workspace == "" && r.network == "" && r.lastWorkspace == "" && !r.readOnly && !r.modified &&
      r.title == TitleBase && TitleCurrent(r)
  {
  }

  /**
   * An opened workspace is current and last, its read-only flag and the
   * modified flag the loader left are taken over, the network is dropped and
   * the file is first among the recent files.
   */
  lemma OpenWorkspaceSuccess(s: Session, f: string, readOnly: bool, modified: bool)
    requires f != ""
    ensures var r := OpenWorkspaceOutcome(s, f, WorkspaceLoaded(readOnly, modified));
      r.workspace == f && r.lastWorkspace == f && r.network == "" && r.readOnly == readOnly &&
      r.recentFiles[0] == f && f !in r.recentFiles[1..] && r.modified == modified && TitleCurrent(r)
  {
    AddedToRecentFront(s.recentFiles, f);
  }

  /** A workspace that fails to load leaves no current and no last workspace, and keeps the network and the recent files. */
  lemma OpenWorkspaceFailure(s: Session, f: string)
    ensures var r := OpenWorkspaceOutcome(s, f, WorkspaceLoadFailed);
      r.workspace == "" && r.lastWorkspace == "" && !r.readOnly && r.network == s.network &&
      r.recentFiles == s.recentFiles && TitleCurrent(r)
  {
  }

  /** Opening a network keeps the current workspace, so the title keeps naming the workspace when there is one. */
  lemma OpenNetworkKeepsWorkspace(s: Session, f: string)
    requires f != ""
    ensures var r := OpenNetworkOutcome(s, f, true);
      r.workspace == s.workspace && r.network == f && !r.modified &&
      r.recentFiles[0] == f && TitleCurrent(r) &&
      (s.workspace != "" ==> r.title == TitleBase + TitleSeparator + FileName(s.workspace))
  {
    AddedToRecentFront(s.recentFiles, f);
  }

  /** Every saving operation but a failed saveNetworkAs keeps the title current. */
  lemma SavingKeepsTitleCurrent(s: Session, answer: Answer, dialog: Option<string>, ok: bool, f: string)
    requires TitleCurrent(s)
    ensures TitleCurrent(SaveWorkspaceOutcome(s, f, dialog, ok))
    ensures TitleCurrent(AskSaveOutcome(s, answer, dialog, ok))
    ensures TitleCurrent(NewWorkspaceOutcome(s, answer, dialog, ok))
    ensures TitleCurrent(SaveNetworkAsOutcome(s, dialog, true))
    ensures TitleCurrent(CloseOutcome(s, answer, dialog, ok))
  {
    SaveWorkspaceKeepsTitleCurrent(s, f, dialog, ok);
    SaveWorkspaceKeepsTitleCurrent(s, "", dialog, ok);
  }

  /** Every opening operation keeps the title current, whether the file loads or not. */
  lemma OpeningKeepsTitleCurrent(s: Session, answer: Answer, dialog: Option<string>, ok: bool,
                                 openDialog: Option<string>, f: string, load: WorkspaceLoad, loaded: bool)
    requires TitleCurrent(s)
    ensures TitleCurrent(OpenWorkspaceOutcome(s, f, load))
    ensures TitleCurrent(ChooseWorkspaceOutcome(s, answer, dialog, ok, openDialog, load))
    ensures TitleCurrent(OpenNetworkOutcome(s, f, loaded))
    ensures TitleCurrent(ChooseNetworkOutcome(s, answer, dialog, ok, openDialog, loaded))
  {
    SaveWorkspaceKeepsTitleCurrent(s, "", dialog, ok);
    var asked := AskSaveOutcome(s, answer, dialog, ok);
    assert TitleCurrent(asked);
    OpenKeepsTitleCurrent(asked, openDialog, load, loaded);
  }

  /** saveWorkspace keeps the title current, whether or not the serializer succeeds. */
  lemma SaveWorkspaceKeepsTitleCurrent(s: Session, f: string, dialog: Option<string>, ok: bool)
    requires TitleCurrent(s)
    ensures TitleCurrent(SaveWorkspaceOutcome(s, f, dialog, ok))
  {
  }

  /** Opening the file chosen in a dialog keeps the title current. */
  lemma OpenKeepsTitleCurrent(s: Session, openDialog: Option<string>, load: WorkspaceLoad, loaded: bool)
    requires TitleCurrent(s)
    ensures openDialog.Some? ==> TitleCurrent(OpenWorkspaceOutcome(s, openDialog.value, load))
    ensures openDialog.Some? ==> TitleCurrent(OpenNetworkOutcome(s, openDialog.value, loaded))
  {
  }

  /**
   * A failed saveNetworkAs changes the current network but not the title,
   * which then names the old network whenever the two file names differ.
   */
  lemma SaveNetworkAsFailureLeavesStaleTitle(s: Session, f: string)
    requires TitleCurrent(s) && s.workspace == "" && f != ""
    requires FileName(f) != FileName(s.network)
    ensures var r := SaveNetworkAsOutcome(s, Some(f), false);
      r.network == f && r.title == s.title && r.modified == s.modified && !TitleCurrent(r)
  {
    assert SaveNetworkAsOutcome(s, Some(f), false) == s.(network := f);
    if s.network != "" && s.title == WindowTitle("", f) {
      PrefixCancels(TitleBase + TitleSeparator, FileName(s.network), FileName(f));
      assert false;
    }
  }

  lemma PrefixCancels(prefix: string, a: string, b: string)
    requires prefix + a == prefix + b
    ensures a == b
  {
    assert (prefix + a)[|prefix|..] == a;
    assert (prefix + b)[|prefix|..] == b;
  }

  /** A recent ".vws" entry reopens that workspace; any other entry reopens it as a network. */
  lemma OpenRecentDispatch(s: Session, slot: nat, load: WorkspaceLoad, loaded: bool)
    requires slot < |s.recentFiles|
    ensures IsWorkspaceFile(s.recentFiles[slot]) ==>
      OpenRecentOutcome(s, slot, load, loaded) == OpenWorkspaceOutcome(s, s.recentFiles[slot], load)
    ensures !IsWorkspaceFile(s.recentFiles[slot]) ==>
      OpenRecentOutcome(s, slot, load, loaded) == OpenNetworkOutcome(s, s.recentFiles[slot], loaded)
  {
  }

  /** Closing saves the workspace only on "Yes" for a writable current workspace, and refuses only on "Cancel" then. */
  lemma CloseSavesOnlyWhenAsked(s: Session, answer: Answer, dialog: Option<string>, ok: bool)
    ensures !CloseAsks(s) ==> CloseOutcome(s, answer, dialog, ok) == s && CloseAccepted(s, answer)
    ensures CloseAsks(s) && answer == Yes ==>
      SaveWorkspaceWritten(s, "", dialog) == Some(s.workspace) &&
      CloseOutcome(s, answer, dialog, ok) == WorkspaceSaved(s, s.workspace, ok)
  {
  }

  /** What saveSettings writes into the "MainWindow" group, from the window's geometry, the last workspace, the option and the layout. */
  function MainWindowGroup(size: Size, pos: Point, maximized: bool, lastWorkspace: string, loadLastWorkspace: bool,
                           l: Layout): (g: MainWindowSettings)
    ensures g.lastWorkspace == lastWorkspace && g.loadLastWorkspace == loadLastWorkspace
    ensures g.visualizationModeState == l.visualizationModeState && g.networkModeState == l.networkModeState
    ensures g.visualizationMode <==> l.mode == ModeVisualization
  {
    MainWindowSettings(size, pos, maximized, lastWorkspace, loadLastWorkspace,
                       l.visualizationModeState, l.networkModeState,
                       l.renderWindowStateVisualizationMode, l.renderWindowStateNetworkMode, l.networkEditorWindowState,
                       l.mode == ModeVisualization)
  }

  /**
   * VoreenMainWindow: the fields of the session, the layout and the
   * settings, and the operations on them. Each method's modifies clause
   * names the fields it may change; all others keep their values.
   */
  class VoreenMainWindow {
    const vis: VoreenVisualization
    const recent: RecentFileMenu
    const renderWindow: MdiSubWindow
    const networkEditorWindow: MdiSubWindow

    var currentWorkspace: string
    var currentNetwork: string
    var lastWorkspace: string
    var windowModified: bool
    /** The window title as setWindowTitle last set it. */
    var title: string
    var defaultDataset: string
    var loadLastWorkspace: bool
    var resetSettings: bool

    var guiMode: GuiMode
    var visualizationModeState: seq<bv8>
    var networkModeState: seq<bv8>
    var renderWindowStateVisualizationMode: GeometryBlob
    var renderWindowStateNetworkMode: GeometryBlob
    var networkEditorWindowState: GeometryBlob
    /** The dock layout saveState would return now. */
    var dockState: seq<bv8>
    var processorListVisible: bool
    var propertyListVisible: bool
    var networkEditorWidgetVisible: bool
    var processorListActionEnabled: bool
    var propertyView: PropertyView

    var windowSize: Size
    var windowPos: Point
    var windowMaximized: bool
    var toolWindows: seq<ToolWindow>
    /** The persistent settings (QSettings). */
    var settings: Store

    ghost predicate Valid()
      reads recent, recent.slots
    {
      renderWindow != networkEditorWindow && recent.Valid()
    }

    ghost function SessionOf(): Session
      reads this`currentWorkspace, this`currentNetwork, this`lastWorkspace, this`windowModified, this`title, vis, recent
    {
      Session(currentWorkspace, currentNetwork, lastWorkspace, vis.readOnlyWorkspace, windowModified, title, recent.files)
    }

    ghost function LayoutOf(): Layout
      reads this`guiMode, this`visualizationModeState, this`networkModeState,
        this`renderWindowStateVisualizationMode, this`renderWindowStateNetworkMode, this`networkEditorWindowState,
        this`dockState, this`processorListVisible, this`propertyListVisible, this`networkEditorWidgetVisible,
        this`processorListActionEnabled, this`propertyView, renderWindow, networkEditorWindow
    {
      Layout(guiMode, visualizationModeState, networkModeState,
             renderWindowStateVisualizationMode, renderWindowStateNetworkMode, networkEditorWindowState,
             dockState, processorListVisible, propertyListVisible, networkEditorWidgetVisible,
             processorListActionEnabled, propertyView,
             renderWindow.State(), renderWindow.sizeHint, networkEditorWindow.State(), networkEditorWindow.sizeHint)
    }

    /** What init loads at start-up in the current state. */
    ghost function StartupPlanOf(standardWorkspace: string): StartupPlan
      reads this`lastWorkspace, this`loadLastWorkspace, this`currentNetwork, this`defaultDataset
    {
      StartupChoice(lastWorkspace, loadLastWorkspace, currentNetwork, standardWorkspace, defaultDataset)
    }

    /** What saveSettings writes in the current state. */
    ghost function SettingsToSave(): Store
      reads this`settings, this`resetSettings, this`windowSize, this`windowPos, this`windowMaximized,
        this`lastWorkspace, this`loadLastWorkspace, this`toolWindows,
        this`guiMode, this`visualizationModeState, this`networkModeState,
        this`renderWindowStateVisualizationMode, this`renderWindowStateNetworkMode, this`networkEditorWindowState,
        this`dockState, this`processorListVisible, this`propertyListVisible, this`networkEditorWidgetVisible,
        this`processorListActionEnabled, this`propertyView, renderWindow, networkEditorWindow
    {
      SavedSettings(settings, resetSettings,
        MainWindowGroup(windowSize, windowPos, windowMaximized, lastWorkspace, loadLastWorkspace, SnapshotLayout(LayoutOf())),
        toolWindows)
    }

    /**
     * The member initializers and the objects the constructor creates: no
     * mode yet, no reset, the command-line network and data set, unmodified,
     * titled, the stored settings and recent files not yet read.
     */
    constructor (network: string, dataset: string, stored: Store, recentStored: seq<string>,
                 renderHint: Size, renderInitial: WindowState, editorHint: Size, editorInitial: WindowState)
      ensures Valid() && fresh(vis) && fresh(recent) && fresh(recent.slots)
      ensures fresh(renderWindow) && fresh(networkEditorWindow)
      ensures guiMode == ModeNone && !resetSettings && settings == stored && recent.files == recentStored
      ensures currentWorkspace == "" && !windowModified && !vis.readOnlyWorkspace && !windowMaximized
      ensures currentNetwork == network && defaultDataset == dataset
      ensures title == WindowTitle("", network)
    {
      vis := new VoreenVisualization();
      recent := new RecentFileMenu(recentStored);
      renderWindow := new MdiSubWindow(renderHint, renderInitial);
      networkEditorWindow := new MdiSubWindow(editorHint, editorInitial);
      currentWorkspace, currentNetwork, lastWorkspace := "", network, "";
      windowModified, defaultDataset := false, dataset;
      title := WindowTitle("", network);
      loadLastWorkspace, resetSettings := false, false;
      guiMode := ModeNone;
      visualizationModeState, networkModeState := [], [];
      renderWindowStateVisualizationMode, renderWindowStateNetworkMode := EmptyBlob, EmptyBlob;
      networkEditorWindowState := EmptyBlob;
      dockState := [];
      processorListVisible, propertyListVisible := true, true;
      networkEditorWidgetVisible, processorListActionEnabled := true, true;
      propertyView := ListUserLevel;
      windowSize, windowPos, windowMaximized := Size(0, 0), Point(0, 0), false;
      toolWindows := [];
      settings := stored;
    }

    /**
     * The whole constructor: the window built as above, then loadSettings,
     * which reads the stored "MainWindow" group and places the window.
     */
    static method Create(network: string, dataset: string, stored: Store, recentStored: seq<string>,
                 renderHint: Size, renderInitial: WindowState, editorHint: Size, editorInitial: WindowState)
      returns (w: VoreenMainWindow)
      ensures w.Valid() && fresh(w) && fresh(w.vis) && fresh(w.recent) && fresh(w.recent.slots)
      ensures fresh(w.renderWindow) && fresh(w.networkEditorWindow)
      ensures w.guiMode == ModeNone && !w.resetSettings && w.settings == stored && w.recent.files == recentStored
      ensures w.currentWorkspace == "" && !w.windowModified && !w.vis.readOnlyWorkspace
      ensures w.currentNetwork == network && w.defaultDataset == dataset
      ensures TitleCurrent(w.SessionOf())
      ensures var p := LoadedMainWindow(stored);
        w.lastWorkspace == p.lastWorkspace && w.loadLastWorkspace == p.loadLastWorkspace &&
        w.visualizationModeState == p.visualizationModeState && w.networkModeState == p.networkModeState &&
        w.renderWindowStateVisualizationMode == p.renderWindowStateVisualizationMode &&
        w.renderWindowStateNetworkMode == p.renderWindowStateNetworkMode &&
        w.networkEditorWindowState == p.networkEditorWindowState &&
        w.windowSize == InitialWindowSize(p.size) && w.windowPos == p.pos && w.windowMaximized == p.maximized
    {
      w := new VoreenMainWindow(network, dataset, stored, recentStored, renderHint, renderInitial, editorHint, editorInitial);
      w.LoadSettings();
    }

    /** modified: a change in the network marks the window modified. */
    method Modified()
      modifies this`windowModified
      ensures SessionOf() == old(SessionOf()).(modified := true)
    {
      windowModified := true;
    }

    method UpdateWindowTitle()
      modifies this`title
      ensures title == WindowTitle(currentWorkspace, currentNetwork)
      ensures SessionOf() == Retitled(old(SessionOf()))
    {
      var t := TitleBase;
      if currentNetwork != "" || currentWorkspace != "" {
        var f := FileName(if currentWorkspace == "" then currentNetwork else currentWorkspace);
        t := t + TitleSeparator + f;
      }
      title := t;
    }

    /** setLoadLastWorkspace: the menu option's state. */
    method SetLoadLastWorkspace(checked: bool)
      modifies this`loadLastWorkspace
      ensures loadLastWorkspace == checked
    {
      loadLastWorkspace := checked;
    }

    /** saveWorkspace(filename); `saveAsChoice` is what the "Save Workspace" dialog returns if it is shown. */
    method SaveWorkspace(filename: string, saveAsChoice: Option<string>, serializerOk: bool)
      returns (written: Option<string>)
      requires Valid()
      modifies this`currentWorkspace, this`currentNetwork, this`lastWorkspace, this`windowModified, this`title,
        vis, recent, recent.slots
      decreases if saveAsChoice.Some? then 1 else 0, 1
      ensures Valid()
      ensures written == SaveWorkspaceWritten(old(SessionOf()), filename, saveAsChoice)
      ensures SessionOf() == SaveWorkspaceOutcome(old(SessionOf()), filename, saveAsChoice, serializerOk)
    {
      ghost var s0 := SessionOf();
      var f := filename;
      if f == "" && !vis.readOnlyWorkspace {
        f := currentWorkspace;
      }
      SaveWorkspaceSteps(s0, filename, saveAsChoice, serializerOk);
      if f == "" {
        written := SaveWorkspaceAs(saveAsChoice, serializerOk);
        return;
      }
      written := Some(f);
      SaveWorkspaceTo(f, serializerOk);
    }

    /** The part of saveWorkspace after the target is known: serialize, then record the file on success. */
    method SaveWorkspaceTo(f: string, serializerOk: bool)
      requires Valid()
      modifies this`currentWorkspace, this`currentNetwork, this`lastWorkspace, this`windowModified, this`title,
        vis, recent, recent.slots
      ensures Valid()
      ensures SessionOf() == WorkspaceSaved(old(SessionOf()), f, serializerOk)
    {
      ghost var s0 := SessionOf();
      var ok := vis.SaveWorkspace(serializerOk);
      if !ok {
        assert SessionOf() == s0.(readOnly := false);
        return;
      }
      currentWorkspace := f;
      lastWorkspace := currentWorkspace;
      UpdateWindowTitle();
      assert SessionOf() == Retitled(s0.(workspace := f, lastWorkspace := f, readOnly := false));
      recent.AddToRecentFiles(currentWorkspace);
    }

    /** saveWorkspaceAs: save to the file chosen in the dialog, if one was chosen. */
    method SaveWorkspaceAs(choice: Option<string>, serializerOk: bool) returns (written: Option<string>)
      requires Valid()
      modifies this`currentWorkspace, this`currentNetwork, this`lastWorkspace, this`windowModified, this`title,
        vis, recent, recent.slots
      decreases if choice.Some? then 1 else 0, 0
      ensures Valid()
      ensures written == (if choice.Some? then SaveWorkspaceWritten(old(SessionOf()), choice.value, None) else None)
      ensures SessionOf() == SaveWorkspaceAsOutcome(old(SessionOf()), choice, serializerOk)
    {
      written := None;
      if choice.Some? {
        written := SaveWorkspace(choice.value, None, serializerOk);
      }
    }

    /** askSave: ask only when the window is modified; "Yes" saves the workspace first. */
    method AskSave(answer: Answer, saveAsChoice: Option<string>, serializerOk: bool) returns (proceed: bool)
      requires Valid()
      modifies this`currentWorkspace, this`currentNetwork, this`lastWorkspace, this`windowModified, this`title,
        vis, recent, recent.slots
      ensures Valid()
      ensures proceed == AskSaveProceeds(old(windowModified), answer)
      ensures SessionOf() == AskSaveOutcome(old(SessionOf()), answer, saveAsChoice, serializerOk)
    {
      proceed := true;
      if windowModified {
        match answer
        case Yes =>
          var _ := SaveWorkspace("", saveAsChoice, serializerOk);
        case No =>
        case Cancel =>
          proceed := false;
      }
    }

    /** newWorkspace: after askSave, a new writable workspace with no files; the scene is cleared. */
    method NewWorkspace(answer: Answer, saveAsChoice: Option<string>, serializerOk: bool)
      requires Valid()
      modifies this`currentWorkspace, this`currentNetwork, this`lastWorkspace, this`windowModified, this`title,
        vis, recent, recent.slots
      ensures Valid()
      ensures SessionOf() == NewWorkspaceOutcome(old(SessionOf()), answer, saveAsChoice, serializerOk)
    {
      var proceed := AskSave(answer, saveAsChoice, serializerOk);
      if !proceed {
        return;
      }
      vis.NewWorkspace();
      currentWorkspace := "";
      currentNetwork := "";
      lastWorkspace := currentWorkspace;
      UpdateWindowTitle();
      windowModified := false;
    }

    /** openWorkspace(filename); `load` is what the workspace loader reports. */
    method OpenWorkspace(filename: string, load: WorkspaceLoad)
      requires Valid()
      modifies this`currentWorkspace, this`currentNetwork, this`lastWorkspace, this`windowModified, this`title,
        vis, recent, recent.slots
      ensures Valid()
      ensures SessionOf() == OpenWorkspaceOutcome(old(SessionOf()), filename, load)
    {
      ghost var s0 := SessionOf();
      var ok := vis.OpenWorkspace(load);
      if !ok {
        currentWorkspace := "";
        lastWorkspace := currentWorkspace;
        assert SessionOf() == s0.(workspace := "", lastWorkspace := "", readOnly := false);
        UpdateWindowTitle();
        return;
      }
      // what loading the workspace did to the modified flag
      windowModified := load.modified;
      currentWorkspace := filename;
      lastWorkspace := currentWorkspace;
      currentNetwork := "";
      ghost var s1 := s0.(workspace := filename, lastWorkspace := filename, network := "", readOnly := load.readOnly,
                          modified := load.modified);
      assert SessionOf() == s1;
      UpdateWindowTitle();
      assert SessionOf() == Retitled(s1);
      recent.AddToRecentFiles(currentWorkspace);
    }

    /** openWorkspace(): askSave, then open the file chosen in the "Open Workspace" dialog. */
    method ChooseAndOpenWorkspace(answer: Answer, saveAsChoice: Option<string>, serializerOk: bool,
                                  openChoice: Option<string>, load: WorkspaceLoad)
      requires Valid()
      modifies this`currentWorkspace, this`currentNetwork, this`lastWorkspace, this`windowModified, this`title,
        vis, recent, recent.slots
      ensures Valid()
      ensures SessionOf() == ChooseWorkspaceOutcome(old(SessionOf()), answer, saveAsChoice, serializerOk, openChoice, load)
    {
      var proceed := AskSave(answer, saveAsChoice, serializerOk);
      if !proceed {
        return;
      }
      if openChoice.Some? {
        OpenWorkspace(openChoice.value, load);
      }
    }

    /** openNetwork(filename); `loaded` is whether the network loader succeeded (and called setNetwork). */
    method OpenNetwork(filename: string, loaded: bool)
      requires Valid()
      modifies this`currentWorkspace, this`currentNetwork, this`lastWorkspace, this`windowModified, this`title,
        vis, recent, recent.slots
      ensures Valid()
      ensures SessionOf() == OpenNetworkOutcome(old(SessionOf()), filename, loaded)
    {
      if !loaded {
        return;
      }
      // setNetwork: loading emits change signals, so the flag is cleared afterwards
      ghost var s0 := SessionOf();
      windowModified := false;
      currentNetwork := filename;
      assert SessionOf() == s0.(modified := false, network := filename);
      recent.AddToRecentFiles(currentNetwork);
      assert SessionOf() == s0.(modified := false, network := filename, recentFiles := AddedToRecent(s0.recentFiles, filename));
      UpdateWindowTitle();
    }

    /** openNetwork(): askSave, then open the file chosen in the "Open Network" dialog. */
    method ChooseAndOpenNetwork(answer: Answer, saveAsChoice: Option<string>, serializerOk: bool,
                                openChoice: Option<string>, loaded: bool)
      requires Valid()
      modifies this`currentWorkspace, this`currentNetwork, this`lastWorkspace, this`windowModified, this`title,
        vis, recent, recent.slots
      ensures Valid()
      ensures SessionOf() == ChooseNetworkOutcome(old(SessionOf()), answer, saveAsChoice, serializerOk, openChoice, loaded)
    {
      var proceed := AskSave(answer, saveAsChoice, serializerOk);
      if !proceed {
        return;
      }
      if openChoice.Some? {
        OpenNetwork(openChoice.value, loaded);
      }
    }

    /** saveNetworkAs: `choice` is what the "Save Network" dialog returns, `serializerOk` whether saving succeeds. */
    method SaveNetworkAs(choice: Option<string>, serializerOk: bool) returns (saved: bool)
      requires Valid()
      modifies this`currentWorkspace, this`currentNetwork, this`lastWorkspace, this`windowModified, this`title,
        vis, recent, recent.slots
      ensures Valid()
      ensures saved <==> choice.Some? && serializerOk
      ensures SessionOf() == SaveNetworkAsOutcome(old(SessionOf()), choice, serializerOk)
    {
      if choice.None? {
        return false;
      }
      currentNetwork := choice.value;
      if !serializerOk {
        return false;
      }
      windowModified := false;
      UpdateWindowTitle();
      recent.AddToRecentFiles(currentNetwork);
      return true;
    }

    /** openRecentFile: the file of the triggered (visible) menu slot. */
    method OpenRecentFile(slot: nat, load: WorkspaceLoad, loaded: bool)
      requires Valid() && slot < MaxRecentFiles && recent.slots[slot].visible
      modifies this`currentWorkspace, this`currentNetwork, this`lastWorkspace, this`windowModified, this`title,
        vis, recent, recent.slots
      ensures Valid()
      ensures slot < |old(recent.files)|
      ensures SessionOf() == OpenRecentOutcome(old(SessionOf()), slot, load, loaded)
    {
      var file := recent.slots[slot].data;
      if EndsWithIgnoringCase(file, WorkspaceSuffix) {
        OpenWorkspace(file, load);
      } else {
        OpenNetwork(file, loaded);
      }
    }

    /** The visualization layout is saved: saveState and the render window's saveGeometry. */
    method SaveVisualizationModeLayout()
      modifies this`visualizationModeState, this`renderWindowStateVisualizationMode
      ensures LayoutOf() == SaveVisualizationLayout(old(LayoutOf()))
    {
      visualizationModeState := dockState;
      renderWindowStateVisualizationMode := renderWindow.SaveGeometry();
    }

    /** The network layout is saved: saveState and both sub-windows' saveGeometry. */
    method SaveNetworkModeLayout()
      modifies this`networkModeState, this`renderWindowStateNetworkMode, this`networkEditorWindowState
      ensures LayoutOf() == SaveNetworkLayout(old(LayoutOf()))
    {
      networkModeState := dockState;
      renderWindowStateNetworkMode := renderWindow.SaveGeometry();
      networkEditorWindowState := networkEditorWindow.SaveGeometry();
    }

    /** Hiding the network editor's sub-window. */
    method HideEditorWindow()
      requires renderWindow != networkEditorWindow
      modifies networkEditorWindow
      ensures LayoutOf() == old(LayoutOf()).(editor := Hidden(old(LayoutOf()).editor))
    {
      networkEditorWindow.Hide();
    }

    /** Hiding the render sub-window. */
    method HideRenderWindow()
      requires renderWindow != networkEditorWindow
      modifies renderWindow
      ensures LayoutOf() == old(LayoutOf()).(render := Hidden(old(LayoutOf()).render))
    {
      renderWindow.Hide();
    }

    /** The network editor's sub-window takes the saved geometry and is shown (maximized when the record is refused). */
    method RestoreEditorWindow(blob: GeometryBlob)
      requires renderWindow != networkEditorWindow
      modifies networkEditorWindow
      ensures LayoutOf() == old(LayoutOf()).(editor := RestoredAndShown(old(LayoutOf()).editor, blob, networkEditorWindow.sizeHint, true))
    {
      var _ := networkEditorWindow.RestoreAndShow(blob, true);
    }

    /** The render sub-window takes the saved geometry and is shown (maximized or normal when the record is refused). */
    method RestoreRenderWindow(blob: GeometryBlob, maximizeOnFailure: bool)
      requires renderWindow != networkEditorWindow
      modifies renderWindow
      ensures LayoutOf() == old(LayoutOf()).(render := RestoredAndShown(old(LayoutOf()).render, blob, renderWindow.sizeHint, maximizeOnFailure))
    {
      var _ := renderWindow.RestoreAndShow(blob, maximizeOnFailure);
    }

    /** restoreState: the saved dock layout when accepted, else the fallback visibility of the tool windows. */
    method RestoreDockState(saved: seq<bv8>, accepted: bool, processorListFallback: bool)
      modifies this`dockState, this`processorListVisible, this`propertyListVisible
      ensures LayoutOf() == RestoreDock(old(LayoutOf()), saved, accepted, processorListFallback)
    {
      if DockRestored(saved, accepted) {
        dockState := saved;
      } else {
        processorListVisible, propertyListVisible := processorListFallback, true;
      }
    }

    /** Showing or hiding the network editor widget. */
    method SetEditorWidgetVisible(visible: bool)
      modifies this`networkEditorWidgetVisible
      ensures LayoutOf() == old(LayoutOf()).(networkEditorWidgetVisible := visible)
    {
      networkEditorWidgetVisible := visible;
    }

    /** The last steps of a switch: the property list's state, the processor-list action, the mode itself. */
    method SetModeControls(view: PropertyView, processorListAction: bool, m: GuiMode)
      modifies this`propertyView, this`processorListActionEnabled, this`guiMode
      ensures LayoutOf() == old(LayoutOf()).(propertyView := view, processorListActionEnabled := processorListAction, mode := m)
    {
      propertyView := view;
      processorListActionEnabled := processorListAction;
      guiMode := m;
    }

    /** setGuiMode's steps for visualization mode once the left layout is saved. */
    method EnterVisualizationMode(accepted: bool)
      requires Valid()
      modifies this`guiMode, this`dockState, this`processorListVisible, this`propertyListVisible,
        this`networkEditorWidgetVisible, this`processorListActionEnabled, this`propertyView,
        renderWindow, networkEditorWindow
      ensures LayoutOf() == EnterVisualization(old(LayoutOf()), accepted)
    {
      // hide all first to prevent some flicker
      HideEditorWindow();
      SetEditorWidgetVisible(false);
      HideRenderWindow();
      RestoreDockState(visualizationModeState, accepted, false);
      RestoreRenderWindow(renderWindowStateVisualizationMode, true);
      SetModeControls(ListUserLevel, false, ModeVisualization);
    }

    /** setGuiMode's steps for network mode once the left layout is saved. */
    method EnterNetworkMode(accepted: bool)
      requires Valid()
      modifies this`guiMode, this`dockState, this`processorListVisible, this`propertyListVisible,
        this`networkEditorWidgetVisible, this`processorListActionEnabled, this`propertyView,
        renderWindow, networkEditorWindow
      ensures LayoutOf() == EnterNetwork(old(LayoutOf()), accepted)
    {
      HideEditorWindow();
      RestoreDockState(networkModeState, accepted, true);
      RestoreEditorWindow(networkEditorWindowState);
      // the editor widget is shown only now, so that it gets the right size
      SetEditorWidgetVisible(true);
      RestoreRenderWindow(renderWindowStateNetworkMode, false);
      SetModeControls(SingleDeveloperLevel, true, ModeNetwork);
    }

    /**
     * setGuiMode: save the layout of the mode being left (only between the
     * two modes), then restore the dock layout and the sub-windows of the
     * new one.
     */
    method SetGuiMode(m: GuiMode, accepted: bool)
      requires Valid()
      modifies this`guiMode, this`visualizationModeState, this`networkModeState,
        this`renderWindowStateVisualizationMode, this`renderWindowStateNetworkMode, this`networkEditorWindowState,
        this`dockState, this`processorListVisible, this`propertyListVisible, this`networkEditorWidgetVisible,
        this`processorListActionEnabled, this`propertyView,
        renderWindow, networkEditorWindow
      ensures LayoutOf() == ModeSwitch(old(LayoutOf()), m, accepted)
    {
      if guiMode == m {
        return;
      }
      if m == ModeVisualization {
        if guiMode == ModeNetwork {
          SaveNetworkModeLayout();
        }
        EnterVisualizationMode(accepted);
      } else if m == ModeNetwork {
        if guiMode == ModeVisualization {
          SaveVisualizationModeLayout();
        }
        EnterNetworkMode(accepted);
      } else {
        guiMode := m;
      }
    }

    /** guiModeChanged: switch to the mode whose action is checked, if either is. */
    method GuiModeChanged(visualizationChecked: bool, networkChecked: bool, accepted: bool)
      requires Valid()
      modifies this`guiMode, this`visualizationModeState, this`networkModeState,
        this`renderWindowStateVisualizationMode, this`renderWindowStateNetworkMode, this`networkEditorWindowState,
        this`dockState, this`processorListVisible, this`propertyListVisible, this`networkEditorWidgetVisible,
        this`processorListActionEnabled, this`propertyView,
        renderWindow, networkEditorWindow
      ensures LayoutOf() ==
        if visualizationChecked then ModeSwitch(old(LayoutOf()), ModeVisualization, accepted)
        else if networkChecked then ModeSwitch(old(LayoutOf()), ModeNetwork, accepted)
        else old(LayoutOf())
    {
      if visualizationChecked {
        SetGuiMode(ModeVisualization, accepted);
      } else if networkChecked {
        SetGuiMode(ModeNetwork, accepted);
      }
    }

    /**
     * saveSettings: the reset flag and the format version, the current
     * mode's layout (saved first), the "MainWindow" group and the tool
     * windows.
     */
    method SaveSettings()
      modifies this`visualizationModeState, this`networkModeState,
        this`renderWindowStateVisualizationMode, this`renderWindowStateNetworkMode, this`networkEditorWindowState,
        this`settings
      ensures LayoutOf() == SnapshotLayout(old(LayoutOf()))
      ensures settings == old(SettingsToSave())
    {
      var s := settings[ResetSettingsKey := Flag(resetSettings)];
      s := s[ConfigVersionKey := Number(ConfigVersion)];
      if guiMode == ModeVisualization {
        SaveVisualizationModeLayout();
      } else if guiMode == ModeNetwork {
        SaveNetworkModeLayout();
      }
      s := StoredMainWindow(s,
        MainWindowSettings(windowSize, windowPos, windowMaximized, lastWorkspace, loadLastWorkspace,
                           visualizationModeState, networkModeState,
                           renderWindowStateVisualizationMode, renderWindowStateNetworkMode, networkEditorWindowState,
                           guiMode == ModeVisualization));
      ghost var base := s;
      for i := 0 to |toolWindows|
        invariant s == StoredToolWindows(base, toolWindows[..i])
      {
        assert toolWindows[..i + 1][..i] == toolWindows[..i];
        s := StoredToolWindow(s, toolWindows[i]);
      }
      assert toolWindows[..|toolWindows|] == toolWindows;
      settings := s;
    }

    /**
     * loadSettings: unless the settings are being reset, the "MainWindow"
     * group is read back; then the window is sized (1024 x 768 when no size
     * is stored), placed, and maximized when so stored.
     */
    method LoadSettings()
      modifies this`lastWorkspace, this`loadLastWorkspace, this`visualizationModeState, this`networkModeState,
        this`renderWindowStateVisualizationMode, this`renderWindowStateNetworkMode, this`networkEditorWindowState,
        this`windowSize, this`windowPos, this`windowMaximized
      ensures var p := LoadedMainWindow(settings);
        windowSize == (if resetSettings then DefaultWindowSize else InitialWindowSize(p.size)) &&
        windowPos == (if resetSettings then Point(0, 0) else p.pos) &&
        windowMaximized == (old(windowMaximized) || resetSettings || p.maximized)
      ensures var p := LoadedMainWindow(settings);
        !resetSettings ==>
          lastWorkspace == p.lastWorkspace && loadLastWorkspace == p.loadLastWorkspace &&
          visualizationModeState == p.visualizationModeState && networkModeState == p.networkModeState &&
          renderWindowStateVisualizationMode == p.renderWindowStateVisualizationMode &&
          renderWindowStateNetworkMode == p.renderWindowStateNetworkMode &&
          networkEditorWindowState == p.networkEditorWindowState
      ensures resetSettings ==>
        lastWorkspace == old(lastWorkspace) && loadLastWorkspace == old(loadLastWorkspace) &&
        visualizationModeState == old(visualizationModeState) && networkModeState == old(networkModeState) &&
        renderWindowStateVisualizationMode == old(renderWindowStateVisualizationMode) &&
        renderWindowStateNetworkMode == old(renderWindowStateNetworkMode) &&
        networkEditorWindowState == old(networkEditorWindowState)
    {
      var size := Size(0, 0);
      var position := Point(0, 0);
      var maximized := true;
      if !resetSettings {
        var p := LoadedMainWindow(settings);
        size, position, maximized := p.size, p.pos, p.maximized;
        ReadMainWindowGroup(p);
      }
      PlaceWindow(size, position, maximized);
    }

    /** The part of the "MainWindow" group loadSettings keeps in fields. */
    method ReadMainWindowGroup(p: MainWindowSettings)
      modifies this`lastWorkspace, this`loadLastWorkspace, this`visualizationModeState, this`networkModeState,
        this`renderWindowStateVisualizationMode, this`renderWindowStateNetworkMode, this`networkEditorWindowState
      ensures lastWorkspace == p.lastWorkspace && loadLastWorkspace == p.loadLastWorkspace
      ensures visualizationModeState == p.visualizationModeState && networkModeState == p.networkModeState
      ensures renderWindowStateVisualizationMode == p.renderWindowStateVisualizationMode
      ensures renderWindowStateNetworkMode == p.renderWindowStateNetworkMode
      ensures networkEditorWindowState == p.networkEditorWindowState
    {
      lastWorkspace := p.lastWorkspace;
      loadLastWorkspace := p.loadLastWorkspace;
      visualizationModeState := p.visualizationModeState;
      networkModeState := p.networkModeState;
      renderWindowStateVisualizationMode := p.renderWindowStateVisualizationMode;
      renderWindowStateNetworkMode := p.renderWindowStateNetworkMode;
      networkEditorWindowState := p.networkEditorWindowState;
    }

    /** Sizing and placing the main window: a null size becomes 1024 x 768; maximizing only ever adds the flag. */
    method PlaceWindow(size: Size, position: Point, maximized: bool)
      modifies this`windowSize, this`windowPos, this`windowMaximized
      ensures windowSize == InitialWindowSize(size) && windowPos == position
      ensures windowMaximized == (old(windowMaximized) || maximized)
    {
      if IsNullSize(size) {
        windowSize := DefaultWindowSize;
      } else {
        windowSize := size;
      }
      windowPos := position;
      if maximized {
        windowMaximized := true;
      }
    }

    /**
     * loadWindowSettings: unless the settings are being reset, every tool
     * window takes its stored geometry; then the stored mode is entered
     * (network mode when none is stored).
     */
    method LoadWindowSettings(accepted: bool)
      requires Valid()
      modifies this`toolWindows, this`guiMode, this`visualizationModeState, this`networkModeState,
        this`renderWindowStateVisualizationMode, this`renderWindowStateNetworkMode, this`networkEditorWindowState,
        this`dockState, this`processorListVisible, this`propertyListVisible, this`networkEditorWidgetVisible,
        this`processorListActionEnabled, this`propertyView,
        renderWindow, networkEditorWindow
      ensures toolWindows == if resetSettings then old(toolWindows) else RestoredToolWindows(settings, old(toolWindows))
      ensures LayoutOf() == ModeSwitch(old(LayoutOf()),
        if BoolAt(settings, VisualizationModeKey, false) then ModeVisualization else ModeNetwork, accepted)
    {
      if !resetSettings {
        RestoreToolWindows();
      }
      var visualizationMode := BoolAt(settings, VisualizationModeKey, false);
      SetGuiMode(if visualizationMode then ModeVisualization else ModeNetwork, accepted);
    }

    /** Every tool window takes its stored geometry and visibility. */
    method RestoreToolWindows()
      modifies this`toolWindows
      ensures toolWindows == RestoredToolWindows(settings, old(toolWindows))
    {
      var tools := toolWindows;
      for i := 0 to |tools|
        invariant |tools| == |toolWindows|
        invariant forall k :: 0 <= k < i ==> tools[k] == RestoredToolWindow(settings, toolWindows[k])
        invariant forall k :: i <= k < |tools| ==> tools[k] == toolWindows[k]
      {
        tools := tools[i := RestoredToolWindow(settings, tools[i])];
      }
      toolWindows := tools;
    }

    /**
     * init once the window is built: create the tool windows, restore the
     * session, acknowledge a reset, then load what StartupChoice picks and
     * return the data set to load after it.
     */
    method Init(tools: seq<ToolWindow>, accepted: bool, standardWorkspace: string,
                load: WorkspaceLoad, loaded: bool) returns (dataset: Option<string>)
      requires Valid()
      modifies this`toolWindows, this`resetSettings, this`currentWorkspace, this`currentNetwork, this`lastWorkspace, this`windowModified, this`title,
        vis, recent, recent.slots, this`guiMode, this`visualizationModeState, this`networkModeState,
        this`renderWindowStateVisualizationMode, this`renderWindowStateNetworkMode, this`networkEditorWindowState,
        this`dockState, this`processorListVisible, this`propertyListVisible, this`networkEditorWidgetVisible,
        this`processorListActionEnabled, this`propertyView,
        renderWindow, networkEditorWindow
      ensures Valid()
      ensures dataset == old(StartupPlanOf(standardWorkspace)).dataset
      ensures SessionOf() == StartupOutcome(old(SessionOf()), old(StartupPlanOf(standardWorkspace)).load, load, loaded)
      ensures toolWindows == if old(resetSettings) then tools else RestoredToolWindows(settings, tools)
      ensures !resetSettings
    {
      RestoreWindows(tools, accepted);
      dataset := StartupLoad(standardWorkspace, load, loaded);
    }

    /**
     * The first steps of init: the tool windows are created and restored
     * (with the layout LoadWindowSettings states), and a reset is acknowledged.
     */
    method RestoreWindows(tools: seq<ToolWindow>, accepted: bool)
      requires Valid()
      modifies this`toolWindows, this`resetSettings, this`guiMode, this`visualizationModeState, this`networkModeState,
        this`renderWindowStateVisualizationMode, this`renderWindowStateNetworkMode, this`networkEditorWindowState,
        this`dockState, this`processorListVisible, this`propertyListVisible, this`networkEditorWidgetVisible,
        this`processorListActionEnabled, this`propertyView,
        renderWindow, networkEditorWindow
      ensures toolWindows == if old(resetSettings) then tools else RestoredToolWindows(settings, tools)
      ensures !resetSettings
    {
      toolWindows := tools;
      LoadWindowSettings(accepted);
      if resetSettings {
        resetSettings := false;
      }
    }

    /** The loading step of init: the file StartupChoice picks is opened, and its data set returned. */
    method StartupLoad(standardWorkspace: string, load: WorkspaceLoad, loaded: bool) returns (dataset: Option<string>)
      requires Valid()
      modifies this`currentWorkspace, this`currentNetwork, this`lastWorkspace, this`windowModified, this`title,
        vis, recent, recent.slots
      ensures Valid()
      ensures dataset == old(StartupPlanOf(standardWorkspace)).dataset
      ensures SessionOf() == StartupOutcome(old(SessionOf()), old(StartupPlanOf(standardWorkspace)).load, load, loaded)
    {
      ghost var plan := StartupPlanOf(standardWorkspace);
      if lastWorkspace != "" && loadLastWorkspace {
        assert plan == StartupPlan(WorkspaceFile(lastWorkspace), None);
        dataset := None;
        OpenWorkspace(lastWorkspace, load);
      } else {
        dataset := if defaultDataset != "" then Some(defaultDataset) else None;
        if currentNetwork != "" {
          assert plan == StartupPlan(NetworkFile(currentNetwork), dataset);
          OpenNetwork(currentNetwork, loaded);
        } else {
          assert plan == StartupPlan(WorkspaceFile(standardWorkspace), dataset);
          OpenWorkspace(standardWorkspace, load);
        }
      }
    }

    /**
     * closeEvent: save the settings, then ask to save a writable current
     * workspace; "Yes" saves it, "Cancel" keeps the window open.
     */
    method CloseEvent(answer: Answer, saveAsChoice: Option<string>, serializerOk: bool) returns (accepted: bool)
      requires Valid()
      modifies this`currentWorkspace, this`currentNetwork, this`lastWorkspace, this`windowModified, this`title,
        vis, recent, recent.slots, this`visualizationModeState, this`networkModeState,
        this`renderWindowStateVisualizationMode, this`renderWindowStateNetworkMode, this`networkEditorWindowState,
        this`settings
      ensures Valid()
      ensures accepted == CloseAccepted(old(SessionOf()), answer)
      ensures SessionOf() == CloseOutcome(old(SessionOf()), answer, saveAsChoice, serializerOk)
      ensures settings == old(SettingsToSave())
    {
      SaveSettings();
      accepted := AskSaveOnClose(answer, saveAsChoice, serializerOk);
    }

    /** closeEvent's question, asked only for a writable current workspace. */
    method AskSaveOnClose(answer: Answer, saveAsChoice: Option<string>, serializerOk: bool) returns (accepted: bool)
      requires Valid()
      modifies this`currentWorkspace, this`currentNetwork, this`lastWorkspace, this`windowModified, this`title,
        vis, recent, recent.slots
      ensures Valid()
      ensures accepted == CloseAccepted(old(SessionOf()), answer)
      ensures SessionOf() == CloseOutcome(old(SessionOf()), answer, saveAsChoice, serializerOk)
    {
      accepted := true;
      if currentWorkspace != "" && !vis.readOnlyWorkspace {
        match answer
        case Yes =>
          var _ := SaveWorkspace("", saveAsChoice, serializerOk);
        case No =>
        case Cancel =>
          accepted := false;
      }
    }
  }
}
