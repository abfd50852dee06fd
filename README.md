# VoreenVE main window: session bookkeeping, settings and GUI modes

This project models the part of VoreenVE's main window (`VoreenMainWindow` in
`apps/voreenve/voreenmainwindow.cpp`) that keeps track of the user's session,
and proves properties of it. The model covers:

- **File bookkeeping.** It tracks the current workspace and network, the last
  workspace, the read-only flag of `VoreenVisualization` and the window's
  modified flag. It covers what `newWorkspace`, `openWorkspace`,
  `saveWorkspace`, `saveWorkspaceAs`, `askSave`, `openNetwork`,
  `saveNetworkAs`, `openRecentFile` and `closeEvent` do to them, and how
  `updateWindowTitle` derives the title.
- **Recent files.** The list is kept most recent first with at most five
  entries (`addToRecentFiles`). Five File-menu actions show it
  (`updateRecentFiles`).
- **Sub-window geometry.** `VoreenMdiSubWindow` saves a geometry record
  (magic number, version, frame and normal rectangles, maximized flag) and
  restores it with header checks and fallback rectangles.
- **GUI modes.** `setGuiMode` switches between visualization mode and network
  mode, saving the layout of the mode it leaves and restoring the layout of the
  mode it enters. `saveSettings` snapshots the current mode's layout.
- **Settings.** `loadSettings` and `loadWindowSettings` read settings back, and
  `saveSettings` writes them. This includes the default window size, the
  tool-window position rule and what `init` loads at start-up.

The code is mixed in style, and the model follows it:

- Stateful objects are classes: `VoreenMainWindow`, `VoreenVisualization`,
  `VoreenMdiSubWindow`, and the recent-file menu with its five actions in an
  `array`.
- Each method is proved against a function on values. For example,
  `SessionOf() == OpenWorkspaceOutcome(old(SessionOf()), …)` and
  `LayoutOf() == ModeSwitch(old(LayoutOf()), …)`.
- The properties the source promises are lemmas about those functions.

Outside inputs are parameters:

- what a message box answers;
- what a file dialog returns;
- whether the workspace or network serializer succeeds;
- whether `QMainWindow::restoreState` accepts a record.

## Model

| member | source | states |
|---|---|---|
| Geometry.RectAt | apps/voreenve/voreenmainwindow.cpp:364-368 | QRect(point, size) has that corner and extent; it is valid exactly when both extents are positive |
| Geometry.EncodeGeometry | apps/voreenve/voreenmainwindow.cpp:314-329 | the record is 41 bytes: magic 0x1234FFFF, version 1.0, the frame and normal rectangles, and a last byte that is non-zero exactly when the window is maximized |
| Geometry.DecodeGeometry | apps/voreenve/voreenmainwindow.cpp:333-368 | refused exactly when shorter than 4 bytes, with another magic number or with a major version other than 1; otherwise the maximized flag is read back, an invalid frame becomes (0,0) plus the size hint and an invalid normal rectangle becomes (0,20) plus the size hint |
| Geometry.DecodeAfterEncode | apps/voreenve/voreenmainwindow.cpp:318-368 | what saveGeometry writes passes every check of restoreGeometry and yields the same rectangles and flag |
| Geometry.DecodeIgnoresMinorVersion | apps/voreenve/voreenmainwindow.cpp:349-353 | the minor version never changes the outcome |
| Geometry.DecodedRectanglesAreValid | apps/voreenve/voreenmainwindow.cpp:363-368 | with a proper size hint, every restored rectangle is valid |
| Geometry.Placed | apps/voreenve/voreenmainwindow.cpp:370-383 | a maximized record sets the normal rectangle and adds the maximized state; otherwise maximized and full-screen are cleared, the window moves to the frame's corner and takes the normal rectangle's size; visibility is untouched |
| Geometry.RestoreAfterSave | apps/voreenve/voreenmainwindow.cpp:314-383 | a normal window that is saved and later restored, whatever happened in between, is back on its rectangle, not maximized and not full-screen |
| Geometry.RestoreAfterSaveMaximized | apps/voreenve/voreenmainwindow.cpp:314-377 | a maximized window that is saved and restored is maximized again over its normal rectangle (the frame of a maximized sub-window stands for its normal rectangle; the MDI area is not modelled) |
| Geometry.MdiSubWindow.constructor | apps/voreenve/voreenmainwindow.cpp:306-311 | the sub-window starts in the given state with the given size hint, the sub-window's own sizeHint() that restoreGeometry uses (365, 368) |
| Geometry.MdiSubWindow.SaveGeometry | apps/voreenve/voreenmainwindow.cpp:314-329 | returns the encoding of the current rectangles and flag; restoreGeometry accepts it |
| Geometry.MdiSubWindow.RestoreGeometry | apps/voreenve/voreenmainwindow.cpp:333-385 | returns true exactly when the record passes the checks; the new state is the placement of the decoded record, or unchanged when refused |
| Geometry.MdiSubWindow.Show | apps/voreenve/voreenmainwindow.cpp:1556 | only visibility changes, to shown |
| Geometry.MdiSubWindow.Hide | apps/voreenve/voreenmainwindow.cpp:1546 | only visibility changes, to hidden |
| Geometry.MdiSubWindow.ShowMaximized | apps/voreenve/voreenmainwindow.cpp:1558 | shown, maximized, neither full-screen nor minimized |
| Geometry.MdiSubWindow.ShowNormal | apps/voreenve/voreenmainwindow.cpp:1587 | shown, neither maximized, full-screen nor minimized |
| Geometry.MdiSubWindow.RestoreAndShow | apps/voreenve/voreenmainwindow.cpp:1555-1558 | restoreGeometry, then show when it succeeded, else showMaximized or showNormal as the caller chooses |
| Geometry.MdiSubWindow.CloseEvent | apps/voreenve/voreenmainwindow.cpp:387-390 | closing is refused and the window is minimized instead |
| Modes.SnapshotLayout | apps/voreenve/voreenmainwindow.cpp:1004-1011 | in visualization mode, saveSettings saves the dock state and the render window's geometry as the visualization records; in network mode, the dock state and both sub-windows' geometry as the network records; every other field, the other mode's records included, stays; in no mode nothing changes |
| Modes.EnterVisualization | apps/voreenve/voreenmainwindow.cpp:1545-1562 | entering visualization mode sets the mode and leaves every saved record as it was |
| Modes.EnterNetwork | apps/voreenve/voreenmainwindow.cpp:1570-1592 | entering network mode sets the mode and leaves every saved record as it was |
| Modes.ModeSwitch | apps/voreenve/voreenmainwindow.cpp:1531-1598 | afterwards the mode is the one asked for; asking for the current mode changes nothing |
| Modes.ModeSwitchSavesOnlyLeftMode | apps/voreenve/voreenmainwindow.cpp:1538-1568 | of the five saved records, setGuiMode overwrites exactly those of the mode it leaves when it enters the other mode (dock state, render-window geometry and, for network mode, the editor geometry); all others keep their values |
| Modes.ModeSwitchSavesLikeSaveSettings | apps/voreenve/voreenmainwindow.cpp:1538-1568 | leaving one mode for the other saves the same records that saveSettings (1004-1011) would save in that mode |
| Modes.ModeSwitchIdempotent | apps/voreenve/voreenmainwindow.cpp:1532-1533 | asking for the same mode twice does nothing the second time |
| Modes.VisualizationLayoutSurvivesRoundTrip | apps/voreenve/voreenmainwindow.cpp:1538-1568 | after visualization mode → network mode → visualization mode, a normal render window is back on its rectangle, shown and not maximized, and the visualization records are the ones saved on leaving |
| MainWindow.WindowTitle | apps/voreenve/voreenmainwindow.cpp:1513-1522 | the title always starts with "VoreenVE [*]"; it is exactly that when there is neither workspace nor network, and otherwise it is followed by " - " and the file name of the workspace, or of the network when there is no workspace |
| MainWindow.TitleNamesWorkspaceFile | apps/voreenve/voreenmainwindow.cpp:1516-1518 | for a workspace `dir/name`, the title ends in `name` whatever network is current |
| MainWindow.TitleNamesNetworkFile | apps/voreenve/voreenmainwindow.cpp:1516-1518 | with no workspace, the title ends in the network's file name |
| MainWindow.AskSaveProceeds | apps/voreenve/voreenmainwindow.cpp:1118-1133 | askSave lets the caller go on unless the window is modified and the answer is Cancel |
| MainWindow.SaveTarget | apps/voreenve/voreenmainwindow.cpp:1196-1198 | an explicit name wins; without one, the current workspace is used unless it is read-only; an empty target means "ask" |
| MainWindow.Retitled | apps/voreenve/voreenmainwindow.cpp:1513-1522 | after updateWindowTitle the title matches the current files and nothing else changed |
| MainWindow.CloseAccepted | apps/voreenve/voreenmainwindow.cpp:1365-1379 | the window refuses to close exactly when it asks (a writable current workspace) and the answer is Cancel |
| MainWindow.SaveWorkspaceWritesTarget | apps/voreenve/voreenmainwindow.cpp:1195-1203 | saveWorkspace serializes the given file, else the current writable workspace, else the file chosen in the save-as dialog, else nothing |
| MainWindow.SaveWorkspaceWithoutTargetChangesNothing | apps/voreenve/voreenmainwindow.cpp:1200-1203 | a save that never reaches the serializer leaves the session as it was |
| MainWindow.SaveWorkspaceSuccess | apps/voreenve/voreenmainwindow.cpp:1205-1217 | after a successful save the file is the current and the last workspace, it is writable, it is first among the recent files and named in the title; the network and the modified flag are unchanged |
| MainWindow.SaveWorkspaceFailureKeepsFiles | apps/voreenve/voreenmainwindow.cpp:1205-1212 | a failed save keeps the current and last workspace, the network, the title, the recent files and the modified flag |
| MainWindow.SaveWorkspaceKeepsModified | apps/voreenve/voreenmainwindow.cpp:1195-1218 | saving never changes the modified flag |
| MainWindow.CancelChangesNothing | apps/voreenve/voreenmainwindow.cpp:1118-1133 | on a modified window, Cancel leaves the session unchanged for newWorkspace, openWorkspace() and openNetwork() |
| MainWindow.NewWorkspaceIsEmpty | apps/voreenve/voreenmainwindow.cpp:1135-1150 | a new workspace has no workspace, network or last workspace, is writable and unmodified, and shows the bare title |
| MainWindow.OpenWorkspaceSuccess | apps/voreenve/voreenmainwindow.cpp:1167-1173 | an opened workspace is the current and the last workspace and takes the loaded read-only flag and the modified flag loading left; the network is dropped; the file is first and only once among the recent files; the title is current |
| MainWindow.OpenWorkspaceFailure | apps/voreenve/voreenmainwindow.cpp:1157-1164 | a failed load leaves no current and no last workspace and a writable flag; the network and the recent files are kept; the title is current |
| MainWindow.OpenNetworkKeepsWorkspace | apps/voreenve/voreenmainwindow.cpp:1067-1073 | an opened network is current and first among the recent files; the window is unmodified; the workspace stays and keeps naming the title |
| MainWindow.SavingKeepsTitleCurrent | apps/voreenve/voreenmainwindow.cpp:1083-1236 | saveWorkspace, askSave, newWorkspace and a successful saveNetworkAs keep the title in step with the current files, and so does closeEvent (1361-1381) |
| MainWindow.OpeningKeepsTitleCurrent | apps/voreenve/voreenmainwindow.cpp:1050-1193 | openWorkspace and openNetwork, with or without a dialog and whether the load succeeds or not, keep the title in step with the current files |
| MainWindow.SaveNetworkAsFailureLeavesStaleTitle | apps/voreenve/voreenmainwindow.cpp:1095-1105 | a failed saveNetworkAs has already changed the current network, while the title and the modified flag stay, so the title names the old network whenever the file names differ |
| MainWindow.OpenRecentDispatch | apps/voreenve/voreenmainwindow.cpp:1252-1261 | an entry ending in ".vws" in any case opens as a workspace; every other entry opens as a network |
| MainWindow.CloseSavesOnlyWhenAsked | apps/voreenve/voreenmainwindow.cpp:1361-1381 | without a writable current workspace, closing neither asks nor saves; with one, "Yes" saves to the current workspace |
| MainWindow.MainWindowGroup | apps/voreenve/voreenmainwindow.cpp:1013-1024 | the "MainWindow" group holds the last workspace, the option, both dock records, and visualizationMode exactly when in visualization mode |
| MainWindow.VoreenMainWindow.constructor | apps/voreenve/voreenmainwindow.cpp:412-436 | no mode, no reset, the network and data set from the command line, no workspace, unmodified, the title of that network |
| MainWindow.VoreenMainWindow.Create | apps/voreenve/voreenmainwindow.cpp:412-436 | the constructed window in full: as the constructor plus loadSettings, so the last workspace, the option, the records and the window's size, position and maximized state come from the stored "MainWindow" group; the title is current |
| MainWindow.VoreenMainWindow.Modified | apps/voreenve/voreenmainwindow.cpp:1495-1497 | only the modified flag changes, and it becomes set |
| MainWindow.VoreenMainWindow.UpdateWindowTitle | apps/voreenve/voreenmainwindow.cpp:1513-1522 | the title becomes WindowTitle of the current files; the rest of the session is unchanged |
| MainWindow.VoreenMainWindow.SetLoadLastWorkspace | apps/voreenve/voreenmainwindow.cpp:1455-1457 | the option takes the menu action's state |
| MainWindow.VoreenMainWindow.SaveWorkspace | apps/voreenve/voreenmainwindow.cpp:1195-1218 | returns the file handed to the serializer and leaves the session as SaveWorkspaceOutcome says |
| MainWindow.VoreenMainWindow.SaveWorkspaceTo | apps/voreenve/voreenmainwindow.cpp:1205-1217 | with the target known: on success the file becomes current and last workspace, retitled and recent; on failure only the read-only flag is cleared |
| MainWindow.VoreenMainWindow.SaveWorkspaceAs | apps/voreenve/voreenmainwindow.cpp:1220-1236 | saves to the chosen file, or does nothing when the dialog is cancelled |
| MainWindow.VoreenMainWindow.AskSave | apps/voreenve/voreenmainwindow.cpp:1118-1133 | returns AskSaveProceeds; only "Yes" on a modified window saves |
| MainWindow.VoreenMainWindow.NewWorkspace | apps/voreenve/voreenmainwindow.cpp:1135-1150 | the session becomes NewWorkspaceOutcome |
| MainWindow.VoreenMainWindow.OpenWorkspace | apps/voreenve/voreenmainwindow.cpp:1152-1175 | the session becomes OpenWorkspaceOutcome for the loader's report: on failure no current or last workspace; on success the file is current, last and recent, the network is dropped, and the read-only and modified flags are the ones loading left |
| MainWindow.VoreenMainWindow.ChooseAndOpenWorkspace | apps/voreenve/voreenmainwindow.cpp:1177-1193 | askSave, then opening the chosen file if there is one |
| MainWindow.VoreenMainWindow.OpenNetwork | apps/voreenve/voreenmainwindow.cpp:1067-1081 | the session becomes OpenNetworkOutcome: unchanged on failure; on success unmodified, with the network current, recent and in the title |
| MainWindow.VoreenMainWindow.ChooseAndOpenNetwork | apps/voreenve/voreenmainwindow.cpp:1050-1065 | askSave, then opening the chosen network if there is one |
| MainWindow.VoreenMainWindow.SaveNetworkAs | apps/voreenve/voreenmainwindow.cpp:1083-1116 | returns true exactly when a file was chosen and saved; the session becomes SaveNetworkAsOutcome |
| MainWindow.VoreenMainWindow.OpenRecentFile | apps/voreenve/voreenmainwindow.cpp:1252-1261 | a visible slot holds a listed file, which is opened as a workspace or as a network by its suffix |
| MainWindow.VoreenMainWindow.SaveVisualizationModeLayout | apps/voreenve/voreenmainwindow.cpp:1566-1567 | stores the dock state and the render window's geometry as the visualization records |
| MainWindow.VoreenMainWindow.SaveNetworkModeLayout | apps/voreenve/voreenmainwindow.cpp:1540-1542 | stores the dock state and both sub-windows' geometry as the network records |
| MainWindow.VoreenMainWindow.RestoreDockState | apps/voreenve/voreenmainwindow.cpp:1550-1553 | an accepted non-empty record becomes the dock state; otherwise the fallback visibility of the tool windows applies |
| MainWindow.VoreenMainWindow.EnterVisualizationMode | apps/voreenve/voreenmainwindow.cpp:1545-1562 | the layout becomes EnterVisualization of the old one |
| MainWindow.VoreenMainWindow.EnterNetworkMode | apps/voreenve/voreenmainwindow.cpp:1570-1592 | the layout becomes EnterNetwork of the old one |
| MainWindow.VoreenMainWindow.SetGuiMode | apps/voreenve/voreenmainwindow.cpp:1531-1598 | the layout becomes ModeSwitch of the old one |
| MainWindow.VoreenMainWindow.GuiModeChanged | apps/voreenve/voreenmainwindow.cpp:1524-1529 | switches to the checked mode, preferring visualization mode; does nothing when neither is checked |
| MainWindow.VoreenMainWindow.SaveSettings | apps/voreenve/voreenmainwindow.cpp:997-1046 | the current mode's layout is snapshotted; the store becomes the reset flag, the format version, the "MainWindow" group of the snapshot and the tool windows, written over the old store; the option goes under the key loadSettings reads (the corrected group of "## Findings") |
| MainWindow.VoreenMainWindow.LoadSettings | apps/voreenve/voreenmainwindow.cpp:922-960 | unless resetting, every field of the "MainWindow" group is read back; the window gets the stored size (1024 x 768 for a null size) and position, and is maximized when so stored; when resetting, the fields keep their values and the window is 1024 x 768 at (0,0), maximized |
| MainWindow.VoreenMainWindow.ReadMainWindowGroup | apps/voreenve/voreenmainwindow.cpp:937-943 | the fields take the last workspace, the option and the five stored records |
| MainWindow.VoreenMainWindow.PlaceWindow | apps/voreenve/voreenmainwindow.cpp:952-959 | a null size becomes 1024 x 768 and any other is kept; the window moves to the position; maximizing only ever adds the state |
| MainWindow.VoreenMainWindow.LoadWindowSettings | apps/voreenve/voreenmainwindow.cpp:962-995 | unless resetting, each tool window takes its stored geometry; then the stored mode is entered, network mode when none is stored |
| MainWindow.VoreenMainWindow.RestoreToolWindows | apps/voreenve/voreenmainwindow.cpp:964-986 | each tool window is restored on its own by the rule of RestoredToolWindow |
| MainWindow.VoreenMainWindow.Init | apps/voreenve/voreenmainwindow.cpp:544-577 | the tool windows are created and restored, a reset is acknowledged and cleared, the file StartupChoice picks is opened, and the data set to load after it is returned |
| MainWindow.VoreenMainWindow.RestoreWindows | apps/voreenve/voreenmainwindow.cpp:544-551 | the tool windows are restored unless resetting, and the reset flag ends cleared |
| MainWindow.VoreenMainWindow.StartupLoad | apps/voreenve/voreenmainwindow.cpp:559-577 | the workspace or network StartupChoice picks is opened, and its data set is returned |
| MainWindow.VoreenMainWindow.CloseEvent | apps/voreenve/voreenmainwindow.cpp:1361-1381 | the settings are saved first; closing is refused exactly when CloseAccepted says so; the session becomes CloseOutcome |
| MainWindow.VoreenMainWindow.AskSaveOnClose | apps/voreenve/voreenmainwindow.cpp:1364-1380 | the closing question is asked only for a writable current workspace, ignoring the modified flag |
| Paths.FileNameIsLastComponent | apps/voreenve/voreenmainwindow.cpp:1517-1518 | the file name is the longest suffix of the path without a '/' |
| Paths.FileNameOfPlainName | apps/voreenve/voreenmainwindow.cpp:1517-1518 | a path without '/' is its own file name |
| Paths.FileNameAfterDirectory | apps/voreenve/voreenmainwindow.cpp:1517-1518 | the file name of `dir/name` is `name` |
| Paths.Lower | apps/voreenve/voreenmainwindow.cpp:1256 | upper-case ASCII letters fold to lower case and every other character stays |
| Paths.WorkspaceSuffixInAnyCase | apps/voreenve/voreenmainwindow.cpp:1256 | every spelling of ".vws" in any mix of cases marks a workspace |
| Paths.NetworkFileIsNoWorkspace | apps/voreenve/voreenmainwindow.cpp:1256 | a ".vnw" file is never taken for a workspace |
| RecentFiles.RemoveAll | apps/voreenve/voreenmainwindow.cpp:1265-1266 | the result holds exactly the other entries, and no copy of the removed one |
| RecentFiles.RemoveTwiceIsFilter | apps/voreenve/voreenmainwindow.cpp:1265-1266 | removing "" and then the file keeps exactly the other entries in their order |
| RecentFiles.AddedToRecentFront | apps/voreenve/voreenmainwindow.cpp:1263-1269 | after adding a non-empty file it is first and occurs once, no entry is empty, and there are between 1 and 5 entries |
| RecentFiles.AddedToRecentOrder | apps/voreenve/voreenmainwindow.cpp:1263-1269 | behind the added file come the earlier entries that are neither empty nor that file, in their order, cut from the end to four |
| RecentFiles.AddedToRecentKeepsAllWhenRoom | apps/voreenve/voreenmainwindow.cpp:1263-1269 | while fewer than five entries are kept, no earlier non-empty entry is lost |
| RecentFiles.AddedToRecentIdempotent | apps/voreenve/voreenmainwindow.cpp:1263-1269 | adding the same file twice gives the list one addition gives |
| RecentFiles.RecentFileTarget | apps/voreenve/voreenmainwindow.cpp:1252-1261 | the path goes to the workspace loader exactly when it ends in ".vws" ignoring case, else to the network loader |
| RecentFiles.RecentFileMenu.constructor | apps/voreenve/voreenmainwindow.cpp:658-664 | five fresh actions that show the stored list |
| RecentFiles.RecentFileMenu.UpdateRecentFiles | apps/voreenve/voreenmainwindow.cpp:1275-1287 | slot i < min(n, 5) shows "&(i+1) <file name>" and carries path i; the later slots are hidden and keep their old label |
| RecentFiles.RecentFileMenu.LabelSlots | apps/voreenve/voreenmainwindow.cpp:1279-1284 | the first slots are labelled and shown, and the rest are unchanged |
| RecentFiles.RecentFileMenu.HideSlotsFrom | apps/voreenve/voreenmainwindow.cpp:1285-1286 | the later slots are hidden, and the earlier ones are unchanged |
| RecentFiles.RecentFileMenu.AddToRecentFiles | apps/voreenve/voreenmainwindow.cpp:1263-1273 | the list becomes AddedToRecent of the old one (whose properties are the lemmas above) and the menu shows it |
| Settings.FreshConfigurationDefaults | apps/voreenve/voreenmainwindow.cpp:927-943 | an empty configuration reads as null size, origin, maximized, no last workspace, option off, empty records, network mode |
| Settings.MainWindowRoundTrip | apps/voreenve/voreenmainwindow.cpp:1013-1024 | the corrected group, read back by loadSettings (933-943), gives every field back whatever the store held before |
| Settings.LoadLastWorkspaceLostAsWritten | apps/voreenve/voreenmainwindow.cpp:1018 | as written, on a case-sensitive backend, every field survives except "load last workspace", which reads back as whatever the store held under the other spelling |
| Settings.LoadLastWorkspaceLostExample | apps/voreenve/voreenmainwindow.cpp:1018 | on a case-sensitive backend, a fresh configuration saved with the option on reads back with it off |
| Settings.InitialWindowSize | apps/voreenve/voreenmainwindow.cpp:952-956 | never null; equal to the stored size exactly when that is not null |
| Settings.RestoredToolWindow | apps/voreenve/voreenmainwindow.cpp:966-983 | an unnamed tool window is untouched; a named one moves only when a position is stored and it is not (0,0) or the window is stored visible |
| Settings.RestoredToolWindows | apps/voreenve/voreenmainwindow.cpp:966-984 | every tool window is restored on its own, in place |
| Settings.ToolWindowRoundTrip | apps/voreenve/voreenmainwindow.cpp:1035-1043 | a saved tool window restores its size, visibility and position, except that an invisible one saved at (0,0) keeps its current position |
| Settings.StoredToolWindowsKeepOthers | apps/voreenve/voreenmainwindow.cpp:1035-1043 | saving tool windows never touches the keys of a differently named one |
| Settings.ToolWindowsRoundTrip | apps/voreenve/voreenmainwindow.cpp:1035-1043 | after saving them all, the last tool window of each name restores as in ToolWindowRoundTrip |
| Settings.SavedSettingsRoundTrip | apps/voreenve/voreenmainwindow.cpp:997-1046 | the "MainWindow" group reads back from everything saveSettings writes, tool windows included |
| Settings.StoredToolWindowsKeepMainWindow | apps/voreenve/voreenmainwindow.cpp:1033-1044 | tool-window keys never overwrite a "MainWindow" key |
| Startup.StartupChoice | apps/voreenve/voreenmainwindow.cpp:559-577 | the last workspace (and no data set) when there is one and the option is on; otherwise the command-line network, else the standard workspace, followed by the default data set when given |
| Startup.NextStartReopensLastWorkspace | apps/voreenve/voreenmainwindow.cpp:559-561 | with the corrected key, the next start reopens the last workspace exactly when the option was on |
| Startup.NextStartIgnoresOptionAsWritten | apps/voreenve/voreenmainwindow.cpp:1018 | as written, on a fresh configuration of a case-sensitive backend the next start never reopens the last workspace |
| Visualization.VoreenVisualization.constructor | apps/voreenve/voreenmainwindow.cpp:85-92 | the workspace starts writable |
| Visualization.VoreenVisualization.NewWorkspace | apps/voreenve/voreenmainwindow.cpp:158-160 | a new workspace is writable |
| Visualization.VoreenVisualization.OpenWorkspace | apps/voreenve/voreenmainwindow.cpp:162-177 | succeeds exactly when the loader does; the flag is the loaded workspace's, and cleared after a failure |
| Visualization.VoreenVisualization.SaveWorkspace | apps/voreenve/voreenmainwindow.cpp:179-186 | the flag is cleared whether or not serializing succeeds |

## Left out

- Qt widgets, menus, toolbars, docks, the MDI area, message boxes, file dialogs and cursors are left out. Their answers are parameters: `Answer`, the `Option<string>` a dialog returns, the loader's `WorkspaceLoad`, the serializer's success flag, and whether `restoreState` accepts a record.
- The dialogs' remembered directories (`networkPath_`, `workspacePath_`, `datasetPath_`) and the "Paths" settings group are left out. They only preset file dialogs.
- GPU capability checks, the network evaluator, shader rebuilding, scripting, data-set loading and messaging are foreign calls. `Init` returns the data set to load instead of loading it.
- `QSettings` and `QDataStream` byte encodings are abstracted. A settings value is a tagged record, and a geometry record is its byte length plus the fields read from it.
- `restoreState` is abstracted to the record it takes over. Its effect on the tool windows' own geometry is not modelled.
- The canvas widget's visibility and update toggles in `setGuiMode` are left out, and so is the checking of the mode actions. They have no lasting effect on the modelled state.
- The recent-file list is a field of the menu object. In the source it lives in the settings under "recentFileList". It is not part of the settings store here, because nothing else reads that key.
- MainWindow.VoreenMainWindow.Create: the constructor in the source calls `loadSettings` before it takes the command-line network and sets the title. The model first builds the object and then loads the settings. These orders agree, because `loadSettings` touches none of those fields.
- MainWindow.VoreenMainWindow.Init: its contract does not restate the layout. `LoadWindowSettings`, which it calls, states that.
- MainWindow.VoreenMainWindow.CloseEvent: its contract does not restate the layout snapshot. `SaveSettings`, which it calls, states that.
- Paths.Lower: case folding is ASCII-only. Non-ASCII folds that `QString::endsWith(…, Qt::CaseInsensitive)` applies are not modelled (U+017F 'ſ' folds to 's', so "a.vwſ" opens as a workspace in the source but as a network in the model). `QFileInfo::fileName` is modelled with '/' separators only.
- MainWindow.VoreenMainWindow.OpenWorkspace: the workspace loader is not shown, and it is handed the main window. It may clear the modified flag through `setNetwork` (1296-1305), or set it through change signals. The loader's report `WorkspaceLoaded(readOnly, modified)` carries the flag loading leaves, and the model takes it over on success.
- MainWindow.VoreenMainWindow.SaveSettings: writes the option under the key loadSettings reads ("loadLastWorkspace"), that is the corrected group of "## Findings". Source line 1018 writes "loadLastworkspace". The group as written is `Settings.StoredMainWindowAsWritten`, and its consequences are the lemmas named there.
- MainWindow.VoreenMainWindow.OpenNetwork: the network loader is not shown. A successful load clears the modified flag because the loader calls `setNetwork` (1296-1305). The model follows `setNetwork` and does so directly.
- The delete-on-failure path of `VoreenVisualization::saveNetwork` is left out. It frees the live network and leaves a dangling pointer.
- The blur processor and the serialization umbrella header hold no logic of this component.

## Findings

| source | as written | input that shows it | evidently intended | confidence | as-written member | corrected member |
|---|---|---|---|---|---|---|
| apps/voreenve/voreenmainwindow.cpp:1018 | saveSettings writes the option under "loadLastworkspace", but loadSettings (938) reads "loadLastWorkspace". On a backend whose keys are case-sensitive (the macOS preferences store), the value written is never read back. The registry and INI files compare keys without regard to case, so there both spellings reach the same entry. The as-written members model a case-sensitive backend. | On a case-sensitive backend: a fresh configuration, the option switched on, the window closed and reopened. The option reads back as off, and the last workspace is not reloaded at start-up. | The option is written under the key it is read from, so the next start reopens the last workspace when it was on. | not executed | Settings.StoredMainWindowAsWritten (shown by Settings.LoadLastWorkspaceLostAsWritten, Settings.LoadLastWorkspaceLostExample, Startup.NextStartIgnoresOptionAsWritten) | Settings.StoredMainWindow (proved by Settings.MainWindowRoundTrip, Settings.SavedSettingsRoundTrip, Startup.NextStartReopensLastWorkspace) |
