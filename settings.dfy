/**
 * The persistent settings the main window reads at start-up and writes on
 * close: QSettings as a map from key to value, the "MainWindow" group as
 * one record, the per-tool-window "Windows" groups, and the decision rules
 * applied when they are read back. Keys are matched exactly, as on a
 * case-sensitive backend (the macOS preferences store); the registry and
 * INI files compare keys without regard to case.
 */
module Settings {
  import opened Geometry

  /** A settings key: its group path followed by its name (Qt joins them with '/'). */
  datatype Key = Key(path: seq<string>)

  /** The kinds of value the main window stores. */
  datatype Value =
    | Flag(b: bool)
    | Text(s: string)
    | Bytes(bytes: seq<bv8>)
    | GeometryValue(blob: GeometryBlob)
    | SizeValue(size: Size)
    | PointValue(point: Point)
    | Number(n: int)

  type Store = map<Key, Value>

  // Reading a value: `default` when the key is missing; a value of another
  // kind reads as the null value of the kind asked for.

  function BoolAt(s: Store, k: Key, default: bool): (b: bool)
    ensures k !in s ==> b == default
    ensures k in s && s[k].Flag? ==> b == s[k].b
  {
    if k !in s then default else if s[k].Flag? then s[k].b else false
  }

  function TextAt(s: Store, k: Key): (t: string)
    ensures k in s && s[k].Text? ==> t == s[k].s
    ensures !(k in s && s[k].Text?) ==> t == ""
  {
    if k in s && s[k].Text? then s[k].s else ""
  }

  function BytesAt(s: Store, k: Key): (b: seq<bv8>)
    ensures k in s && s[k].Bytes? ==> b == s[k].bytes
    ensures !(k in s && s[k].Bytes?) ==> b == []
  {
    if k in s && s[k].Bytes? then s[k].bytes else []
  }

  function GeometryAt(s: Store, k: Key): (g: GeometryBlob)
    ensures k in s && s[k].GeometryValue? ==> g == s[k].blob
    ensures !(k in s && s[k].GeometryValue?) ==> g == EmptyBlob
  {
    if k in s && s[k].GeometryValue? then s[k].blob else EmptyBlob
  }

  function SizeAt(s: Store, k: Key, default: Size): (z: Size)
    ensures k !in s ==> z == default
    ensures k in s && s[k].SizeValue? ==> z == s[k].size
  {
    if k !in s then default else if s[k].SizeValue? then s[k].size else Size(-1, -1)
  }

  function PointAt(s: Store, k: Key, default: Point): (p: Point)
    ensures k !in s ==> p == default
    ensures k in s && s[k].PointValue? ==> p == s[k].point
  {
    if k !in s then default else if s[k].PointValue? then s[k].point else Point(0, 0)
  }

  const ResetSettingsKey := Key(["ResetSettings"])
  const ConfigVersionKey := Key(["ConfigVersion"])
  /** The version written as "ConfigVersion". */
  const ConfigVersion := 1

  const SizeKey := Key(["MainWindow", "size"])
  const PosKey := Key(["MainWindow", "pos"])
  const MaximizedKey := Key(["MainWindow", "maximized"])
  const WorkspaceKey := Key(["MainWindow", "workspace"])
  /** The key loadSettings reads the "load last workspace" option from. */
  const LoadLastWorkspaceKey := Key(["MainWindow", "loadLastWorkspace"])
  /** The key saveSettings writes that option to: the case of one letter differs, which matters to a case-sensitive backend. */
  const LoadLastWorkspaceKeyAsWritten := Key(["MainWindow", "loadLastworkspace"])
  const VisualizationModeStateKey := Key(["MainWindow", "visualizationModeState"])
  const NetworkModeStateKey := Key(["MainWindow", "networkModeState"])
  const RenderWindowStateVisualizationModeKey := Key(["MainWindow", "renderWindowStateVisualizationMode"])
  const RenderWindowStateNetworkModeKey := Key(["MainWindow", "renderWindowStateNetworkMode"])
  const NetworkEditorWindowStateKey := Key(["MainWindow", "networkEditorWindowState"])
  const VisualizationModeKey := Key(["MainWindow", "visualizationMode"])

  /** Everything the "MainWindow" group holds. */
  datatype MainWindowSettings = MainWindowSettings(
    size: Size, pos: Point, maximized: bool,
    lastWorkspace: string, loadLastWorkspace: bool,
    visualizationModeState: seq<bv8>, networkModeState: seq<bv8>,
    renderWindowStateVisualizationMode: GeometryBlob,
    renderWindowStateNetworkMode: GeometryBlob,
    networkEditorWindowState: GeometryBlob,
    visualizationMode: bool)

  /** The "MainWindow" group as saveSettings writes it, with the key it uses for "load last workspace". */
  function WithMainWindowGroup(s: Store, p: MainWindowSettings, loadLastKey: Key): Store
  {
    s[SizeKey := SizeValue(p.size)]
     [PosKey := PointValue(p.pos)]
     [MaximizedKey := Flag(p.maximized)]
     [WorkspaceKey := Text(p.lastWorkspace)]
     [loadLastKey := Flag(p.loadLastWorkspace)]
     [VisualizationModeStateKey := Bytes(p.visualizationModeState)]
     [NetworkModeStateKey := Bytes(p.networkModeState)]
     [RenderWindowStateVisualizationModeKey := GeometryValue(p.renderWindowStateVisualizationMode)]
     [RenderWindowStateNetworkModeKey := GeometryValue(p.renderWindowStateNetworkMode)]
     [NetworkEditorWindowStateKey := GeometryValue(p.networkEditorWindowState)]
     [VisualizationModeKey := Flag(p.visualizationMode)]
  }

  /** The group exactly as saveSettings writes it. */
  function StoredMainWindowAsWritten(s: Store, p: MainWindowSettings): Store
  {
    WithMainWindowGroup(s, p, LoadLastWorkspaceKeyAsWritten)
  }

  /** The group written under the key loadSettings reads; the main window uses this one. */
  function StoredMainWindow(s: Store, p: MainWindowSettings): Store
  {
    WithMainWindowGroup(s, p, LoadLastWorkspaceKey)
  }

  /**
   * The group as loadSettings and loadWindowSettings read it: size (0, 0),
   * position (0, 0) and maximized by default, no last workspace, not
   * reloading it, empty layout records, not in visualization mode.
   */
  function LoadedMainWindow(s: Store): MainWindowSettings
  {
    MainWindowSettings(
      SizeAt(s, SizeKey, Size(0, 0)),
      PointAt(s, PosKey, Point(0, 0)),
      BoolAt(s, MaximizedKey, true),
      TextAt(s, WorkspaceKey),
      BoolAt(s, LoadLastWorkspaceKey, false),
      BytesAt(s, VisualizationModeStateKey),
      BytesAt(s, NetworkModeStateKey),
      GeometryAt(s, RenderWindowStateVisualizationModeKey),
      GeometryAt(s, RenderWindowStateNetworkModeKey),
      GeometryAt(s, NetworkEditorWindowStateKey),
      BoolAt(s, VisualizationModeKey, false))
  }

  /** A fresh configuration reads as no size, maximized, no last workspace, the option off, empty records and network mode. */
  lemma FreshConfigurationDefaults()
    ensures LoadedMainWindow(map[]) ==
      MainWindowSettings(Size(0, 0), Point(0, 0), true, "", false, [], [], EmptyBlob, EmptyBlob, EmptyBlob, false)
  {
  }

  /** Reading back what was stored gives every field back, whatever the store held before. */
  lemma MainWindowRoundTrip(s: Store, p: MainWindowSettings)
    ensures LoadedMainWindow(StoredMainWindow(s, p)) == p
  {
  }

  /**
   * As written, on a case-sensitive backend "load last workspace" is never
   * read back: the value read is whatever the store held under the other
   * spelling beforehand, while every other field survives.
   */
  lemma LoadLastWorkspaceLostAsWritten(s: Store, p: MainWindowSettings)
    ensures LoadedMainWindow(StoredMainWindowAsWritten(s, p))
         == p.(loadLastWorkspace := BoolAt(s, LoadLastWorkspaceKey, false))
  {
  }

  /** The same as one concrete case: a fresh configuration with the option switched on reads back as off. */
  lemma LoadLastWorkspaceLostExample()
    ensures var p := MainWindowSettings(Size(800, 600), Point(0, 0), false, "last.vws", true,
                                        [], [], EmptyBlob, EmptyBlob, EmptyBlob, true);
      LoadedMainWindow(StoredMainWindowAsWritten(map[], p)).loadLastWorkspace == false
  {
    var p := MainWindowSettings(Size(800, 600), Point(0, 0), false, "last.vws", true,
                                [], [], EmptyBlob, EmptyBlob, EmptyBlob, true);
    LoadLastWorkspaceLostAsWritten(map[], p);
  }

  /** The main window's size when none was stored. */
  const DefaultWindowSize := Size(1024, 768)

  /** QSize::isNull: both extents are zero. */
  predicate IsNullSize(z: Size) { z.width == 0 && z.height == 0 }

  /** loadSettings: a null stored size is replaced by 1024 x 768, any other is kept. */
  function InitialWindowSize(stored: Size): (z: Size)
    ensures !IsNullSize(z)
    ensures !IsNullSize(stored) <==> z == stored
  {
    if IsNullSize(stored) then DefaultWindowSize else stored
  }

  /** A dockable tool window: its object name and the state saved for it. */
  datatype ToolWindow = ToolWindow(name: string, size: Size, pos: Point, visible: bool)

  function ToolKey(name: string, field: string): Key { Key(["Windows", name, field]) }

  /**
   * loadWindowSettings for one tool window: one without an object name is
   * left alone; otherwise the stored size and visibility are applied when
   * present, and the stored position only when it is not (0, 0) or the
   * window is stored as visible.
   */
  function RestoredToolWindow(s: Store, w: ToolWindow): (r: ToolWindow)
    ensures r.name == w.name
    ensures w.name == "" ==> r == w
    ensures r.pos != w.pos ==>
      ToolKey(w.name, "pos") in s &&
      (PointAt(s, ToolKey(w.name, "pos"), Point(0, 0)) != Point(0, 0) || BoolAt(s, ToolKey(w.name, "visible"), false))
  {
    if w.name == "" then w
    else
      var sizeKey, posKey, visibleKey := ToolKey(w.name, "size"), ToolKey(w.name, "pos"), ToolKey(w.name, "visible");
      var size := if sizeKey in s then SizeAt(s, sizeKey, Size(-1, -1)) else w.size;
      var stored := PointAt(s, posKey, Point(0, 0));
      var pos := if posKey in s && (stored != Point(0, 0) || BoolAt(s, visibleKey, false)) then stored else w.pos;
      var visible := if visibleKey in s then BoolAt(s, visibleKey, false) else w.visible;
      ToolWindow(w.name, size, pos, visible)
  }

  /** loadWindowSettings for all tool windows, each on its own. */
  function RestoredToolWindows(s: Store, ws: seq<ToolWindow>): (r: seq<ToolWindow>)
    ensures |r| == |ws| && forall i :: 0 <= i < |ws| ==> r[i] == RestoredToolWindow(s, ws[i])
  {
    seq(|ws|, i requires 0 <= i < |ws| => RestoredToolWindow(s, ws[i]))
  }

  /** saveSettings for one tool window: visibility, position and size under its name. */
  function StoredToolWindow(s: Store, w: ToolWindow): Store
  {
    if w.name == "" then s
    else s[ToolKey(w.name, "visible") := Flag(w.visible)]
          [ToolKey(w.name, "pos") := PointValue(w.pos)]
          [ToolKey(w.name, "size") := SizeValue(w.size)]
  }

  /** saveSettings for the tool windows in their order. */
  function StoredToolWindows(s: Store, ws: seq<ToolWindow>): Store
    decreases |ws|
  {
    if ws == [] then s else StoredToolWindow(StoredToolWindows(s, ws[..|ws| - 1]), ws[|ws| - 1])
  }

  /**
   * A tool window saved and restored gets its size, visibility and position
   * back, except that an invisible window saved at (0, 0) keeps the position
   * it has at restore time.
   */
  lemma ToolWindowRoundTrip(s: Store, w: ToolWindow, current: ToolWindow)
    requires w.name != "" && current.name == w.name
    ensures RestoredToolWindow(StoredToolWindow(s, w), current)
         == w.(pos := if w.pos == Point(0, 0) && !w.visible then current.pos else w.pos)
  {
  }

  /** Saving other tool windows does not touch the keys of a differently named one. */
  lemma {:induction false} StoredToolWindowsKeepOthers(s: Store, ws: seq<ToolWindow>, name: string, field: string)
    requires forall j :: 0 <= j < |ws| ==> ws[j].name != name
    ensures ToolKey(name, field) in StoredToolWindows(s, ws) <==> ToolKey(name, field) in s
    ensures ToolKey(name, field) in s ==> StoredToolWindows(s, ws)[ToolKey(name, field)] == s[ToolKey(name, field)]
    decreases |ws|
  {
    if ws != [] {
      StoredToolWindowsKeepOthers(s, ws[..|ws| - 1], name, field);
    }
  }

  /** After saving them all, the last window of each name reads back as in ToolWindowRoundTrip. */
  lemma {:induction false} ToolWindowsRoundTrip(s: Store, ws: seq<ToolWindow>, i: nat, current: ToolWindow)
    requires i < |ws| && ws[i].name != "" && current.name == ws[i].name
    requires forall j :: i < j < |ws| ==> ws[j].name != ws[i].name
    ensures RestoredToolWindow(StoredToolWindows(s, ws), current)
         == ws[i].(pos := if ws[i].pos == Point(0, 0) && !ws[i].visible then current.pos else ws[i].pos)
    decreases |ws|
  {
    if i == |ws| - 1 {
      ToolWindowRoundTrip(StoredToolWindows(s, ws[..|ws| - 1]), ws[i], current);
    } else {
      var front := ws[..|ws| - 1];
      ToolWindowsRoundTrip(s, front, i, current);
      var last := ws[|ws| - 1];
      assert last.name != current.name;
      var before := StoredToolWindows(s, front);
      assert StoredToolWindows(s, ws) == StoredToolWindow(before, last);
      forall field | field in {"size", "pos", "visible"}
        ensures ToolKey(current.name, field) in StoredToolWindow(before, last) <==> ToolKey(current.name, field) in before
        ensures ToolKey(current.name, field) in before ==>
          StoredToolWindow(before, last)[ToolKey(current.name, field)] == before[ToolKey(current.name, field)]
      {
      }
    }
  }

  /** Everything saveSettings writes, in its order: the two top-level values, the main-window group, the tool windows. */
  function SavedSettings(s: Store, reset: bool, p: MainWindowSettings, tools: seq<ToolWindow>): Store
  {
    StoredToolWindows(
      StoredMainWindow(s[ResetSettingsKey := Flag(reset)][ConfigVersionKey := Number(ConfigVersion)], p),
      tools)
  }

  /** The main-window group reads back from everything saveSettings writes. */
  lemma SavedSettingsRoundTrip(s: Store, reset: bool, p: MainWindowSettings, tools: seq<ToolWindow>)
    ensures LoadedMainWindow(SavedSettings(s, reset, p, tools)) == p
  {
    var base := StoredMainWindow(s[ResetSettingsKey := Flag(reset)][ConfigVersionKey := Number(ConfigVersion)], p);
    forall k | k in {SizeKey, PosKey, MaximizedKey, WorkspaceKey, LoadLastWorkspaceKey, VisualizationModeStateKey,
                     NetworkModeStateKey, RenderWindowStateVisualizationModeKey, RenderWindowStateNetworkModeKey,
                     NetworkEditorWindowStateKey, VisualizationModeKey}
      ensures k in SavedSettings(s, reset, p, tools) && SavedSettings(s, reset, p, tools)[k] == base[k]
    {
      StoredToolWindowsKeepMainWindow(base, tools, k);
    }
    MainWindowRoundTrip(s[ResetSettingsKey := Flag(reset)][ConfigVersionKey := Number(ConfigVersion)], p);
  }

  /** Tool-window keys never overwrite a main-window key. */
  lemma {:induction false} StoredToolWindowsKeepMainWindow(s: Store, ws: seq<ToolWindow>, k: Key)
    requires |k.path| == 2 && k.path[0] == "MainWindow"
    ensures k in StoredToolWindows(s, ws) <==> k in s
    ensures k in s ==> StoredToolWindows(s, ws)[k] == s[k]
    decreases |ws|
  {
    if ws != [] {
      StoredToolWindowsKeepMainWindow(s, ws[..|ws| - 1], k);
    }
  }
}
