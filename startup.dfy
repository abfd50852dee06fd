/** What VoreenMainWindow::init loads once the window is complete. */
module Startup {
  import opened Wrappers
  import opened Paths
  import opened Settings

  /** The file to load first, and the data set to load after it, if any. */
  datatype StartupPlan = StartupPlan(load: LoadTarget, dataset: Option<string>)

  /**
   * The last workspace when there is one and reloading it is switched on
   * (then no data set is loaded); otherwise the network given on the command
   * line, or else the standard workspace, followed by the default data set
   * when one was given.
   */
  function StartupChoice(lastWorkspace: string, loadLastWorkspace: bool, network: string,
                         standardWorkspace: string, defaultDataset: string): (p: StartupPlan)
    ensures lastWorkspace != "" && loadLastWorkspace ==> p == StartupPlan(WorkspaceFile(lastWorkspace), None)
    ensures !(lastWorkspace != "" && loadLastWorkspace) ==>
      p.load == (if network != "" then NetworkFile(network) else WorkspaceFile(standardWorkspace)) &&
      p.dataset == (if defaultDataset != "" then Some(defaultDataset) else None)
  {
    if lastWorkspace != "" && loadLastWorkspace then StartupPlan(WorkspaceFile(lastWorkspace), None)
    else
      var load := if network != "" then NetworkFile(network) else WorkspaceFile(standardWorkspace);
      StartupPlan(load, if defaultDataset != "" then Some(defaultDataset) else None)
  }

  /** With settings saved under the key they are read from, the next start reopens the last workspace exactly when the option was on. */
  lemma NextStartReopensLastWorkspace(s: Store, p: MainWindowSettings, network: string,
                                      standardWorkspace: string, defaultDataset: string)
    requires p.lastWorkspace != "" && p.lastWorkspace != standardWorkspace
    ensures var q := LoadedMainWindow(StoredMainWindow(s, p));
      StartupChoice(q.lastWorkspace, q.loadLastWorkspace, network, standardWorkspace, defaultDataset).load
        == WorkspaceFile(p.lastWorkspace)
      <==> p.loadLastWorkspace
  {
    MainWindowRoundTrip(s, p);
  }

  /** As written, on a fresh configuration of a case-sensitive backend the next start never reopens the last workspace, whatever the option said. */
  lemma NextStartIgnoresOptionAsWritten(p: MainWindowSettings, network: string,
                                        standardWorkspace: string, defaultDataset: string)
    requires p.lastWorkspace != standardWorkspace
    ensures var q := LoadedMainWindow(StoredMainWindowAsWritten(map[], p));
      StartupChoice(q.lastWorkspace, q.loadLastWorkspace, network, standardWorkspace, defaultDataset).load
        != WorkspaceFile(p.lastWorkspace)
  {
    LoadLastWorkspaceLostAsWritten(map[], p);
  }
}
