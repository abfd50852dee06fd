/** The part of VoreenVisualization the main window's bookkeeping depends on: the read-only flag of the workspace. */
module Visualization {

  /**
   * What the workspace loader reports: loaded, with the workspace's read-only
   * flag and the main window's modified flag as loading left it (the loader
   * is handed the main window and may call setNetwork or emit change
   * signals), or a serializer error.
   */
  datatype WorkspaceLoad = WorkspaceLoaded(readOnly: bool, modified: bool) | WorkspaceLoadFailed

  class VoreenVisualization {
    var readOnlyWorkspace: bool

    constructor ()
      ensures !readOnlyWorkspace
    {
      readOnlyWorkspace := false;
    }

    /** newWorkspace: a new workspace is writable. */
    method NewWorkspace()
      modifies this
      ensures !readOnlyWorkspace
    {
      readOnlyWorkspace := false;
    }

    /**
     * openWorkspace: the flag is cleared before loading and then takes the
     * loaded workspace's flag, so a failed load leaves it cleared.
     */
    method OpenWorkspace(load: WorkspaceLoad) returns (ok: bool)
      modifies this
      ensures ok <==> load.WorkspaceLoaded?
      ensures readOnlyWorkspace <==> load.WorkspaceLoaded? && load.readOnly
    {
      readOnlyWorkspace := false;
      if load.WorkspaceLoadFailed? {
        return false;
      }
      readOnlyWorkspace := load.readOnly;
      return true;
    }

    /** saveWorkspace: the flag is cleared before serializing, whether or not that succeeds. */
    method SaveWorkspace(serializerOk: bool) returns (ok: bool)
      modifies this
      ensures ok == serializerOk
      ensures !readOnlyWorkspace
    {
      readOnlyWorkspace := false;
      ok := serializerOk;
    }
  }
}
