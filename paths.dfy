/**
 * File-path helpers the main window relies on: the file-name part that
 * QFileInfo::fileName() gives, and the case-insensitive suffix test that
 * decides whether a recent file is a workspace or a network.
 */
module Paths {

  /** The part of `path` after its last '/', or all of it when it has none. */
  function FileName(path: string): string
    decreases |path|
  {
    if |path| == 0 then ""
    else if path[|path| - 1] == '/' then ""
    else FileName(path[..|path| - 1]) + [path[|path| - 1]]
  }

  /** The file name is the longest suffix of the path without a '/'. */
  lemma {:induction false} FileNameIsLastComponent(path: string)
    ensures var r := FileName(path);
      '/' !in r && |r| <= |path| && r == path[|path| - |r|..] &&
      (|r| < |path| ==> path[|path| - |r| - 1] == '/')
    decreases |path|
  {
    if |path| > 0 && path[|path| - 1] != '/' {
      var prefix := path[..|path| - 1];
      FileNameIsLastComponent(prefix);
      var r := FileName(prefix);
      assert path[|path| - |r| - 1..] == prefix[|prefix| - |r|..] + [path[|path| - 1]];
    }
  }

  /** A path without any '/' is its own file name. */
  lemma {:induction false} FileNameOfPlainName(name: string)
    requires '/' !in name
    ensures FileName(name) == name
    decreases |name|
  {
    if |name| > 0 {
      FileNameOfPlainName(name[..|name| - 1]);
      assert name == name[..|name| - 1] + [name[|name| - 1]];
    }
  }

  /** The file name of `dir + "/" + name` is `name` whenever `name` holds no '/'. */
  lemma FileNameAfterDirectory(dir: string, name: string)
    requires '/' !in name
    ensures FileName(dir + "/" + name) == name
  {
    var p := dir + "/" + name;
    FileNameIsLastComponent(p);
    var r := FileName(p);
    assert p[|p| - |name| - 1] == '/';
    assert p[|p| - |name|..] == name;
  }

  /** ASCII case folding (the suffixes compared here are ASCII). */
  function Lower(c: char): (d: char)
    ensures 'A' <= c <= 'Z' ==> d as int == c as int + 32
    ensures !('A' <= c <= 'Z') ==> d == c
  {
    if 'A' <= c <= 'Z' then (c as int + 32) as char else c
  }

  /** `s` ends with `suffix` when letters are compared without regard to case. */
  predicate EndsWithIgnoringCase(s: string, suffix: string)
  {
    |suffix| <= |s| &&
    forall i :: 0 <= i < |suffix| ==> Lower(s[|s| - |suffix| + i]) == Lower(suffix[i])
  }

  const WorkspaceSuffix := ".vws"

  /** The test openRecentFile uses to send a path to the workspace loader. */
  predicate IsWorkspaceFile(path: string)
  {
    EndsWithIgnoringCase(path, WorkspaceSuffix)
  }

  /** Every spelling of ".vws" in any mix of cases marks a workspace, whatever precedes it. */
  lemma WorkspaceSuffixInAnyCase(stem: string, ext: string)
    requires |ext| == 4 && ext[0] == '.'
    requires Lower(ext[1]) == 'v' && Lower(ext[2]) == 'w' && Lower(ext[3]) == 's'
    ensures IsWorkspaceFile(stem + ext)
  {
    var p := stem + ext;
    forall i | 0 <= i < 4 ensures Lower(p[|p| - 4 + i]) == Lower(WorkspaceSuffix[i]) {
      assert p[|p| - 4 + i] == ext[i];
    }
  }

  /** A network file name (".vnw") is never taken for a workspace. */
  lemma NetworkFileIsNoWorkspace(stem: string)
    ensures !IsWorkspaceFile(stem + ".vnw")
  {
    var p := stem + ".vnw";
    assert p[|p| - 2] == 'n';
    assert Lower(p[|p| - 4 + 2]) != Lower(WorkspaceSuffix[2]);
  }

  /** Which loader a file is handed to: the workspace loader or the network loader. */
  datatype LoadTarget = WorkspaceFile(path: string) | NetworkFile(path: string)
}
