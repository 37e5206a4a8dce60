/**
 * `download_node`: derive the repository's name, lay out its workspace
 * directory, clone the repository into a temporary directory beside
 * `source` and move what was cloned into `source`.  Failures to clone or to
 * move are recorded and the pipeline carries on with an empty source tree.
 * The workspace is a `Workspace` object: the sets of existing directories
 * and files, which the stage changes step by step.
 */
module Download {
  import opened Text
  import opened PipelineState
  import opened Shell

  // ---------------------------------------------------------------------
  // Name and layout

  /** Removing a pattern never introduces a character that was absent. */
  lemma {:induction false} ReplaceKeepsAbsent(s: string, pat: string, rep: string, c: char)
    requires |pat| > 0 && c !in s && c !in rep
    ensures c !in ReplaceAll(s, pat, rep)
    decreases |s|
  {
    if |s| > 0 {
      if pat <= s {
        ReplaceKeepsAbsent(s[|pat|..], pat, rep, c);
      } else {
        ReplaceKeepsAbsent(s[1..], pat, rep, c);
      }
    }
  }

  /**
   * `repo_url.rstrip("/").split("/")[-1].replace(".git", "")`: the last
   * segment of the address, with every ".git" in it removed.
   */
  function NameFromUrl(url: string): (r: string)
    ensures '/' !in r
  {
    var segment := AfterLast(StripRight(url, {'/'}), '/');
    ReplaceKeepsAbsent(segment, ".git", "", '/');
    ReplaceAll(segment, ".git", "")
  }

  /**
   * The replacement is not a suffix removal: it cuts ".git" wherever it
   * occurs, so "u.github.io" becomes "uhub.io".
   */
  lemma NameFromUrlCutsInside(owner: string, a: char, rest: string)
    requires a != '.' && a != '/' && '/' !in rest && rest != [] && !Contains(rest, ".git")
    ensures NameFromUrl(owner + "/" + [a] + ".git" + rest) == [a] + rest
  {
    var seg := [a] + ".git" + rest;
    var url := owner + "/" + [a] + ".git" + rest;
    assert url == (owner + "/") + seg;
    assert StripRight(url, {'/'}) == url by {
      assert url[|url| - 1] == rest[|rest| - 1];
    }
    assert AfterLast(url, '/') == seg by {
      AfterLastAppend(owner + "/", seg, '/');
    }
    CutInside(a, rest);
  }

  lemma CutInside(a: char, rest: string)
    requires a != '.' && !Contains(rest, ".git")
    ensures ReplaceAll([a] + ".git" + rest, ".git", "") == [a] + rest
  {
    var seg := [a] + ".git" + rest;
    assert !(".git" <= seg);
    assert seg[1..] == ".git" + rest;
    assert ".git" <= seg[1..];
    assert seg[1..][4..] == rest;
    ReplaceAbsent(rest, ".git", "");
    assert ReplaceAll(seg[1..], ".git", "") == rest;
  }

  /** `repository.name`, or the name derived from the address when none is given. */
  function RepoName(url: string, given: Option<string>): (r: string)
    ensures Truthy(given) ==> r == given.value
    ensures !Truthy(given) ==> r == NameFromUrl(url)
  {
    if Truthy(given) then given.value else NameFromUrl(url)
  }

  /** `workspace/<name>` under the project root, and the directories the stage keeps there. */
  function Layout(projectRoot: string, name: string): (p: LocalPaths)
  {
    var root := Join(Join(projectRoot, "workspace"), name);
    var output := Join(root, "mcp_output");
    LocalPaths(root, Join(root, "source"), Join(output, "mcp_plugin"), Join(output, "tests_mcp"),
               Join(output, "mcp_logs"))
  }

  /** `p` starts with `root` and is longer. */
  predicate Below(p: string, root: string)
  {
    root <= p && |p| > |root|
  }

  /**
   * The repository root is `<project>/workspace/<name>` for a name without a
   * separator, and every other recorded directory lies below it.
   */
  lemma LayoutUnderRoot(projectRoot: string, name: string)
    requires name != "" && name[0] != '/'
    ensures var p := Layout(projectRoot, name);
            && Below(p.sourceRoot, p.repoRoot) && Below(p.mcpPlugin, p.repoRoot)
            && Below(p.testsMcp, p.repoRoot) && Below(p.mcpLogs, p.repoRoot)
            && Below(p.repoRoot, Join(projectRoot, "workspace"))
            && EndsWith(p.repoRoot, name)
  {
    var p := Layout(projectRoot, name);
    var output := Join(p.repoRoot, "mcp_output");
    assert Below(output, p.repoRoot);
  }

  /** `mcp_output` in the repository root. */
  function OutputDir(p: LocalPaths): string
  {
    Join(p.repoRoot, "mcp_output")
  }

  /** Every directory the stage lays out, and the temporary clone, starts with the repository root. */
  predicate LaidOutUnderRoot(p: LocalPaths)
  {
    && p.repoRoot <= OutputDir(p) && p.repoRoot <= p.sourceRoot && p.repoRoot <= TempClone(p)
    && p.repoRoot <= p.mcpPlugin && p.repoRoot <= p.testsMcp && p.repoRoot <= p.mcpLogs
  }

  lemma LayoutPrefixes(p: LocalPaths, projectRoot: string, name: string)
    requires p == Layout(projectRoot, name)
    ensures LaidOutUnderRoot(p)
  {
    var output := Join(p.repoRoot, "mcp_output");
    PrefixTransitive(p.repoRoot, output, p.mcpPlugin);
    PrefixTransitive(p.repoRoot, output, p.testsMcp);
    PrefixTransitive(p.repoRoot, output, p.mcpLogs);
  }

  /** The temporary clone directory. */
  function TempClone(p: LocalPaths): string
  {
    Join(p.repoRoot, "temp_clone")
  }

  function CloneCommand(url: string, p: LocalPaths): seq<string>
  {
    ["git", "clone", url, TempClone(p)]
  }

  // ---------------------------------------------------------------------
  // The workspace as sets of paths

  /** `p` is `dir` itself or lies inside it. */
  predicate Within(p: string, dir: string)
  {
    p == dir || dir + "/" <= p
  }

  /** What `shutil.rmtree(dir)` leaves of `paths`. */
  function Removed(paths: set<string>, dir: string): (r: set<string>)
    ensures forall p :: p in r <==> p in paths && !Within(p, dir)
  {
    set p | p in paths && !Within(p, dir)
  }

  /** What `shutil.move(src, dst)` makes of `paths`: everything within `src` is now within `dst`. */
  function Moved(paths: set<string>, src: string, dst: string): (r: set<string>)
    ensures forall p :: p in paths && !Within(p, src) ==> p in r
    ensures forall p :: p in paths && Within(p, src) ==> dst + p[|src|..] in r
  {
    (set p | p in paths && !Within(p, src)) + (set p | p in paths && Within(p, src) :: dst + p[|src|..])
  }

  function RemoveTree(d: Disk, dir: string): Disk
  {
    Disk(Removed(d.dirs, dir), Removed(d.files, dir))
  }

  function Move(d: Disk, src: string, dst: string): Disk
  {
    Disk(Moved(d.dirs, src, dst), Moved(d.files, src, dst))
  }

  /** The directories `ensure_directory` creates. */
  function WithLayout(d: Disk, p: LocalPaths): (r: Disk)
    ensures r.files == d.files
  {
    Disk(d.dirs + {p.repoRoot, OutputDir(p), p.mcpPlugin, p.testsMcp, p.mcpLogs}, d.files)
  }

  /** `source/.git` exists: the repository was fetched before. */
  predicate AlreadyCloned(p: LocalPaths, d: Disk)
  {
    Exists(d, Join(p.sourceRoot, ".git"))
  }

  /** An emptied `source` directory and no temporary clone. */
  function FreshSource(d: Disk, p: LocalPaths): Disk
  {
    var cleared := RemoveTree(d, p.sourceRoot);
    RemoveTree(Disk(cleared.dirs + {p.sourceRoot}, cleared.files), TempClone(p))
  }

  /** The clone's files (paths relative to the repository) in the temporary directory. */
  function CheckedOut(d: Disk, tmp: string, checkout: set<string>): Disk
  {
    Disk(d.dirs + {tmp}, d.files + set f | f in checkout :: tmp + "/" + f)
  }

  /**
   * The loop over `os.listdir(temp_clone)`: each entry moved into `source`,
   * until one move raises; the disk it leaves and the first error.
   */
  function MoveEntries(d: Disk, tmp: string, source: string, entries: seq<string>,
                       moveError: string -> Option<string>): (r: (Disk, Option<string>))
    ensures r.1.Some? ==> exists e :: e in entries && moveError(e) == r.1
    ensures r.1.None? <==> forall e :: e in entries ==> moveError(e).None?
    decreases |entries|
  {
    if entries == [] then (d, None)
    else if moveError(entries[0]).Some? then (d, moveError(entries[0]))
    else MoveEntries(Move(d, Join(tmp, entries[0]), Join(source, entries[0])), tmp, source, entries[1..], moveError)
  }

  /** What the OS does for the stage: the clone's effect and the moves' outcome. */
  datatype Host = Host(exec: seq<string> -> Proc, checkout: set<string>, listing: seq<string>,
                       moveError: string -> Option<string>)

  // ---------------------------------------------------------------------
  // The stage

  predicate DownloadAborts(s: State)
  {
    !Truthy(s.repository.url)
  }

  /** `err or out` */
  function CloneMessage(res: ExecResult): string
  {
    if res.err != "" then res.err else res.out
  }

  /** The warnings and errors the fetch adds. */
  datatype Records = Records(warnings: seq<string>, errors: seq<ErrorRecord>)

  /**
   * A failed clone adds a warning and a CloneFailed record; a failed move a
   * FileMoveFailed record; neither stops the pipeline.
   */
  function FetchRecords(res: ExecResult, moveError: Option<string>): (r: Records)
    ensures res.code != 0 ==> r == Records(["git clone failed: " + CloneMessage(res)],
                                           [ErrorRecord("DownloadNode", "CloneFailed", None, CloneMessage(res), ContinueWithEmpty)])
    ensures res.code == 0 && moveError.Some? ==>
              r == Records([], [ErrorRecord("DownloadNode", "FileMoveFailed", None, moveError.value, ContinueWithEmpty)])
    ensures res.code == 0 && moveError.None? ==> r == Records([], [])
  {
    if res.code != 0 then
      Records(["git clone failed: " + CloneMessage(res)],
              [ErrorRecord("DownloadNode", "CloneFailed", None, CloneMessage(res), ContinueWithEmpty)])
    else if moveError.Some? then
      Records([], [ErrorRecord("DownloadNode", "FileMoveFailed", None, moveError.value, ContinueWithEmpty)])
    else Records([], [])
  }

  /**
   * The fetch past the layout: nothing when the source was cloned before;
   * at most one record, and the pipeline goes on regardless.
   */
  function Fetch(url: string, p: LocalPaths, d: Disk, h: Host): (r: (Disk, Records))
    ensures |r.1.errors| <= 1 && |r.1.warnings| <= |r.1.errors|
    ensures forall e :: e in r.1.errors ==> e.action == ContinueWithEmpty
    ensures AlreadyCloned(p, d) ==> r == (d, Records([], []))
  {
    if AlreadyCloned(p, d) then (d, Records([], []))
    else
      var emptied := FreshSource(d, p);
      var res := RunCommand(h.exec(CloneCommand(url, p)));
      if res.code != 0 then (emptied, FetchRecords(res, None))
      else
        var (moved, err) := MoveEntries(CheckedOut(emptied, TempClone(p), h.checkout), TempClone(p),
                                        p.sourceRoot, h.listing, h.moveError);
        (if err.None? then RemoveTree(moved, TempClone(p)) else moved, FetchRecords(res, err))
  }

  /** `download_node`'s state update, given the project root, the disk it starts on and the host. */
  function DownloadStage(s: State, projectRoot: string, d: Disk, h: Host): State
  {
    if DownloadAborts(s) then AbortStage(s, "DownloadNode", "Missing repository.url")
    else
      var url := s.repository.url.value;
      var name := RepoName(url, s.repository.name);
      var p := Layout(projectRoot, name);
      var (_, recs) := Fetch(url, p, WithLayout(d, p), h);
      s.(repository := Repository(Some(url), Some(name), Some(p)),
         warnings := s.warnings + recs.warnings, errors := s.errors + recs.errors,
         status := Running)
  }

  /** The disk the stage leaves. */
  function DownloadDisk(s: State, projectRoot: string, d: Disk, h: Host): Disk
  {
    if DownloadAborts(s) then d
    else
      var url := s.repository.url.value;
      var p := Layout(projectRoot, RepoName(url, s.repository.name));
      Fetch(url, p, WithLayout(d, p), h).0
  }

  /** The commands the stage runs: at most the one clone. */
  function DownloadCommands(s: State, projectRoot: string, d: Disk, h: Host): (cmds: seq<seq<string>>)
    ensures |cmds| <= 1
  {
    if DownloadAborts(s) then []
    else
      var url := s.repository.url.value;
      var p := Layout(projectRoot, RepoName(url, s.repository.name));
      if AlreadyCloned(p, WithLayout(d, p)) then [] else [CloneCommand(url, p)]
  }

  /** Without an address the stage records the abort and touches nothing. */
  lemma DownloadAbortsWithoutUrl(s: State, projectRoot: string, d: Disk, h: Host)
    requires DownloadAborts(s)
    ensures var t := DownloadStage(s, projectRoot, d, h);
            && t.errors == s.errors + [InvalidInput("DownloadNode", "Missing repository.url")]
            && t.status == Failed && t.workflowStatus == Failed && t.repository == s.repository
    ensures DownloadCommands(s, projectRoot, d, h) == [] && DownloadDisk(s, projectRoot, d, h) == d
  {
  }

  /**
   * With an address the stage records the name and layout, never marks the
   * run failed, and keeps the workflow status; the only records it adds are
   * those of a failed clone or move.
   */
  lemma DownloadOutcome(s: State, projectRoot: string, d: Disk, h: Host)
    requires !DownloadAborts(s)
    ensures var t := DownloadStage(s, projectRoot, d, h);
            var url := s.repository.url.value;
            var name := RepoName(url, s.repository.name);
            && t.repository == Repository(Some(url), Some(name), Some(Layout(projectRoot, name)))
            && t.status == Running && t.workflowStatus == s.workflowStatus
            && s.errors <= t.errors && |t.errors| <= |s.errors| + 1
            && (forall i :: |s.errors| <= i < |t.errors| ==> t.errors[i].action == ContinueWithEmpty)
            && t == s.(repository := t.repository, warnings := t.warnings, errors := t.errors, status := Running)
  {
  }

  /** An existing `source/.git` means no clone, no record and no change beyond the layout. */
  lemma DownloadSkipsExistingClone(s: State, projectRoot: string, d: Disk, h: Host)
    requires !DownloadAborts(s)
    requires var p := Layout(projectRoot, RepoName(s.repository.url.value, s.repository.name));
             AlreadyCloned(p, WithLayout(d, p))
    ensures var t := DownloadStage(s, projectRoot, d, h);
            var p := Layout(projectRoot, RepoName(s.repository.url.value, s.repository.name));
            && DownloadCommands(s, projectRoot, d, h) == []
            && t.errors == s.errors && t.warnings == s.warnings
            && DownloadDisk(s, projectRoot, d, h) == WithLayout(d, p)
  {
    hide Fetch, Layout, RepoName, WithLayout, AlreadyCloned, CloneCommand;
    var url := s.repository.url.value;
    var p := Layout(projectRoot, RepoName(url, s.repository.name));
    assert Fetch(url, p, WithLayout(d, p), h) == (WithLayout(d, p), Records([], []));
    assert s.errors + [] == s.errors && s.warnings + [] == s.warnings;
  }

  /** A failed clone is recorded once, as a warning and a CloneFailed record. */
  lemma DownloadCloneFailure(s: State, projectRoot: string, d: Disk, h: Host)
    requires !DownloadAborts(s)
    requires var url := s.repository.url.value;
             var p := Layout(projectRoot, RepoName(url, s.repository.name));
             !AlreadyCloned(p, WithLayout(d, p)) && RunCommand(h.exec(CloneCommand(url, p))).code != 0
    ensures var t := DownloadStage(s, projectRoot, d, h);
            var url := s.repository.url.value;
            var res := RunCommand(h.exec(CloneCommand(url, Layout(projectRoot, RepoName(url, s.repository.name)))));
            && t.warnings == s.warnings + ["git clone failed: " + CloneMessage(res)]
            && t.errors == s.errors + [ErrorRecord("DownloadNode", "CloneFailed", None, CloneMessage(res), ContinueWithEmpty)]
  {
  }

  /**
   * The temporary clone is gone after a fetch unless a move raised: a failed
   * clone leaves it removed, and a complete move removes it afterwards.
   */
  lemma FetchRemovesTempClone(url: string, p: LocalPaths, d: Disk, h: Host)
    requires !AlreadyCloned(p, d)
    requires var res := RunCommand(h.exec(CloneCommand(url, p)));
             res.code != 0 || forall e :: e in h.listing ==> h.moveError(e).None?
    ensures var e := Fetch(url, p, d, h).0;
            forall q :: q in e.dirs + e.files ==> !Within(q, TempClone(p))
  {
  }

  // ---------------------------------------------------------------------
  // The stage stays inside its workspace directory

  /** `d` and `e` agree on every path outside `root`. */
  ghost predicate SameOutside(d: Disk, e: Disk, root: string)
  {
    && (forall p :: !(root <= p) ==> (p in d.dirs <==> p in e.dirs))
    && (forall p :: !(root <= p) ==> (p in d.files <==> p in e.files))
  }

  lemma RemoveTreeInside(d: Disk, dir: string, root: string)
    requires root <= dir
    ensures SameOutside(d, RemoveTree(d, dir), root)
  {
  }

  lemma MoveInside(d: Disk, src: string, dst: string, root: string)
    requires root <= src && root <= dst
    ensures SameOutside(d, Move(d, src, dst), root)
  {
  }

  lemma {:induction false} MoveEntriesInside(d: Disk, tmp: string, source: string, entries: seq<string>,
                                             moveError: string -> Option<string>, root: string)
    requires root <= tmp && root <= source
    requires forall e :: e in entries ==> '/' !in e
    ensures SameOutside(d, MoveEntries(d, tmp, source, entries, moveError).0, root)
    decreases |entries|
  {
    if entries != [] && moveError(entries[0]).None? {
      var e := entries[0];
      assert !(|e| > 0 && e[0] == '/') by { assert e in entries; }
      var next := Move(d, Join(tmp, e), Join(source, e));
      MoveInside(d, Join(tmp, e), Join(source, e), root);
      MoveEntriesInside(next, tmp, source, entries[1..], moveError, root);
    }
  }

  lemma LayoutInside(d: Disk, p: LocalPaths)
    requires LaidOutUnderRoot(p)
    ensures SameOutside(d, WithLayout(d, p), p.repoRoot)
  {
  }

  /**
   * Whatever the host does, the stage creates, removes and moves paths only
   * below the repository's workspace directory (given entry names without
   * separators, as directory listings are).
   */
  lemma DownloadStaysInWorkspace(s: State, projectRoot: string, d: Disk, h: Host)
    requires !DownloadAborts(s)
    requires forall e :: e in h.listing ==> '/' !in e
    ensures var p := Layout(projectRoot, RepoName(s.repository.url.value, s.repository.name));
            SameOutside(d, DownloadDisk(s, projectRoot, d, h), p.repoRoot)
  {
    var url := s.repository.url.value;
    var p := Layout(projectRoot, RepoName(url, s.repository.name));
    LayoutPrefixes(p, projectRoot, RepoName(url, s.repository.name));
    hide Fetch, Layout, RepoName, WithLayout, LaidOutUnderRoot;
    LayoutInside(d, p);
    FetchInside(url, p, WithLayout(d, p), h);
    SameOutsideTransitive(d, WithLayout(d, p), Fetch(url, p, WithLayout(d, p), h).0, p.repoRoot);
  }

  /** Past the layout, the fetch changes nothing outside the repository root. */
  lemma FetchInside(url: string, p: LocalPaths, d: Disk, h: Host)
    requires LaidOutUnderRoot(p)
    requires forall e :: e in h.listing ==> '/' !in e
    ensures SameOutside(d, Fetch(url, p, d, h).0, p.repoRoot)
  {
    var root := p.repoRoot;
    if !AlreadyCloned(p, d) {
      var tmp := TempClone(p);
      var cleared := RemoveTree(d, p.sourceRoot);
      RemoveTreeInside(d, p.sourceRoot, root);
      var reset := Disk(cleared.dirs + {p.sourceRoot}, cleared.files);
      RemoveTreeInside(reset, tmp, root);
      var emptied := FreshSource(d, p);
      assert SameOutside(d, emptied, root);
      if RunCommand(h.exec(CloneCommand(url, p))).code == 0 {
        var out := CheckedOut(emptied, tmp, h.checkout);
        assert SameOutside(emptied, out, root);
        MoveEntriesInside(out, tmp, p.sourceRoot, h.listing, h.moveError, root);
        var (moved, err) := MoveEntries(out, tmp, p.sourceRoot, h.listing, h.moveError);
        RemoveTreeInside(moved, tmp, root);
      }
    }
  }

  lemma SameOutsideTransitive(d: Disk, e: Disk, f: Disk, root: string)
    requires SameOutside(d, e, root) && SameOutside(e, f, root)
    ensures SameOutside(d, f, root)
  {
  }

  // ---------------------------------------------------------------------
  // The stage as the code runs it

  class Workspace {
    var dirs: set<string>
    var files: set<string>

    constructor (d: Disk)
      ensures dirs == d.dirs && files == d.files
    {
      dirs := d.dirs;
      files := d.files;
    }

    function Current(): Disk
      reads this
    {
      Disk(dirs, files)
    }

    /** `ensure_directory` / `os.makedirs` */
    method MakeDirs(dir: string)
      modifies this
      ensures dirs == old(dirs) + {dir} && files == old(files)
    {
      dirs := dirs + {dir};
    }

    /** `write_file`: the file's directory is made and the file written. */
    method WriteFile(path: string)
      modifies this
      ensures Current() == WithFile(old(Current()), path)
    {
      dirs := dirs + {DirName(path)};
      files := files + {path};
    }

    /** `shutil.rmtree` */
    method RemoveDir(dir: string)
      modifies this
      ensures Current() == RemoveTree(old(Current()), dir)
    {
      dirs := Removed(dirs, dir);
      files := Removed(files, dir);
    }

    /** `git clone` into `tmp`: its files appear there when the command succeeds. */
    method Clone(sh: Shell, url: string, p: LocalPaths, checkout: set<string>) returns (res: ExecResult)
      modifies this, sh
      ensures res == RunCommand(sh.exec(CloneCommand(url, p)))
      ensures sh.log == old(sh.log) + [CloneCommand(url, p)]
      ensures Current() == if res.code == 0 then CheckedOut(old(Current()), TempClone(p), checkout) else old(Current())
    {
      res := sh.Run(CloneCommand(url, p));
      if res.code == 0 {
        dirs := dirs + {TempClone(p)};
        files := files + set f | f in checkout :: TempClone(p) + "/" + f;
      }
    }

    /** The loop over the temporary clone's entries; it stops at the first move that raises. */
    method MoveAll(tmp: string, source: string, entries: seq<string>, moveError: string -> Option<string>)
      returns (err: Option<string>)
      modifies this
      ensures (Current(), err) == MoveEntries(old(Current()), tmp, source, entries, moveError)
    {
      var i := 0;
      while i < |entries|
        invariant 0 <= i <= |entries|
        invariant MoveEntries(Current(), tmp, source, entries[i..], moveError)
                  == MoveEntries(old(Current()), tmp, source, entries, moveError)
      {
        assert entries[i..][1..] == entries[i + 1..];
        var e := entries[i];
        if moveError(e).Some? {
          return moveError(e);
        }
        var moved := Move(Current(), Join(tmp, e), Join(source, e));
        dirs := moved.dirs;
        files := moved.files;
        i := i + 1;
      }
      assert entries[i..] == [];
      err := None;
    }

    /** `download_node`: the state it returns, the commands it runs and the disk it leaves. */
    method DownloadNode(s: State, projectRoot: string, sh: Shell, h: Host) returns (t: State)
      modifies this, sh
      requires sh.exec == h.exec
      ensures t == DownloadStage(s, projectRoot, old(Current()), h)
      ensures Current() == DownloadDisk(s, projectRoot, old(Current()), h)
      ensures sh.log == old(sh.log) + DownloadCommands(s, projectRoot, old(Current()), h)
    {
      if DownloadAborts(s) {
        return AbortStage(s, "DownloadNode", "Missing repository.url");
      }
      var url := s.repository.url.value;
      var name := RepoName(url, s.repository.name);
      var p := Layout(projectRoot, name);
      MakeLayout(p);
      var recs := FetchSource(sh, url, p, h);
      t := s.(repository := Repository(Some(url), Some(name), Some(p)),
              warnings := s.warnings + recs.warnings, errors := s.errors + recs.errors,
              status := Running);
    }

    /** The five `ensure_directory` calls. */
    method MakeLayout(p: LocalPaths)
      modifies this
      ensures Current() == WithLayout(old(Current()), p)
    {
      MakeDirs(p.repoRoot);
      MakeDirs(OutputDir(p));
      MakeDirs(p.mcpPlugin);
      MakeDirs(p.testsMcp);
      MakeDirs(p.mcpLogs);
    }

    /** The fetch: skipped when `source/.git` exists, else clear, clone, move and clean up. */
    method FetchSource(sh: Shell, url: string, p: LocalPaths, h: Host) returns (recs: Records)
      modifies this, sh
      requires sh.exec == h.exec
      ensures (Current(), recs) == Fetch(url, p, old(Current()), h)
      ensures sh.log == old(sh.log) + (if AlreadyCloned(p, old(Current())) then [] else [CloneCommand(url, p)])
    {
      if AlreadyCloned(p, Current()) {
        return Records([], []);
      }
      RemoveDir(p.sourceRoot);
      MakeDirs(p.sourceRoot);
      RemoveDir(TempClone(p));
      var res := Clone(sh, url, p, h.checkout);
      if res.code != 0 {
        return FetchRecords(res, None);
      }
      var err := MoveAll(TempClone(p), p.sourceRoot, h.listing, h.moveError);
      if err.None? {
        RemoveDir(TempClone(p));
      }
      recs := FetchRecords(res, err);
    }
  }
}
