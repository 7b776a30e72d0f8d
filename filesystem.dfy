/** The part of the host that the camera artifacts touch: regular files with
    their permission bit, directories, and the log of shell commands run
    through `execCommand`. Each `fs.promises` call the services make is a
    step that either fails with Node's error text, changing nothing, or
    changes the state. */
module FileSystem {
  import opened Optional
  import opened Text

  datatype File = File(content: string, executable: bool)

  datatype HostState = HostState(files: map<string, File>, dirs: set<string>, commands: seq<string>)

  /** The outcome of one call: Node's error message, or none. */
  datatype Step = Step(error: Option<string>, state: HostState)

  /** `p` lies strictly inside directory `d`. */
  predicate Under(p: string, d: string) {
    StartsWith(p, d + "/")
  }

  /** `p` is an entry of directory `d` itself, not of a sub-directory. */
  predicate Child(p: string, d: string) {
    Under(p, d) && '/' !in p[|d| + 1..]
  }

  predicate Exists(s: HostState, p: string) {
    p in s.files || p in s.dirs
  }

  /** Node's message for a failed system call, as in
      "ENOENT: no such file or directory, open '/x'". */
  function NodeError(code: string, description: string, syscall: string, path: string): string {
    code + ": " + description + ", " + syscall + " '" + path + "'"
  }

  function NoEntry(syscall: string, path: string): string {
    NodeError("ENOENT", "no such file or directory", syscall, path)
  }

  const IS_DIRECTORY: string := "illegal operation on a directory"

  // ---------------------------------------------------------------------
  // One step per call
  // ---------------------------------------------------------------------

  /** `ensureDirectoryExists`: the directory is there afterwards. */
  function EnsureDir(s: HostState, p: string): HostState {
    s.(dirs := s.dirs + {p})
  }

  /** `execCommand`: the command is logged. */
  function Exec(s: HostState, command: string): HostState {
    s.(commands := s.commands + [command])
  }

  /** `writeFile`: a directory cannot be opened for writing; a file keeps its
      permission bit, a new one is not executable. */
  function WriteStep(s: HostState, p: string, content: string): Step {
    if p in s.dirs then Step(Some(NodeError("EISDIR", IS_DIRECTORY, "open", p)), s)
    else Step(None, s.(files := s.files[p := File(content, p in s.files && s.files[p].executable)]))
  }

  /** `chmod(p, '755')`. */
  function ChmodStep(s: HostState, p: string): Step {
    if p in s.files then Step(None, s.(files := s.files[p := s.files[p].(executable := true)]))
    else if p in s.dirs then Step(None, s)
    else Step(Some(NoEntry("chmod", p)), s)
  }

  /** `mkdir(p, { recursive: true })`: an existing directory is fine, a file
      in the way is not. */
  function MkdirStep(s: HostState, p: string): Step {
    if p in s.files then Step(Some(NodeError("EEXIST", "file already exists", "mkdir", p)), s)
    else Step(None, s.(dirs := s.dirs + {p}))
  }

  /** `unlink`: only a file goes. */
  function UnlinkStep(s: HostState, p: string): Step {
    if p in s.files then Step(None, s.(files := s.files - {p}))
    else if p in s.dirs then Step(Some(NodeError("EISDIR", IS_DIRECTORY, "unlink", p)), s)
    else Step(Some(NoEntry("unlink", p)), s)
  }

  /** What a recursive removal of `p` takes away. */
  predicate Covered(q: string, p: string) {
    q == p || Under(q, p)
  }

  function Prune(s: HostState, p: string): (r: HostState)
    ensures r.commands == s.commands
  {
    HostState(
      map q | q in s.files && !Covered(q, p) :: s.files[q],
      (set q | q in s.dirs && !Covered(q, p)),
      s.commands)
  }

  /** `rm(p, { recursive: true })` (system call `lstat`) and
      `rmdir(p, { recursive: true })` (`rmdir`): `p` and everything inside it. */
  function RemoveTreeStep(s: HostState, p: string, syscall: string): Step {
    if Exists(s, p) then Step(None, Prune(s, p))
    else Step(Some(NoEntry(syscall, p)), s)
  }

  /** `readFile(p, 'utf-8')`. */
  datatype Read = Read(error: Option<string>, content: string)

  function ReadStep(s: HostState, p: string): Read {
    if p in s.files then Read(None, s.files[p].content)
    else if p in s.dirs then Read(Some("EISDIR: " + IS_DIRECTORY + ", read"), "")
    else Read(Some(NoEntry("open", p)), "")
  }

  /** Why `readdir(p)` fails, if it does. */
  function ScandirError(s: HostState, p: string): Option<string> {
    if p in s.dirs then None
    else if p in s.files then Some(NodeError("ENOTDIR", "not a directory", "scandir", p))
    else Some(NoEntry("scandir", p))
  }

  // ---------------------------------------------------------------------
  // The host, updated in place
  // ---------------------------------------------------------------------

  class Host {
    var files: map<string, File>
    var dirs: set<string>
    var commands: seq<string>

    function State(): HostState
      reads this
    {
      HostState(files, dirs, commands)
    }

    constructor(s: HostState)
      ensures State() == s
    {
      files := s.files;
      dirs := s.dirs;
      commands := s.commands;
    }

    method EnsureDirectoryExists(p: string)
      modifies this
      ensures State() == EnsureDir(old(State()), p)
    {
      dirs := dirs + {p};
    }

    method ExecCommand(command: string)
      modifies this
      ensures State() == Exec(old(State()), command)
    {
      commands := commands + [command];
    }

    /** `fs.stat(p).catch(() => false)`: whether anything is at `p`. */
    method Stat(p: string) returns (found: bool)
      ensures found <==> Exists(State(), p)
    {
      found := p in files || p in dirs;
    }

    method WriteFile(p: string, content: string) returns (error: Option<string>)
      modifies this
      ensures Step(error, State()) == WriteStep(old(State()), p, content)
    {
      if p in dirs {
        error := Some(NodeError("EISDIR", IS_DIRECTORY, "open", p));
      } else {
        files := files[p := File(content, p in files && files[p].executable)];
        error := None;
      }
    }

    method Chmod(p: string) returns (error: Option<string>)
      modifies this
      ensures Step(error, State()) == ChmodStep(old(State()), p)
    {
      error := None;
      if p in files {
        files := files[p := files[p].(executable := true)];
      } else if p !in dirs {
        error := Some(NoEntry("chmod", p));
      }
    }

    method Mkdir(p: string) returns (error: Option<string>)
      modifies this
      ensures Step(error, State()) == MkdirStep(old(State()), p)
    {
      if p in files {
        error := Some(NodeError("EEXIST", "file already exists", "mkdir", p));
      } else {
        dirs := dirs + {p};
        error := None;
      }
    }

    method Unlink(p: string) returns (error: Option<string>)
      modifies this
      ensures Step(error, State()) == UnlinkStep(old(State()), p)
    {
      if p in files {
        files := files - {p};
        error := None;
      } else if p in dirs {
        error := Some(NodeError("EISDIR", IS_DIRECTORY, "unlink", p));
      } else {
        error := Some(NoEntry("unlink", p));
      }
    }

    method RemoveTree(p: string, syscall: string) returns (error: Option<string>)
      modifies this
      ensures Step(error, State()) == RemoveTreeStep(old(State()), p, syscall)
    {
      if p in files || p in dirs {
        files := map q | q in files && !Covered(q, p) :: files[q];
        dirs := set q | q in dirs && !Covered(q, p);
        error := None;
      } else {
        error := Some(NoEntry(syscall, p));
      }
    }

    method ReadFile(p: string) returns (error: Option<string>, content: string)
      ensures Read(error, content) == ReadStep(State(), p)
    {
      if p in files {
        error, content := None, files[p].content;
      } else if p in dirs {
        error, content := Some("EISDIR: " + IS_DIRECTORY + ", read"), "";
      } else {
        error, content := Some(NoEntry("open", p)), "";
      }
    }

    method Readdir(p: string) returns (error: Option<string>)
      ensures error == ScandirError(State(), p)
    {
      if p in dirs {
        error := None;
      } else if p in files {
        error := Some(NodeError("ENOTDIR", "not a directory", "scandir", p));
      } else {
        error := Some(NoEntry("scandir", p));
      }
    }
  }

  // ---------------------------------------------------------------------
  // Directory listings and what removing their entries leaves
  // ---------------------------------------------------------------------

  /** `es` is what `readdir(dir)` lists: every entry of `dir`, once each. */
  ghost predicate Listing(s: HostState, dir: string, es: seq<string>) {
    (forall i :: 0 <= i < |es| ==> Child(es[i], dir) && Exists(s, es[i])) &&
    (forall i, j :: 0 <= i < j < |es| ==> es[i] != es[j]) &&
    (forall p :: Child(p, dir) && Exists(s, p) ==> p in es)
  }

  /** `p` goes when the entries `es` are removed, those listed as
      directories (in `listed`) with all their contents. */
  predicate Removed(es: seq<string>, listed: set<string>, p: string)
    decreases |es|
  {
    es != [] && (p == es[0] || (es[0] in listed && Under(p, es[0])) || Removed(es[1..], listed, p))
  }

  function Without(s: HostState, es: seq<string>, listed: set<string>): HostState {
    HostState(
      map q | q in s.files && !Removed(es, listed, q) :: s.files[q],
      (set q | q in s.dirs && !Removed(es, listed, q)),
      s.commands)
  }

  /** Two entries of one directory are never inside each other. */
  lemma ChildrenApart(a: string, b: string, d: string)
    requires Child(a, d) && Child(b, d)
    ensures !Under(a, b)
  {
    if |b| < |a| {
      assert a[|d| + 1..][|b| - |d| - 1] == a[|b|];
    }
  }

  lemma UnderTransitive(p: string, e: string, d: string)
    requires Under(p, e) && Under(e, d)
    ensures Under(p, d)
  {
    assert p[..|d| + 1] == p[..|e| + 1][..|d| + 1] == (e + "/")[..|d| + 1] == e[..|d| + 1];
  }

  /** Only entries of `dir` and what lies inside them are removed. */
  lemma {:induction false} RemovedInside(es: seq<string>, listed: set<string>, dir: string, p: string)
    requires forall i :: 0 <= i < |es| ==> Child(es[i], dir)
    requires Removed(es, listed, p)
    ensures Under(p, dir)
    decreases |es|
  {
    if p == es[0] {
    } else if es[0] in listed && Under(p, es[0]) {
      UnderTransitive(p, es[0], dir);
    } else {
      RemovedInside(es[1..], listed, dir, p);
    }
  }

  /** Every listed entry is removed. */
  lemma {:induction false} ListedRemoved(es: seq<string>, listed: set<string>, i: nat)
    requires i < |es|
    ensures Removed(es, listed, es[i])
    decreases i
  {
    if i > 0 {
      ListedRemoved(es[1..], listed, i - 1);
    }
  }
}
