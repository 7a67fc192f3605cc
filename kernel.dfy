/** The operating system as the login shell sees it. Every system call is an
    oracle: its answer is read from an `Os` value, and its effect on the
    process is a function on `Proc` snapshots. The class `Process` holds the
    state those calls change in place. */
module Kernel {
  import opened Wrappers
  import opened CStrings
  import Env

  /** An account record: the two fields the login shell reads. */
  datatype Passwd = Passwd(dir: CString, shell: CString)

  /** What stat() reports a path to be. */
  datatype FileKind = Regular | Directory | Other

  /** The system as seen from one filesystem root: its account database, what
      stat() finds at each path, and the directories chdir() accepts. */
  datatype View = View(passwd: map<int, Passwd>, files: map<string, FileKind>, dirs: set<string>)
  {
    /** stat(path) in this view: what the filesystem holds at path, None when stat fails. */
    function StatAt(path: string): Option<FileKind> {
      if path in files then Some(files[path]) else None
    }
  }

  /** The answers of the system: the real uid, the view from the real root and
      the (independent) view from inside the jail, the paths chroot() accepts,
      and whether setuid() and execve() succeed. */
  datatype Os = Os(uid: int, outer: View, jail: View, roots: set<string>, setuidOk: bool, execOk: bool)
  {
    /** The view of a process: the jail's once it has changed root. */
    function ViewOf(p: Proc): View {
      if p.jailed then jail else outer
    }

    /** getpwuid(uid): the record for uid in the visible account database. */
    function Lookup(p: Proc, uid: int): Option<Passwd> {
      var db := ViewOf(p).passwd;
      if uid in db then Some(db[uid]) else None
    }

    /** stat(path) in the view of the process. */
    function StatOf(p: Proc, path: string): Option<FileKind> {
      ViewOf(p).StatAt(path)
    }

    /** chdir(path) succeeds. */
    predicate CanChdir(p: Proc, path: string) {
      path in ViewOf(p).dirs
    }

    /** chroot(path) succeeds. */
    predicate CanChroot(path: string) {
      path in roots
    }
  }

  /** One system call as recorded in the trace, with its answer. */
  datatype Call =
    | Getuid(uid: int)
    | Geteuid(euid: int)
    | Getpwuid(uid: int, found: bool)
    | Stat(path: string, kind: Option<FileKind>)
    | Chdir(path: string, ok: bool)
    | Chroot(path: string, ok: bool)
    | Setuid(uid: int, ok: bool)
    | Putenv(entry: string)
    | Execve(path: string, argv: seq<string>, ok: bool)

  /** How the program ends. `Abort` is exit(-1); `Exec` is a successful
      execve, whose process image replaces this one; `Return` is main
      returning after an execve that failed. */
  datatype Outcome = Running | Abort | Exec(path: string, argv: seq<string>, env: seq<string>) | Return

  /** A snapshot of the process state the login shell changes. */
  datatype Proc = Proc(
    euid: int, cwd: string, root: string, jailed: bool,
    env: seq<string>, argv0: string, args: seq<string>,
    trace: seq<Call>, outcome: Outcome)
  {
    function Record(c: Call): Proc {
      this.(trace := trace + [c])
    }

    function AfterGetuid(os: Os): Proc {
      Record(Getuid(os.uid))
    }

    function AfterGeteuid(): Proc {
      Record(Geteuid(euid))
    }

    function AfterGetpwuid(os: Os, uid: int): Proc {
      Record(Getpwuid(uid, os.Lookup(this, uid).Some?))
    }

    function AfterStat(os: Os, path: string): Proc {
      Record(Stat(path, os.StatOf(this, path)))
    }

    function AfterChdir(os: Os, path: string): Proc {
      var ok := os.CanChdir(this, path);
      this.(cwd := if ok then path else cwd).Record(Call.Chdir(path, ok))
    }

    function AfterChroot(os: Os, path: string): Proc {
      var ok := os.CanChroot(path);
      (if ok then this.(root := path, jailed := true) else this).Record(Call.Chroot(path, ok))
    }

    function AfterSetuid(os: Os, uid: int): Proc {
      (if os.setuidOk then this.(euid := uid) else this).Record(Call.Setuid(uid, os.setuidOk))
    }

    function AfterPutenv(entry: string): Proc
      requires Env.IsSetting(entry)
    {
      this.(env := Env.PutEnv(env, entry)).Record(Call.Putenv(entry))
    }

    function AfterExecve(os: Os, path: string): Proc {
      var argv := [argv0] + args;
      (if os.execOk then this.(outcome := Exec(path, argv, env)) else this)
        .Record(Call.Execve(path, argv, os.execOk))
    }
  }

  /** The process the login shell runs in. */
  class Process {
    const os: Os
    var euid: int
    var cwd: string
    var root: string
    var jailed: bool
    var env: seq<string>
    var argv0: string
    var args: seq<string>
    var trace: seq<Call>
    var outcome: Outcome

    function State(): Proc
      reads this
    {
      Proc(euid, cwd, root, jailed, env, argv0, args, trace, outcome)
    }

    /** A process freshly started from `/`, with nothing done yet. */
    constructor (os: Os, euid: int, cwd: string, env: seq<string>, argv0: string, args: seq<string>)
      ensures this.os == os
      ensures State() == Proc(euid, cwd, "/", false, env, argv0, args, [], Running)
    {
      this.os := os;
      this.euid, this.cwd, this.root, this.jailed := euid, cwd, "/", false;
      this.env, this.argv0, this.args := env, argv0, args;
      this.trace, this.outcome := [], Running;
    }

    method Getuid() returns (uid: int)
      modifies this
      ensures uid == os.uid
      ensures State() == old(State()).AfterGetuid(os)
    {
      uid := os.uid;
      trace := trace + [Call.Getuid(uid)];
    }

    method Geteuid() returns (id: int)
      modifies this
      ensures id == old(euid)
      ensures State() == old(State()).AfterGeteuid()
    {
      id := euid;
      trace := trace + [Call.Geteuid(id)];
    }

    method Getpwuid(uid: int) returns (pw: Option<Passwd>)
      modifies this
      ensures pw == os.Lookup(old(State()), uid)
      ensures State() == old(State()).AfterGetpwuid(os, uid)
    {
      var db := (if jailed then os.jail else os.outer).passwd;
      pw := if uid in db then Some(db[uid]) else None;
      trace := trace + [Call.Getpwuid(uid, pw.Some?)];
    }

    method Stat(path: string) returns (kind: Option<FileKind>)
      modifies this
      ensures kind == os.StatOf(old(State()), path)
      ensures State() == old(State()).AfterStat(os, path)
    {
      kind := (if jailed then os.jail else os.outer).StatAt(path);
      trace := trace + [Call.Stat(path, kind)];
    }

    method Chdir(path: string) returns (ok: bool)
      modifies this
      ensures ok == os.CanChdir(old(State()), path)
      ensures State() == old(State()).AfterChdir(os, path)
    {
      ok := path in (if jailed then os.jail else os.outer).dirs;
      if ok {
        cwd := path;
      }
      trace := trace + [Call.Chdir(path, ok)];
    }

    method Chroot(path: string) returns (ok: bool)
      modifies this
      ensures ok == os.CanChroot(path)
      ensures State() == old(State()).AfterChroot(os, path)
    {
      ok := path in os.roots;
      if ok {
        root, jailed := path, true;
      }
      trace := trace + [Call.Chroot(path, ok)];
    }

    method Setuid(uid: int) returns (ok: bool)
      modifies this
      ensures ok == os.setuidOk
      ensures State() == old(State()).AfterSetuid(os, uid)
    {
      ok := os.setuidOk;
      if ok {
        euid := uid;
      }
      trace := trace + [Call.Setuid(uid, ok)];
    }

    method Putenv(entry: string)
      requires Env.IsSetting(entry)
      modifies this
      ensures State() == old(State()).AfterPutenv(entry)
    {
      env := Env.PutEnv(env, entry);
      trace := trace + [Call.Putenv(entry)];
    }

    /** execve(path, argv, env): on success the process image is replaced. */
    method Execve(path: string) returns (ok: bool)
      modifies this
      ensures ok == os.execOk
      ensures State() == old(State()).AfterExecve(os, path)
    {
      ok := os.execOk;
      var argv := [argv0] + args;
      if ok {
        outcome := Exec(path, argv, env);
      }
      trace := trace + [Call.Execve(path, argv, ok)];
    }

    /** exit(-1). */
    method Exit()
      modifies this
      ensures State() == old(State()).(outcome := Abort)
    {
      outcome := Abort;
    }
  }
}
