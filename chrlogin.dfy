/** The login shell itself: its configuration, the two strings it assembles,
    the whole run of main as a function of the system's answers, and main as
    a method over the process. */
module Chrlogin {
  import opened Wrappers
  import opened CStrings
  import opened Jail
  import Env
  import opened Kernel

  /** The shell started inside the jail. */
  const SHELL: CString := "/bin/bash"
  /** Slash number CHROOT_LEVEL of the home directory ends the jail root. */
  const CHROOT_LEVEL: nat := 2
  /** The size of each of main's three character buffers. */
  const MAX_STRING: nat := 1024
  const HOME_PREFIX: CString := "HOME="

  /** The home directory ends with a NUL inside `chroot_dir` (chrlogin.c line 100), and
      the jail root cut from it leaves room for SHELL and its NUL in `shell`
      (chrlogin.c line 136). */
  predicate HomeFits(home: string) {
    && |home| < MAX_STRING - 1
    && (JailRoot(home, CHROOT_LEVEL).Some? ==> |JailRoot(home, CHROOT_LEVEL).value| + |SHELL| < MAX_STRING)
  }

  /** Every string main copies fits its buffer together with its NUL. */
  predicate Fits(os: Os) {
    && (os.uid in os.outer.passwd ==> HomeFits(os.outer.passwd[os.uid].dir))
    && (os.uid in os.jail.passwd && os.jail.passwd[os.uid].dir in os.jail.dirs ==>
          |HOME_PREFIX| + |os.jail.passwd[os.uid].dir| < MAX_STRING)
  }

  /** The process as the login shell is started in it. */
  predicate Started(p: Proc) {
    p.trace == [] && p.outcome == Running && !p.jailed
  }

  /** The path of the shell as seen from outside the jail. */
  function ShellPath(jail: string): (p: string)
    ensures |p| == |jail| + |SHELL| && jail <= p && p[|jail|] == '/'
  {
    jail + SHELL
  }

  /** The environment entry that sets HOME to `dir`; reading it back gives
      the variable HOME and the value `dir`. */
  function HomeEntry(dir: string): (e: string)
    ensures Env.IsSetting(e) && Env.Name(e) == "HOME" && Env.Value(e) == dir
  {
    var e := HOME_PREFIX + dir;
    FindAt(e, '=', 4);
    e
  }

  /** Deriving the jail root from the shell path gives back the jail root:
      SHELL adds exactly the slash that ends it. */
  lemma ShellPathRoundTrip(jail: string, level: nat)
    requires Slashes(jail) == level
    ensures JailRoot(ShellPath(jail), level) == Some(jail)
    ensures Slashes(ShellPath(jail)) == level + 2
  {
    JailRootIs(ShellPath(jail), level, jail);
  }

  /** The part of main that runs next, with what the earlier parts found. */
  datatype Stage =
    | AtAccount              // look up the real user in the system's passwd database
    | AtDerive(home: string) // stat the home directory and cut it down to the jail root
    | AtShell(jail: string)  // the shell inside the jail must be a regular file
    | AtEnter(jail: string)  // chdir into the jail, chroot to it, setuid to the real user
    | AtInner                // look up the real user in the jail's passwd database, chdir home
    | AtHandoff(pw: Passwd)  // argv[0] and HOME from the jail's record, then execve

  function Rank(s: Stage): nat {
    match s
    case AtAccount => 5
    case AtDerive(_) => 4
    case AtShell(_) => 3
    case AtEnter(_) => 2
    case AtInner => 1
    case AtHandoff(_) => 0
  }

  /** The whole run of main: the process state it leaves behind, for every
      set of answers the system can give. */
  function Run(os: Os, p0: Proc): (r: Proc)
    ensures r.outcome != Running && r.args == p0.args
  {
    var p := p0.AfterGetuid(os).AfterGeteuid();
    if p0.euid != 0 || os.uid == 0 then p.(outcome := Abort)
    else Continue(os, p, AtAccount)
  }

  /** What main does from stage `s` on. Every failed check ends the run with
      Abort; the answer of the first stat and of setuid is not looked at. */
  function Continue(os: Os, p: Proc, s: Stage): (r: Proc)
    ensures r.outcome != Running && r.args == p.args
    decreases Rank(s)
  {
    match s
    case AtAccount =>
      var outer := os.Lookup(p, os.uid);
      var p := p.AfterGetpwuid(os, os.uid);
      if outer.None? then p.(outcome := Abort)
      else Continue(os, p, AtDerive(outer.value.dir))
    case AtDerive(home) =>
      var p := p.AfterStat(os, home);
      if JailRoot(home, CHROOT_LEVEL).None? then p.(outcome := Abort)
      else Continue(os, p, AtShell(JailRoot(home, CHROOT_LEVEL).value))
    case AtShell(jail) =>
      var kind := os.StatOf(p, ShellPath(jail));
      var p := p.AfterStat(os, ShellPath(jail));
      if kind != Some(Regular) then p.(outcome := Abort)
      else Continue(os, p, AtEnter(jail))
    case AtEnter(jail) =>
      var entered := os.CanChdir(p, jail);
      var p := p.AfterChdir(os, jail);
      if !entered then p.(outcome := Abort)
      else
        var confined := os.CanChroot(jail);
        var p := p.AfterChroot(os, jail);
        if !confined then p.(outcome := Abort)
        else Continue(os, p.AfterSetuid(os, os.uid), AtInner)
    case AtInner =>
      var inner := os.Lookup(p, os.uid);
      var p := p.AfterGetpwuid(os, os.uid);
      if inner.None? then p.(outcome := Abort)
      else
        var atHome := os.CanChdir(p, inner.value.dir);
        var p := p.AfterChdir(os, inner.value.dir);
        if !atHome then p.(outcome := Abort)
        else Continue(os, p, AtHandoff(inner.value))
    case AtHandoff(pw) =>
      var p := p.(argv0 := pw.shell).AfterPutenv(HomeEntry(pw.dir)).AfterExecve(os, SHELL);
      if os.execOk then p else p.(outcome := Return)
  }

  /** main, on the process it runs in. */
  method Login(proc: Process)
    requires Fits(proc.os) && Started(proc.State())
    modifies proc
    ensures proc.State() == Run(proc.os, old(proc.State()))
  {
    var realUser := proc.Getuid();
    var euid := proc.Geteuid();
    if euid != 0 {
      proc.Exit();
      return;
    }
    if realUser == 0 {
      proc.Exit();
      return;
    }
    FindAccount(proc, realUser);
  }

  method FindAccount(proc: Process, realUser: int)
    requires realUser == proc.os.uid && Fits(proc.os) && proc.State().outcome == Running && !proc.State().jailed
    modifies proc
    ensures proc.State() == Continue(proc.os, old(proc.State()), AtAccount)
  {
    var pw := proc.Getpwuid(realUser);
    if pw.None? {
      proc.Exit();
      return;
    }
    DeriveJail(proc, realUser, pw.value.dir);
  }

  /** The home directory is copied into the buffer `chroot_dir`, which the
      derivation loop then cuts in place. */
  method DeriveJail(proc: Process, realUser: int, home: CString)
    requires HomeFits(home)
    requires realUser == proc.os.uid && Fits(proc.os) && proc.State().outcome == Running && !proc.State().jailed
    modifies proc
    ensures proc.State() == Continue(proc.os, old(proc.State()), AtDerive(home))
  {
    var chrootDir := new char[MAX_STRING];
    StrnCpy(chrootDir, home, MAX_STRING - 1);
    // a home that does not begin with '/', or that stat() cannot find, is
    // only reported (chrlogin.c lines 103-111)
    var homeKind := proc.Stat(CStr(chrootDir[..]));
    var cnt := CutAtLevel(chrootDir, CHROOT_LEVEL);
    if cnt < CHROOT_LEVEL {
      proc.Exit();
      return;
    }
    CheckShell(proc, realUser, CStr(chrootDir[..]));
  }

  /** The shell path is built in the buffer `shell` and must name a regular file. */
  method CheckShell(proc: Process, realUser: int, jail: CString)
    requires |jail| + |SHELL| < MAX_STRING
    requires realUser == proc.os.uid && Fits(proc.os) && proc.State().outcome == Running && !proc.State().jailed
    modifies proc
    ensures proc.State() == Continue(proc.os, old(proc.State()), AtShell(jail))
  {
    var shell := new char[MAX_STRING];
    StrnCpy(shell, jail, MAX_STRING);
    StrnCat(shell, SHELL, MAX_STRING - StrLen(shell[..]));
    assert SHELL[..Min(MAX_STRING - |jail|, |SHELL|)] == SHELL;
    assert CStr(shell[..]) == ShellPath(jail);
    var kind := proc.Stat(CStr(shell[..]));
    if kind.None? {
      proc.Exit();
      return;
    }
    if kind.value != Regular {
      proc.Exit();
      return;
    }
    EnterJail(proc, realUser, jail);
  }

  method EnterJail(proc: Process, realUser: int, jail: string)
    requires realUser == proc.os.uid && Fits(proc.os) && proc.State().outcome == Running
    modifies proc
    ensures proc.State() == Continue(proc.os, old(proc.State()), AtEnter(jail))
  {
    var ok := proc.Chdir(jail);
    if !ok {
      proc.Exit();
      return;
    }
    ok := proc.Chroot(jail);
    if !ok {
      proc.Exit();
      return;
    }
    var dropped := proc.Setuid(realUser);
    FindInnerAccount(proc, realUser);
  }

  method FindInnerAccount(proc: Process, realUser: int)
    requires realUser == proc.os.uid && Fits(proc.os) && proc.State().outcome == Running && proc.State().jailed
    modifies proc
    ensures proc.State() == Continue(proc.os, old(proc.State()), AtInner)
  {
    var pw := proc.Getpwuid(realUser);
    if pw.None? {
      proc.Exit();
      return;
    }
    var ok := proc.Chdir(pw.value.dir);
    if !ok {
      proc.Exit();
      return;
    }
    HandOff(proc, pw.value);
  }

  /** argv[0] is overwritten, HOME is assembled in the buffer `home_dir` and
      put into the environment, and the shell is executed. */
  method HandOff(proc: Process, pw: Passwd)
    requires |HOME_PREFIX| + |pw.dir| < MAX_STRING
    requires proc.State().outcome == Running
    modifies proc
    ensures proc.State() == Continue(proc.os, old(proc.State()), AtHandoff(pw))
  {
    proc.argv0 := pw.shell;
    var homeDir := new char[MAX_STRING];
    StrCpy(homeDir, HOME_PREFIX);
    StrnCat(homeDir, pw.dir, MAX_STRING - StrLen(homeDir[..]));
    assert pw.dir[..Min(MAX_STRING - |HOME_PREFIX|, |pw.dir|)] == pw.dir;
    assert CStr(homeDir[..]) == HomeEntry(pw.dir);
    proc.Putenv(CStr(homeDir[..]));
    var ok := proc.Execve(SHELL);
    if !ok {
      // execve returned: main returns 0
      proc.outcome := Return;
    }
  }
}
