/** What the run of the login shell guarantees: the calls it makes and their
    order, how it ends, and that it fails closed. */
module Properties {
  import opened Wrappers
  import CStrings
  import opened Jail
  import Env
  import opened Kernel
  import opened Chrlogin

  /** Call j of trace t failed, and main checks that failure: a passwd lookup
      that found nothing, a chdir or chroot that failed, or the second stat
      (the one of the shell) finding no regular file. The first stat, of the
      home directory, is not checked. */
  predicate FailedCheck(t: seq<Call>, j: int)
    requires 0 <= j < |t|
  {
    || (t[j].Getpwuid? && !t[j].found)
    || (t[j].Chdir? && !t[j].ok)
    || (t[j].Chroot? && !t[j].ok)
    || (t[j].Stat? && 0 < j && t[j - 1].Stat? && t[j].kind != Some(Regular))
  }

  /** The home directory the system's passwd database gives the real user. */
  function OuterHome(os: Os): string
    requires os.uid in os.outer.passwd
  {
    os.outer.passwd[os.uid].dir
  }

  /** Every condition main checks holds, stated on the system's answers. */
  predicate ChecksPass(os: Os, p0: Proc) {
    && p0.euid == 0 && os.uid != 0
    && os.uid in os.outer.passwd
    && JailRoot(OuterHome(os), CHROOT_LEVEL).Some?
    && var jail := JailRoot(OuterHome(os), CHROOT_LEVEL).value;
       && ShellPath(jail) in os.outer.files && os.outer.files[ShellPath(jail)] == Regular
       && jail in os.outer.dirs
       && jail in os.roots
       && os.uid in os.jail.passwd
       && os.jail.passwd[os.uid].dir in os.jail.dirs
  }

  // The calls main makes, written out independently of the process state.

  /** How many calls main makes: it stops right after the first checked call
      that fails, and makes all twelve when none does. */
  function Stop(os: Os, p0: Proc): nat {
    if p0.euid != 0 || os.uid == 0 then 2
    else if os.uid !in os.outer.passwd then 3
    else
      var root := JailRoot(OuterHome(os), CHROOT_LEVEL);
      if root.None? then 4
      else if os.outer.StatAt(ShellPath(root.value)) != Some(Regular) then 5
      else if root.value !in os.outer.dirs then 6
      else if root.value !in os.roots then 7
      else if os.uid !in os.jail.passwd then 9
      else if os.jail.passwd[os.uid].dir !in os.jail.dirs then 10
      else 12
  }

  /** Call number k of main, with the answer the system gives to it. */
  function CallAt(os: Os, p0: Proc, k: nat): Call
    requires k < Stop(os, p0)
  {
    if k == 0 then Getuid(os.uid)
    else if k == 1 then Geteuid(p0.euid)
    else if k == 2 then Getpwuid(os.uid, os.uid in os.outer.passwd)
    else if k == 3 then Stat(OuterHome(os), os.outer.StatAt(OuterHome(os)))
    else
      var jail := JailRoot(OuterHome(os), CHROOT_LEVEL).value;
      if k == 4 then Stat(ShellPath(jail), os.outer.StatAt(ShellPath(jail)))
      else if k == 5 then Chdir(jail, jail in os.outer.dirs)
      else if k == 6 then Chroot(jail, jail in os.roots)
      else if k == 7 then Setuid(os.uid, os.setuidOk)
      else if k == 8 then Getpwuid(os.uid, os.uid in os.jail.passwd)
      else
        var pw := os.jail.passwd[os.uid];
        if k == 9 then Chdir(pw.dir, pw.dir in os.jail.dirs)
        else if k == 10 then Putenv(HomeEntry(pw.dir))
        else Execve(SHELL, [pw.shell] + p0.args, os.execOk)
  }

  /** The calls main makes, in order. */
  function Calls(os: Os, p0: Proc): seq<Call> {
    seq(Stop(os, p0), k requires 0 <= k < Stop(os, p0) => CallAt(os, p0, k))
  }

  /** How main ends: Abort unless it made all its calls, and then whatever
      execve did. */
  function Ending(os: Os, p0: Proc, env: seq<string>): Outcome {
    if Stop(os, p0) < 12 then Abort
    else if os.execOk then Exec(SHELL, [os.jail.passwd[os.uid].shell] + p0.args, env)
    else Return
  }

  /** Main makes all its calls exactly when all its checks pass. */
  lemma ChecksPassStop(os: Os, p0: Proc)
    ensures ChecksPass(os, p0) <==> Stop(os, p0) == 12
  {
  }

  /** Where stage s starts among main's calls. */
  function Start(s: Stage): nat {
    match s
    case AtAccount => 2
    case AtDerive(_) => 3
    case AtShell(_) => 4
    case AtEnter(_) => 5
    case AtInner => 8
    case AtHandoff(_) => 10
  }

  /** Process p is the one in which main begins stage s: every earlier check
      passed, the earlier calls are in the trace, and s carries what the
      earlier stages found. */
  predicate Reached(os: Os, p0: Proc, p: Proc, s: Stage) {
    && Start(s) < Stop(os, p0)
    && |p.trace| == Start(s)
    && (forall k :: 0 <= k < |p.trace| ==> p.trace[k] == CallAt(os, p0, k))
    && p.args == p0.args
    && p.jailed == (Rank(s) <= 1)
    && match s
       case AtDerive(home) => home == OuterHome(os)
       case AtShell(jail) => Some(jail) == JailRoot(OuterHome(os), CHROOT_LEVEL)
       case AtEnter(jail) => Some(jail) == JailRoot(OuterHome(os), CHROOT_LEVEL)
       case AtHandoff(pw) => pw == os.jail.passwd[os.uid]
       case _ => true
  }

  /** Run r ended after making the calls written out above, as written out above. */
  predicate Finished(os: Os, p0: Proc, r: Proc) {
    && |r.trace| == Stop(os, p0)
    && (forall k :: 0 <= k < |r.trace| ==> r.trace[k] == CallAt(os, p0, k))
    && r.outcome == Ending(os, p0, r.env)
  }

  // One stage at a time: main either finishes as written out above, or it
  // reaches the next stage.

  lemma AccountStep(os: Os, p0: Proc, p: Proc)
    requires Reached(os, p0, p, AtAccount)
    ensures os.uid !in os.outer.passwd ==> Finished(os, p0, Continue(os, p, AtAccount))
    ensures os.uid in os.outer.passwd ==>
      var q := p.AfterGetpwuid(os, os.uid);
      Reached(os, p0, q, AtDerive(OuterHome(os)))
      && Continue(os, p, AtAccount) == Continue(os, q, AtDerive(OuterHome(os)))
  {
  }

  lemma DeriveStep(os: Os, p0: Proc, p: Proc, home: string)
    requires Reached(os, p0, p, AtDerive(home))
    ensures JailRoot(home, CHROOT_LEVEL).None? ==> Finished(os, p0, Continue(os, p, AtDerive(home)))
    ensures JailRoot(home, CHROOT_LEVEL).Some? ==>
      var q, jail := p.AfterStat(os, home), JailRoot(home, CHROOT_LEVEL).value;
      Reached(os, p0, q, AtShell(jail)) && Continue(os, p, AtDerive(home)) == Continue(os, q, AtShell(jail))
  {
  }

  lemma ShellStep(os: Os, p0: Proc, p: Proc, jail: string)
    requires Reached(os, p0, p, AtShell(jail))
    ensures os.outer.StatAt(ShellPath(jail)) != Some(Regular) ==> Finished(os, p0, Continue(os, p, AtShell(jail)))
    ensures os.outer.StatAt(ShellPath(jail)) == Some(Regular) ==>
      var q := p.AfterStat(os, ShellPath(jail));
      Reached(os, p0, q, AtEnter(jail)) && Continue(os, p, AtShell(jail)) == Continue(os, q, AtEnter(jail))
  {
  }

  lemma EnterStep(os: Os, p0: Proc, p: Proc, jail: string)
    requires Reached(os, p0, p, AtEnter(jail))
    ensures !(jail in os.outer.dirs && jail in os.roots) ==> Finished(os, p0, Continue(os, p, AtEnter(jail)))
    ensures jail in os.outer.dirs && jail in os.roots ==>
      var q := p.AfterChdir(os, jail).AfterChroot(os, jail).AfterSetuid(os, os.uid);
      Reached(os, p0, q, AtInner) && Continue(os, p, AtEnter(jail)) == Continue(os, q, AtInner)
  {
  }

  lemma InnerStep(os: Os, p0: Proc, p: Proc)
    requires Reached(os, p0, p, AtInner)
    ensures !(os.uid in os.jail.passwd && os.jail.passwd[os.uid].dir in os.jail.dirs) ==>
      Finished(os, p0, Continue(os, p, AtInner))
    ensures os.uid in os.jail.passwd && os.jail.passwd[os.uid].dir in os.jail.dirs ==>
      var pw := os.jail.passwd[os.uid];
      var q := p.AfterGetpwuid(os, os.uid).AfterChdir(os, pw.dir);
      Reached(os, p0, q, AtHandoff(pw)) && Continue(os, p, AtInner) == Continue(os, q, AtHandoff(pw))
  {
  }

  lemma HandoffStep(os: Os, p0: Proc, p: Proc, pw: Passwd)
    requires Reached(os, p0, p, AtHandoff(pw))
    ensures Finished(os, p0, Continue(os, p, AtHandoff(pw)))
  {
  }

  /** From any stage main reaches, it makes the rest of its calls and ends as
      written out above. */
  lemma {:induction false} ContinueCalls(os: Os, p0: Proc, p: Proc, s: Stage)
    requires Reached(os, p0, p, s)
    ensures Finished(os, p0, Continue(os, p, s))
    decreases Rank(s)
  {
    match s
    case AtAccount =>
      AccountStep(os, p0, p);
      if os.uid in os.outer.passwd {
        ContinueCalls(os, p0, p.AfterGetpwuid(os, os.uid), AtDerive(OuterHome(os)));
      }
    case AtDerive(home) =>
      DeriveStep(os, p0, p, home);
      if JailRoot(home, CHROOT_LEVEL).Some? {
        ContinueCalls(os, p0, p.AfterStat(os, home), AtShell(JailRoot(home, CHROOT_LEVEL).value));
      }
    case AtShell(jail) =>
      ShellStep(os, p0, p, jail);
      if os.outer.StatAt(ShellPath(jail)) == Some(Regular) {
        ContinueCalls(os, p0, p.AfterStat(os, ShellPath(jail)), AtEnter(jail));
      }
    case AtEnter(jail) =>
      EnterStep(os, p0, p, jail);
      if jail in os.outer.dirs && jail in os.roots {
        ContinueCalls(os, p0, p.AfterChdir(os, jail).AfterChroot(os, jail).AfterSetuid(os, os.uid), AtInner);
      }
    case AtInner =>
      InnerStep(os, p0, p);
      if os.uid in os.jail.passwd && os.jail.passwd[os.uid].dir in os.jail.dirs {
        var pw := os.jail.passwd[os.uid];
        ContinueCalls(os, p0, p.AfterGetpwuid(os, os.uid).AfterChdir(os, pw.dir), AtHandoff(pw));
      }
    case AtHandoff(pw) =>
      HandoffStep(os, p0, p, pw);
  }

  /** The trace of every run is the sequence of calls written out above, and
      the run ends as written out above. */
  lemma TraceOfRun(os: Os, p0: Proc)
    requires Started(p0)
    ensures Run(os, p0).trace == Calls(os, p0)
    ensures Run(os, p0).outcome == Ending(os, p0, Run(os, p0).env)
  {
    if p0.euid == 0 && os.uid != 0 {
      ContinueCalls(os, p0, p0.AfterGetuid(os).AfterGeteuid(), AtAccount);
    }
    var t := Run(os, p0).trace;
    assert forall k :: 0 <= k < |t| ==> t[k] == Calls(os, p0)[k];
  }

  /** Without effective root, or when the real user is root, main stops after
      reading the two ids: nothing else is looked up or changed. */
  lemma PrivilegeChecked(os: Os, p0: Proc)
    requires Started(p0) && (p0.euid != 0 || os.uid == 0)
    ensures Run(os, p0) == p0.(trace := [Getuid(os.uid), Geteuid(p0.euid)], outcome := Abort)
  {
  }

  /** A real user unknown to the system's passwd database aborts right after
      the lookup. */
  lemma OuterLookupChecked(os: Os, p0: Proc)
    requires Started(p0) && p0.euid == 0 && os.uid != 0 && os.uid !in os.outer.passwd
    ensures Run(os, p0) ==
      p0.(trace := [Getuid(os.uid), Geteuid(0), Getpwuid(os.uid, false)], outcome := Abort)
  {
  }

  /** A home directory with at most CHROOT_LEVEL slashes aborts after its
      stat: no chdir, chroot, setuid or execve. */
  lemma ShallowHomeAborts(os: Os, p0: Proc)
    requires Started(p0) && p0.euid == 0 && os.uid != 0 && os.uid in os.outer.passwd
    requires Slashes(OuterHome(os)) <= CHROOT_LEVEL
    ensures Run(os, p0) ==
      p0.(trace := [Getuid(os.uid), Geteuid(0), Getpwuid(os.uid, true),
                    Stat(OuterHome(os), os.StatOf(p0, OuterHome(os)))],
          outcome := Abort)
  {
    JailRootMissing(OuterHome(os), CHROOT_LEVEL);
    var p := p0.AfterGetuid(os).AfterGeteuid().AfterGetpwuid(os, os.uid);
    assert Run(os, p0) == Continue(os, p, AtDerive(OuterHome(os)));
  }

  /** Neither the first character of the home directory nor what stat says
      about it stops main: as soon as the jail root exists, the shell inside
      it is the next thing examined. */
  lemma HomeChecksNotFatal(os: Os, p0: Proc)
    requires Started(p0) && p0.euid == 0 && os.uid != 0 && os.uid in os.outer.passwd
    requires JailRoot(OuterHome(os), CHROOT_LEVEL).Some?
    ensures var jail := JailRoot(OuterHome(os), CHROOT_LEVEL).value;
      var t := Run(os, p0).trace;
      |t| > 4 && t[3] == Stat(OuterHome(os), os.StatOf(p0, OuterHome(os)))
      && t[4] == Stat(ShellPath(jail), os.StatOf(p0, ShellPath(jail)))
  {
    TraceOfRun(os, p0);
    assert Run(os, p0).trace[3] == CallAt(os, p0, 3);
    assert Run(os, p0).trace[4] == CallAt(os, p0, 4);
  }

  /** A shell that is missing or not a regular file aborts before chdir and
      chroot, with the process otherwise as it started. */
  lemma ShellChecked(os: Os, p0: Proc)
    requires Started(p0) && p0.euid == 0 && os.uid != 0 && os.uid in os.outer.passwd
    requires JailRoot(OuterHome(os), CHROOT_LEVEL).Some?
    requires var jail := JailRoot(OuterHome(os), CHROOT_LEVEL).value;
      os.StatOf(p0, ShellPath(jail)) != Some(Regular)
    ensures var jail := JailRoot(OuterHome(os), CHROOT_LEVEL).value;
      Run(os, p0) ==
        p0.(trace := [Getuid(os.uid), Geteuid(0), Getpwuid(os.uid, true),
                      Stat(OuterHome(os), os.StatOf(p0, OuterHome(os))),
                      Stat(ShellPath(jail), os.StatOf(p0, ShellPath(jail)))],
            outcome := Abort)
  {
    var home := OuterHome(os);
    var p := p0.AfterGetuid(os).AfterGeteuid().AfterGetpwuid(os, os.uid);
    assert Run(os, p0) == Continue(os, p, AtDerive(home));
    var jail := JailRoot(home, CHROOT_LEVEL).value;
    assert Continue(os, p, AtDerive(home)) == Continue(os, p.AfterStat(os, home), AtShell(jail));
  }

  /** A chroot happens only as the seventh call, right after a successful
      chdir to the same directory, and only once every earlier check passed:
      effective root, a non-root real user, an account in the system's
      database, and a regular shell file inside that directory. */
  lemma ChrootAfterChecks(os: Os, p0: Proc)
    requires Started(p0)
    ensures var t := Run(os, p0).trace;
      forall j :: 0 <= j < |t| && t[j].Chroot? ==>
        && j == 6 && os.uid != 0
        && t[0] == Getuid(os.uid) && t[1] == Geteuid(0) && t[2] == Getpwuid(os.uid, true)
        && t[3].Stat? && t[4] == Stat(ShellPath(t[j].path), Some(Regular))
        && t[5] == Chdir(t[j].path, true)
        && Some(t[j].path) == JailRoot(OuterHome(os), CHROOT_LEVEL)
  {
    TraceOfRun(os, p0);
  }

  /** setuid to the real user comes right after a successful chroot, with no
      call in between; the second passwd lookup comes right after it. */
  lemma SetuidAfterChroot(os: Os, p0: Proc)
    requires Started(p0)
    ensures var t := Run(os, p0).trace;
      && (forall j :: 0 <= j < |t| && t[j].Setuid? ==>
            j == 7 && t[j].uid == os.uid && t[6].Chroot? && t[6].ok)
      && (forall j :: 0 <= j < |t| && t[j].Getpwuid? ==>
            j == 2 || (j == 8 && t[7].Setuid?))
  {
    TraceOfRun(os, p0);
  }

  /** execve is the last call, and only comes after the jail's passwd lookup
      succeeded, the chdir to the jail's home directory succeeded, and HOME
      was put into the environment. */
  lemma ExecveLast(os: Os, p0: Proc)
    requires Started(p0)
    ensures var t := Run(os, p0).trace;
      forall j :: 0 <= j < |t| && t[j].Execve? ==>
        && j == 11 == |t| - 1 && t[j].path == SHELL
        && t[6].Chroot? && t[6].ok && t[7].Setuid?
        && t[8] == Getpwuid(os.uid, true) && t[9].Chdir? && t[9].ok && t[10].Putenv?
  {
    TraceOfRun(os, p0);
  }

  /** Fail-closed: a checked failure is the last call main makes, and main
      then aborts. */
  lemma FailClosed(os: Os, p0: Proc)
    requires Started(p0)
    ensures var r := Run(os, p0);
      forall j :: 0 <= j < |r.trace| && FailedCheck(r.trace, j) ==>
        j == |r.trace| - 1 && r.outcome == Abort
  {
    TraceOfRun(os, p0);
  }

  /** main aborts exactly when one of its checks fails; otherwise it ends in
      execve, which either replaces the process or returns. */
  lemma OutcomeCases(os: Os, p0: Proc)
    requires Started(p0)
    ensures var r := Run(os, p0);
      && (r.outcome == Abort <==> !ChecksPass(os, p0))
      && (r.outcome.Exec? <==> ChecksPass(os, p0) && os.execOk)
      && (r.outcome == Return <==> ChecksPass(os, p0) && !os.execOk)
  {
    TraceOfRun(os, p0);
    ChecksPassStop(os, p0);
  }

  /** The process in which main reaches its hand-off when every check passes. */
  function Entered(os: Os, p0: Proc): Proc
    requires ChecksPass(os, p0)
  {
    var jail := JailRoot(OuterHome(os), CHROOT_LEVEL).value;
    p0.AfterGetuid(os).AfterGeteuid().AfterGetpwuid(os, os.uid)
      .AfterStat(os, OuterHome(os)).AfterStat(os, ShellPath(jail))
      .AfterChdir(os, jail).AfterChroot(os, jail).AfterSetuid(os, os.uid)
      .AfterGetpwuid(os, os.uid).AfterChdir(os, os.jail.passwd[os.uid].dir)
  }

  /** When every check passes, main reaches execve inside the jail, in the
      jail's home directory, with the uid setuid left it and the environment
      it started with. */
  lemma ReachesHandoff(os: Os, p0: Proc)
    requires Started(p0) && ChecksPass(os, p0)
    ensures var q, pw := Entered(os, p0), os.jail.passwd[os.uid];
      && Run(os, p0) == Continue(os, q, AtHandoff(pw))
      && q.euid == (if os.setuidOk then os.uid else p0.euid) && q.env == p0.env && q.args == p0.args
      && q.cwd == pw.dir && q.jailed && Some(q.root) == JailRoot(OuterHome(os), CHROOT_LEVEL)
  {
    ChecksPassStop(os, p0);
    var home := OuterHome(os);
    var jail := JailRoot(home, CHROOT_LEVEL).value;
    var p2 := p0.AfterGetuid(os).AfterGeteuid();
    AccountStep(os, p0, p2);
    var p3 := p2.AfterGetpwuid(os, os.uid);
    DeriveStep(os, p0, p3, home);
    var p4 := p3.AfterStat(os, home);
    ShellStep(os, p0, p4, jail);
    var p5 := p4.AfterStat(os, ShellPath(jail));
    EnterStep(os, p0, p5, jail);
    InnerStep(os, p0, p5.AfterChdir(os, jail).AfterChroot(os, jail).AfterSetuid(os, os.uid));
  }

  /** What the hand-off does to a process: HOME is put into its environment,
      and a successful execve runs SHELL with argv[0] from the record. */
  lemma HandoffEffect(os: Os, q: Proc, pw: Passwd)
    requires os.execOk
    ensures var r := Continue(os, q, AtHandoff(pw));
      && r.outcome == Exec(SHELL, [pw.shell] + q.args, r.env)
      && r.env == Env.PutEnv(q.env, HomeEntry(pw.dir))
      && r.cwd == q.cwd && r.jailed == q.jailed && r.root == q.root
  {
  }

  /** After putting the HOME entry for `dir`, HOME reads `dir` and every other
      variable reads as before. */
  lemma HomeSet(env: seq<string>, dir: string)
    ensures Env.GetEnv(Env.PutEnv(env, HomeEntry(dir)), "HOME") == Some(dir)
    ensures forall name :: name != "HOME" ==>
      Env.GetEnv(Env.PutEnv(env, HomeEntry(dir)), name) == Env.GetEnv(env, name)
  {
    Env.PutEnvGet(env, HomeEntry(dir));
    forall name | name != "HOME"
      ensures Env.GetEnv(Env.PutEnv(env, HomeEntry(dir)), name) == Env.GetEnv(env, name)
    {
      Env.PutEnvOther(env, HomeEntry(dir), name);
    }
  }

  /** A successful run executes SHELL inside the jail, from the jail's home
      directory, with argv[0] and HOME taken from the jail's passwd record and
      every other variable of the environment as it was. */
  lemma ExecState(os: Os, p0: Proc)
    requires Started(p0) && ChecksPass(os, p0) && os.execOk
    ensures var r := Run(os, p0);
      var pw := os.jail.passwd[os.uid];
      && r.outcome == Exec(SHELL, [pw.shell] + p0.args, r.env)
      && r.env == Env.PutEnv(p0.env, HomeEntry(pw.dir))
      && Env.GetEnv(r.env, "HOME") == Some(pw.dir)
      && (forall name :: name != "HOME" ==> Env.GetEnv(r.env, name) == Env.GetEnv(p0.env, name))
      && r.cwd == pw.dir && r.jailed
      && Some(r.root) == JailRoot(OuterHome(os), CHROOT_LEVEL)
  {
    ReachesHandoff(os, p0);
    var pw := os.jail.passwd[os.uid];
    HandoffEffect(os, Entered(os, p0), pw);
    HomeSet(p0.env, pw.dir);
  }

  /** The answer of setuid is not checked: the shell is executed with
      effective root exactly when setuid failed. */
  lemma SetuidUnchecked(os: Os, p0: Proc)
    requires Started(p0)
    ensures var r := Run(os, p0);
      r.outcome.Exec? ==> (r.euid == 0 <==> !os.setuidOk) && (os.setuidOk ==> r.euid == os.uid)
  {
    OutcomeCases(os, p0);
    if ChecksPass(os, p0) {
      ReachesHandoff(os, p0);
    }
  }

  /** The system of the scenario below, apart from the real user's home
      directory: the shell file, the jail root chdir and chroot accept, and
      joe's record and home directory inside the jail. */
  predicate JoeSystem(os: Os, p0: Proc, shell: CStrings.CString) {
    && Started(p0) && p0.euid == 0 && os.uid == 1001 && os.uid in os.outer.passwd
    && "/home/chroot/bin/bash" in os.outer.files && os.outer.files["/home/chroot/bin/bash"] == Regular
    && "/home/chroot" in os.outer.dirs && "/home/chroot" in os.roots
    && os.uid in os.jail.passwd && os.jail.passwd[os.uid] == Passwd("/home/joe", shell)
    && "/home/joe" in os.jail.dirs && os.setuidOk && os.execOk
  }

  /** The paths and the HOME entry of the scenario below, spelled out. */
  lemma JoeStrings()
    ensures ShellPath("/home/chroot") == "/home/chroot/bin/bash"
    ensures HomeEntry("/home/joe") == "HOME=/home/joe"
  {
  }

  /** The checks of the scenario below pass, once its jail root is known. */
  lemma JoeChecksPass(os: Os, p0: Proc, shell: CStrings.CString)
    requires JoeSystem(os, p0, shell) && JailRoot(OuterHome(os), CHROOT_LEVEL) == Some("/home/chroot")
    ensures ChecksPass(os, p0)
  {
    JoeStrings();
  }

  /** The calls of the scenario below, from its jail root on. */
  lemma JoeTrace(os: Os, p0: Proc, shell: CStrings.CString)
    requires JoeSystem(os, p0, shell) && JailRoot(OuterHome(os), CHROOT_LEVEL) == Some("/home/chroot")
    ensures var t := Run(os, p0).trace;
      && |t| == 12 && t[4] == Stat("/home/chroot/bin/bash", Some(Regular))
      && t[5] == Chdir("/home/chroot", true) && t[6] == Chroot("/home/chroot", true)
      && t[9] == Chdir("/home/joe", true) && t[10] == Putenv("HOME=/home/joe")
  {
    JoeChecksPass(os, p0, shell);
    JoeStrings();
    TraceOfRun(os, p0);
    ChecksPassStop(os, p0);
  }

  /** The final state of the scenario below, from its jail root on. */
  lemma JoeState(os: Os, p0: Proc, shell: CStrings.CString)
    requires JoeSystem(os, p0, shell) && JailRoot(OuterHome(os), CHROOT_LEVEL) == Some("/home/chroot")
    ensures var r := Run(os, p0);
      && r.root == "/home/chroot" && r.cwd == "/home/joe" && r.euid == 1001
      && r.outcome.Exec? && r.outcome.path == "/bin/bash" && r.outcome.argv == [shell] + p0.args
      && Env.GetEnv(r.outcome.env, "HOME") == Some("/home/joe")
  {
    JoeChecksPass(os, p0, shell);
    ExecState(os, p0);
    SetuidUnchecked(os, p0);
  }

  /** The scenario of user 1001, joe, whose home directory is
      /home/chroot/home/joe in the system's passwd database and /home/joe in
      the jail's, when every call succeeds. */
  lemma JoeLogsIn(os: Os, p0: Proc, shell: CStrings.CString)
    requires JoeSystem(os, p0, shell) && os.outer.passwd[os.uid].dir == "/home/chroot/home/joe"
    ensures var r := Run(os, p0);
      && |r.trace| == 12 && r.trace[4] == Stat("/home/chroot/bin/bash", Some(Regular))
      && r.trace[5] == Chdir("/home/chroot", true) && r.trace[6] == Chroot("/home/chroot", true)
      && r.trace[9] == Chdir("/home/joe", true) && r.trace[10] == Putenv("HOME=/home/joe")
      && r.root == "/home/chroot" && r.cwd == "/home/joe" && r.euid == 1001
      && r.outcome.Exec? && r.outcome.path == "/bin/bash" && r.outcome.argv == [shell] + p0.args
      && Env.GetEnv(r.outcome.env, "HOME") == Some("/home/joe")
  {
    DerivationExample();
    JoeTrace(os, p0, shell);
    JoeState(os, p0, shell);
  }
}
