# chrlogin in Dafny

chrlogin is a setuid-root login shell. It is installed in the system's
passwd database as the shell of a user who must live entirely inside a
chroot environment. When that user logs in, its `main` proceeds in this order:

1. It checks that it runs with effective root for a real user other than
   root.
2. It looks the real user up in the system's passwd database.
3. It derives the jail root from the home directory: the prefix that ends
   before slash number `CHROOT_LEVEL`, counting from 0. That is
   `/home/chroot` for `/home/chroot/home/joe`.
4. It checks that `<jail>/bin/bash` is a regular file.
5. It calls `chdir` and `chroot` to enter the jail and drops privileges with
   `setuid`.
6. It looks the user up again in the jail's own passwd database, changes to
   that home directory, and sets `argv[0]` and `HOME`.
7. It calls `execve` on `/bin/bash`.

Every checked failure ends the program with `exit(-1)`.

The model has the following modules:

- `CStrings`: character buffers as `array<char>`. `strncpy`, `strcpy` and
  `strncat` are methods over those arrays; `strlen` is the function
  `StrLen` (through `Find`) over the buffer's contents.
- `Jail`:
  - the reference definition of the jail root, `NthSlash`/`JailRoot`, and what it means (`NthSlashAt`, `JailRootIs`, `JailRootMissing`);
  - the derivation loop of `main`, kept as an in-place loop over the buffer (`CutAtLevel`) and proved against that definition.
- `Env`: the environment as a sequence of `NAME=value` entries, with
  `putenv` and a `getenv` for reading it back.
- `Kernel`: the operating system is an oracle value `Os`. It holds:
  - the real uid;
  - how the filesystem and the passwd database look from outside and from inside the jail;
  - which directories `chroot` accepts;
  - whether `setuid` and `execve` succeed.

  `Proc` is a snapshot of the process state:
  - effective uid, working directory, root, environment, `argv`;
  - a trace of the system calls made, each with the answer it got;
  - how the program ended.

  `Process` is the process as a class, with one method per system call. Each method changes the state exactly as the matching `Proc` transition does.
- `Chrlogin`:
  - the configuration constants;
  - the two strings `main` assembles (`ShellPath`, `HomeEntry`);
  - the whole run of `main` as a function of the system's answers (`Run`, with `Continue` going stage by stage);
  - `main` itself as `Login`, a method over a `Process` that uses the buffer routines and the derivation loop. It is split into one method per stage, and each method is proved equal to the function.
- `Properties`:
  - an independent description of the calls `main` makes, `Stop`/`CallAt`/`Calls`;
  - the lemma that every run makes exactly those calls (`TraceOfRun`);
  - the ordering and fail-closed properties proved from it;
  - a complete scenario for the user joe.

In three places the code is less strict than a setuid login shell is
usually expected to be, and the model follows the code:

- A home directory that does not begin with `/`, or whose `stat` fails, is only reported. `main` goes on to derive the jail root from it anyway (lines 103-111).
- The answer of `setuid` is not checked (line 164).
- When `execve` returns, `main` returns 0 (line 198). That outcome is `Return`, not `Abort`.

## Model

| member | source | states |
|---|---|---|
| `CStrings.Find` | chrlogin.c:136-136 | strlen: the index of the first NUL, with no NUL before it and the buffer length when there is none |
| `CStrings.StrnCpy` | chrlogin.c:100-100 | strncpy: the first n cells get the source and then NUL padding, and the rest of the buffer is unchanged. When the source is shorter than n, the buffer holds the source |
| `CStrings.StrCpy` | chrlogin.c:191-191 | strcpy: the source and a NUL at the front of the buffer, with the cells after them unchanged |
| `CStrings.StrnCat` | chrlogin.c:136-136 | strncat: at most n characters of the source, then a NUL, written after the string already held. Nothing else in the buffer changes, and the buffer then holds the old string followed by that part of the source |
| `Jail.NthSlash` | chrlogin.c:116-123 | the position found for slash number k holds a '/' |
| `Jail.JailRoot` | chrlogin.c:116-130 | the jail root, when there is one, is a proper prefix of the home directory that a '/' follows in it |
| `Jail.NthSlashAt` | chrlogin.c:116-123 | position i is slash number k if and only if s[i] is '/' and exactly k slashes come before it |
| `Jail.NthSlashMissing` | chrlogin.c:116-125 | there is no slash number k if and only if s has at most k slashes |
| `Jail.JailRootIs` | chrlogin.c:114-123 | root is the jail root of home if and only if root is a proper prefix of home, followed in home by a '/', and root holds exactly `level` slashes |
| `Jail.JailRootMissing` | chrlogin.c:125-130 | there is no jail root if and only if home has at most `level` slashes |
| `Jail.DerivationExample` | chrlogin.c:37-46 | with level 2, `/home/chroot/home/joe` gives `/home/chroot` |
| `Jail.RelativeHomeExample` | chrlogin.c:103-123 | a home without a leading '/' is cut one component deeper: `home/chroot/home/joe` gives `home/chroot/home` |
| `Jail.ShallowHomeExample` | chrlogin.c:125-130 | `/home/joe` has too few slashes for level 2 |
| `Jail.CutAtLevel` | chrlogin.c:116-130 | the loop over the buffer writes a NUL over slash number `level` and ends with the counter at `level`; the buffer then holds exactly the jail root and nothing else changed. When that slash does not exist, the buffer is unchanged and the counter is the number of slashes minus one, below `level` |
| `Env.GetEnv` | chrlogin.c:193-193 | a variable has no value exactly when no entry of the environment defines it |
| `Env.PutEnv` | chrlogin.c:193-193 | the entry put is in the new environment |
| `Env.PutEnvGet` | chrlogin.c:190-193 | after putenv, reading the variable back gives the value put |
| `Env.PutEnvOther` | chrlogin.c:190-193 | putenv leaves every other variable as it was |
| `Kernel.Process.constructor` | chrlogin.c:64-66 | the process starts outside any jail, at root "/", with an empty trace and still running |
| `Kernel.Process.Getuid` | chrlogin.c:66-66 | getuid answers the real uid and records the call |
| `Kernel.Process.Geteuid` | chrlogin.c:76-76 | geteuid answers the effective uid and records the call |
| `Kernel.Process.Getpwuid` | chrlogin.c:91-91 | getpwuid answers the record of the visible passwd database: the system's before chroot, the jail's after it |
| `Kernel.Process.Stat` | chrlogin.c:108-108 | stat answers what the visible filesystem holds at the path |
| `Kernel.Process.Chdir` | chrlogin.c:152-152 | chdir changes the working directory exactly when it succeeds |
| `Kernel.Process.Chroot` | chrlogin.c:158-158 | chroot changes the root and enters the jail exactly when it succeeds |
| `Kernel.Process.Setuid` | chrlogin.c:164-164 | setuid changes the effective uid exactly when it succeeds, and reports whether it did |
| `Kernel.Process.Putenv` | chrlogin.c:193-193 | putenv puts the entry into the environment |
| `Kernel.Process.Execve` | chrlogin.c:196-196 | a successful execve ends the program in the shell, with argv and the environment |
| `Kernel.Process.Exit` | chrlogin.c:79-79 | exit(-1) ends the program with Abort and changes nothing else |
| `Chrlogin.ShellPath` | chrlogin.c:135-136 | the shell path begins with the jail root, a '/' directly follows the root in it, and it is exactly SHELL's length longer |
| `Chrlogin.HomeEntry` | chrlogin.c:190-192 | the HOME entry is a setting whose name is HOME and whose value is the directory |
| `Chrlogin.ShellPathRoundTrip` | chrlogin.c:133-136 | appending SHELL to a jail root adds two slashes, and deriving the jail root from the shell path gives the jail root back |
| `Chrlogin.Run` | chrlogin.c:64-198 | every run ends (Abort, Exec or Return) and leaves the arguments alone |
| `Chrlogin.Continue` | chrlogin.c:89-198 | from every stage, the run ends and leaves the arguments alone |
| `Chrlogin.Login` | chrlogin.c:64-198 | main over the process leaves exactly the state of `Run` |
| `Chrlogin.FindAccount` | chrlogin.c:89-95 | the lookup in the system's passwd database and everything after it, as `Continue` from that stage |
| `Chrlogin.DeriveJail` | chrlogin.c:98-130 | the home directory copied into `chroot_dir` and stat()ed, then cut in place, as `Continue` from that stage |
| `Chrlogin.CheckShell` | chrlogin.c:133-147 | the shell path assembled in `shell` and checked, as `Continue` from that stage |
| `Chrlogin.EnterJail` | chrlogin.c:150-164 | chdir, chroot and setuid, as `Continue` from that stage |
| `Chrlogin.FindInnerAccount` | chrlogin.c:167-183 | the lookup in the jail's passwd database and the chdir home, as `Continue` from that stage |
| `Chrlogin.HandOff` | chrlogin.c:186-198 | argv[0], the HOME entry assembled in `home_dir`, putenv and execve, as `Continue` from that stage |
| `Properties.ChecksPassStop` | chrlogin.c:74-183 | main makes all twelve calls exactly when every check passes |
| `Properties.AccountStep` | chrlogin.c:89-95 | an unknown user ends the run as written out; otherwise the run reaches the derivation with the system's home directory |
| `Properties.DeriveStep` | chrlogin.c:98-130 | a home that is too short ends the run as written out; otherwise the run reaches the shell check with the jail root |
| `Properties.ShellStep` | chrlogin.c:133-147 | a missing or irregular shell ends the run as written out; otherwise the run reaches the jail entry |
| `Properties.EnterStep` | chrlogin.c:150-164 | a failed chdir or chroot ends the run as written out; otherwise the run reaches the jail's lookup, inside the jail |
| `Properties.InnerStep` | chrlogin.c:167-183 | a missing jail record or home ends the run as written out; otherwise the run reaches the hand-off with that record |
| `Properties.HandoffStep` | chrlogin.c:186-198 | the hand-off makes the last two calls and ends in Exec or Return |
| `Properties.ContinueCalls` | chrlogin.c:89-198 | from every stage main reaches, the run makes exactly the calls written out and ends as written out |
| `Properties.TraceOfRun` | chrlogin.c:64-198 | the trace of every run is exactly the calls written out, and its outcome is Abort unless all twelve calls were made |
| `Properties.PrivilegeChecked` | chrlogin.c:74-86 | without effective root, or for the root user, main only reads the two ids and aborts with nothing else changed |
| `Properties.OuterLookupChecked` | chrlogin.c:89-95 | a user unknown to the system's passwd database aborts right after the lookup |
| `Properties.ShallowHomeAborts` | chrlogin.c:114-130 | a home with at most CHROOT_LEVEL slashes aborts after its stat, with nothing changed |
| `Properties.HomeChecksNotFatal` | chrlogin.c:103-111 | neither the leading '/' nor the stat of the home directory stops main: the shell stat follows |
| `Properties.ShellChecked` | chrlogin.c:138-147 | a shell that is missing or not a regular file aborts before chdir and chroot |
| `Properties.ChrootAfterChecks` | chrlogin.c:150-163 | chroot is only the seventh call, after every earlier check passed and a successful chdir to the same directory, which is the jail root |
| `Properties.SetuidAfterChroot` | chrlogin.c:158-169 | setuid to the real user directly follows a successful chroot, and the second lookup directly follows setuid |
| `Properties.ExecveLast` | chrlogin.c:167-196 | execve is the last call, of SHELL, after a successful chroot, a successful jail lookup and chdir home, and a call of putenv |
| `Properties.FailClosed` | chrlogin.c:74-183 | a checked failure is always the last call, and main then aborts |
| `Properties.OutcomeCases` | chrlogin.c:74-198 | main aborts exactly when a check fails; otherwise it ends in Exec when execve succeeds and in Return when it fails |
| `Properties.ReachesHandoff` | chrlogin.c:150-183 | when every check passes, main reaches the hand-off inside the jail, at the jail's home directory, with the environment unchanged |
| `Properties.HandoffEffect` | chrlogin.c:186-196 | the hand-off puts the HOME entry into the environment, and a successful execve runs SHELL with argv[0] from the record, leaving directory and root as they were |
| `Properties.HomeSet` | chrlogin.c:190-193 | after putting the HOME entry, HOME reads the directory and every other variable reads as before |
| `Properties.ExecState` | chrlogin.c:186-196 | a successful run executes SHELL with argv[0] from the jail's record, HOME set to the jail's home directory and every other variable unchanged, in the jail's home with the jail root as root. The shell sees that HOME only when the starting environment already defines HOME (see the `Kernel.Process.Execve` line under Left out) |
| `Properties.SetuidUnchecked` | chrlogin.c:164-164 | the shell runs with effective root exactly when setuid failed, and otherwise as the real user |
| `Properties.JoeLogsIn` | chrlogin.c:17-23 | joe, with home `/home/chroot/home/joe` and home `/home/joe` in the jail, gets chroot to `/home/chroot`, working directory `/home/joe`, uid 1001, `/bin/bash` and HOME=/home/joe in the environment; the shell sees that HOME only when the starting environment already defines HOME (see the `Kernel.Process.Execve` line under Left out) |

## Left out

- Diagnostics. The `fprintf` messages on stderr, `strerror` and the program name in them are I/O, and they are not modelled.
- Exit status. `exit(-1)` is the outcome `Abort`, and returning 0 after a failed `execve` is `Return`; the numeric status is not modelled.
- The operating system is an oracle rather than a filesystem:
  - `stat` is reduced to the kind of file (regular, directory, other, or missing);
  - the two passwd databases are fixed maps from uid to directory and shell;
  - `chdir` and `chroot` succeed on the paths the oracle lists;
  - `setuid` and `execve` succeed or fail as the oracle says.

  Permissions, relative paths, symbolic links and changes to the filesystem while `main` runs are not modelled.
- `setuid` as root also sets the real and saved uids. Only the effective uid is modelled.
- The gid is not modelled: the source never changes it.
- After a successful `execve` the process image is replaced, so nothing after it is modelled.
- `argv` is modelled as `argv0` and the remaining arguments, so the model assumes `argc >= 1`. With `argc == 0`, `argv[0]` is the terminating NULL pointer. Line 187 overwrites it with the shell from the jail's record, so where the kernel allows an empty argv, `execve` at line 196 receives that shell followed by whatever strings lie after the NULL (the strings of `envp`) as its arguments. The model cannot express that case.
- Strings are sequences of characters without NUL (`CString`). The user's fields in the passwd database are C strings and so cannot hold a NUL.
- The write `chroot_dir[MAX_STRING] = 0` (line 101) is one cell past the buffer, which is undefined behaviour. The model leaves it out. It relies on the precondition below instead, which keeps the copied home directory terminated inside the buffer.
- `Chrlogin.Login`: requires `Fits`, which holds under two conditions:
  - The system home directory fits in `chroot_dir` (line 100), and the jail root cut from it, together with SHELL, fits in `shell` (line 136). Otherwise line 100 leaves the buffer without a NUL, or `strncat` at line 136 writes its NUL past the buffer.
  - When the jail's home directory is one `chdir` accepts, `HOME=` plus that directory fits in `home_dir`. Otherwise `strncat` at line 192 writes its NUL past the buffer. This is stronger than line 192 needs: it also rules out runs with such a jail home that stop earlier, at a failed check before the hand-off, and there the source is well defined.

  Making a buffer overflow defined is out of scope. One Dafny `char` stands for one byte of the C string: a home directory with multibyte characters is the sequence of its bytes, so `Fits` counts bytes, as `MAX_STRING` does. The same precondition is on `Chrlogin.FindAccount`, `Chrlogin.DeriveJail`, `Chrlogin.CheckShell`, `Chrlogin.EnterJail` and `Chrlogin.FindInnerAccount`. `Chrlogin.DeriveJail` also requires its home directory to fit as in the first condition, and `Chrlogin.CheckShell` requires the jail root and SHELL to fit in `shell`.
- `Chrlogin.HandOff`: requires only the second condition, for the record it is given: `HOME=` plus its home directory fits in `home_dir`.
- `Kernel.Process.Putenv`: cannot fail. The result of `putenv` at line 193 is not checked, and its failure (out of memory when it has to grow the environment array) is not modelled. The drop is harmless for the source: an entry that `putenv` had to append never reaches the `envp` passed at line 196 anyway.
- `Kernel.Process.Execve` passes the environment as it stands after `putenv`, but line 196 passes `envp`, main's third argument. With the usual C library, `putenv` replaces an existing `HOME` entry in the array `envp` points to, so the model agrees then. When there was no `HOME` entry, `putenv` grows a new array and `envp` does not see the new entry. The model does not capture this aliasing.
- `Chrlogin.Run` and `Chrlogin.Continue`: their contracts only say that the run ends and keeps the arguments. What the run does is stated by `Properties.TraceOfRun`, `Properties.OutcomeCases` and `Properties.ExecState`.
