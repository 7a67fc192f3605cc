/** Jail-root derivation. The slashes of a path are numbered from 0; at level
    `level` the jail root is the part of the home directory that ends just
    before slash number `level`, so `/home/chroot/home/joe` at level 2 gives
    `/home/chroot`. */
module Jail {
  import opened Wrappers
  import opened CStrings

  /** The number of '/' characters in s. */
  function Slashes(s: string): nat {
    multiset(s)['/']
  }

  /** The index of slash number k (counting from 0) in s, if s has that many. */
  function NthSlash(s: string, k: nat): (r: Option<nat>)
    ensures r.Some? ==> r.value < |s| && s[r.value] == '/'
  {
    if s == [] then None
    else if s[0] == '/' && k == 0 then Some(0)
    else match NthSlash(s[1..], if s[0] == '/' then k - 1 else k)
      case None => None
      case Some(i) => Some(i + 1)
  }

  /** The jail root of `home` at `level`, or None when `home` is too shallow. */
  function JailRoot(home: string, level: nat): (r: Option<string>)
    ensures r.Some? ==> |r.value| < |home| && home[..|r.value|] == r.value && home[|r.value|] == '/'
  {
    match NthSlash(home, level)
      case None => None
      case Some(i) => Some(home[..i])
  }

  lemma SlashesCons(s: string)
    requires s != []
    ensures Slashes(s) == (if s[0] == '/' then 1 else 0) + Slashes(s[1..])
  {
    assert s == [s[0]] + s[1..];
  }

  /** Slash number k sits at index i exactly when s[i] is a slash preceded by k others. */
  lemma {:induction false} NthSlashAt(s: string, k: nat, i: nat)
    ensures NthSlash(s, k) == Some(i) <==> (i < |s| && s[i] == '/' && Slashes(s[..i]) == k)
  {
    if s != [] {
      if i > 0 && i <= |s| {
        assert s[..i] == [s[0]] + s[1..][..i - 1];
        SlashesCons(s[..i]);
      }
      if !(s[0] == '/' && k == 0) && i > 0 {
        NthSlashAt(s[1..], if s[0] == '/' then k - 1 else k, i - 1);
      }
    }
  }

  /** Slash number k is missing exactly when s has at most k slashes. */
  lemma {:induction false} NthSlashMissing(s: string, k: nat)
    ensures NthSlash(s, k) == None <==> Slashes(s) <= k
  {
    if s != [] {
      SlashesCons(s);
      if !(s[0] == '/' && k == 0) {
        NthSlashMissing(s[1..], if s[0] == '/' then k - 1 else k);
      }
    }
  }

  /** The jail root is the prefix of `home` that stops just before a slash and
      holds exactly `level` slashes (both directions). */
  lemma JailRootIs(home: string, level: nat, root: string)
    ensures JailRoot(home, level) == Some(root) <==>
      (|root| < |home| && home[..|root|] == root && home[|root|] == '/' && Slashes(root) == level)
  {
    NthSlashAt(home, level, |root|);
  }

  /** The jail root is missing exactly when `home` has at most `level` slashes. */
  lemma JailRootMissing(home: string, level: nat)
    ensures JailRoot(home, level) == None <==> Slashes(home) <= level
  {
    NthSlashMissing(home, level);
  }

  /** The example of the configuration comment: level 2 cuts
      `/home/chroot/home/joe` to `/home/chroot`. */
  lemma DerivationExample()
    ensures JailRoot("/home/chroot/home/joe", 2) == Some("/home/chroot")
  {
    JailRootIs("/home/chroot/home/joe", 2, "/home/chroot");
  }

  /** A home directory that does not start with '/' is not rejected: its
      first slash is slash number 0, so the cut falls one component deeper. */
  lemma RelativeHomeExample()
    ensures JailRoot("home/chroot/home/joe", 2) == Some("home/chroot/home")
  {
    JailRootIs("home/chroot/home/joe", 2, "home/chroot/home");
  }

  /** A home directory with only two slashes is too shallow for level 2. */
  lemma ShallowHomeExample()
    ensures JailRoot("/home/joe", 2) == None
  {
    JailRootMissing("/home/joe", 2);
  }

  /** The derivation loop. It walks the C string held in `buf` with an index
      `p` and a slash counter `cnt` that starts at -1; when `cnt` reaches
      `level` it writes a NUL over that slash and stops. */
  method CutAtLevel(buf: array<char>, level: nat) returns (cnt: int)
    requires StrLen(buf[..]) < buf.Length
    modifies buf
    ensures match JailRoot(CStr(old(buf[..])), level)
      case Some(root) =>
        cnt == level && buf[..] == old(buf[..])[|root| := NUL] && CStr(buf[..]) == root
      case None =>
        cnt == Slashes(CStr(old(buf[..]))) - 1 && cnt < level && buf[..] == old(buf[..])
  {
    ghost var home := CStr(buf[..]);
    var p := 0;
    cnt := -1;
    while buf[p] != NUL
      invariant 0 <= p <= |home|
      invariant buf[..] == old(buf[..])
      invariant cnt == Slashes(home[..p]) - 1 < level
      decreases |home| - p
    {
      assert buf[p] == home[p];
      assert home[..p + 1] == home[..p] + [home[p]];
      if buf[p] == '/' {
        cnt := cnt + 1;
      }
      if cnt == level {
        NthSlashAt(home, level, p);
        buf[p] := NUL;
        assert buf[..][..p] == home[..p];
        CStrOf(buf[..], home[..p]);
        break;
      }
      p := p + 1;
    }
    if cnt < level {
      assert home[..p] == home;
      NthSlashMissing(home, level);
    }
  }
}
