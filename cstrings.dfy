/** NUL-terminated character buffers and the C library routines that fill them
    (strlen, strncpy, strcpy, strncat). A buffer is an `array<char>`; the string
    it holds is the part before its first NUL. */
module CStrings {
  const NUL: char := '\0'

  /** A C string: a character sequence with no NUL inside it. */
  type CString = s: string | NUL !in s

  /** The index of the first occurrence of c in s, or |s| when c does not occur
      (strchr, and strlen when c is NUL). */
  function Find(s: seq<char>, c: char): (n: nat)
    ensures n <= |s|
    ensures c !in s[..n]
    ensures n < |s| ==> s[n] == c
  {
    if |s| == 0 || s[0] == c then 0
    else
      var n := 1 + Find(s[1..], c);
      assert s[..n] == [s[0]] + s[1..][..n - 1];
      n
  }

  /** The first occurrence is unique: a c with no c before it is the one Find returns. */
  lemma FindAt(s: seq<char>, c: char, i: nat)
    requires i < |s| && s[i] == c && c !in s[..i]
    ensures Find(s, c) == i
  {
    assert forall j :: 0 <= j < i ==> s[..i][j] == s[j];
    assert forall j :: 0 <= j < Find(s, c) ==> s[..Find(s, c)][j] == s[j];
  }

  /** strlen: the length of the string a buffer holds (|s| when it holds no NUL). */
  function StrLen(s: seq<char>): nat {
    Find(s, NUL)
  }

  /** The string a buffer holds. */
  function CStr(s: seq<char>): (r: CString)
    ensures r <= s && |r| == StrLen(s)
  {
    s[..StrLen(s)]
  }

  /** A buffer holding `x` followed by a NUL holds exactly `x`, whatever follows. */
  lemma CStrOf(s: seq<char>, x: CString)
    requires |x| < |s| && s[..|x|] == x && s[|x|] == NUL
    ensures StrLen(s) == |x| && CStr(s) == x
  {
    FindAt(s, NUL, |x|);
  }

  function Min(a: nat, b: nat): nat { if a <= b then a else b }

  /** strncpy(dst, src, n): the first n cells receive `src` followed by NUL
      padding; when `src` has n characters or more no NUL is written. */
  method StrnCpy(dst: array<char>, src: CString, n: nat)
    requires n <= dst.Length
    modifies dst
    ensures forall i :: 0 <= i < n ==> dst[i] == if i < |src| then src[i] else NUL
    ensures forall i :: n <= i < dst.Length ==> dst[i] == old(dst[i])
    ensures |src| < n ==> CStr(dst[..]) == src
  {
    forall i | 0 <= i < n {
      dst[i] := if i < |src| then src[i] else NUL;
    }
    if |src| < n {
      assert dst[..][..|src|] == src;
      CStrOf(dst[..], src);
    }
  }

  /** strcpy(dst, src): `src` and its terminating NUL at the front of `dst`. */
  method StrCpy(dst: array<char>, src: CString)
    requires |src| < dst.Length
    modifies dst
    ensures dst[..|src| + 1] == src + [NUL]
    ensures forall i :: |src| < i < dst.Length ==> dst[i] == old(dst[i])
    ensures CStr(dst[..]) == src
  {
    forall i | 0 <= i <= |src| {
      dst[i] := if i < |src| then src[i] else NUL;
    }
    assert dst[..][..|src|] == src;
    CStrOf(dst[..], src);
  }

  /** strncat(dst, src, n): appends at most n characters of `src` to the string
      in `dst`, then a NUL. The caller must leave room for that NUL. */
  method StrnCat(dst: array<char>, src: CString, n: nat)
    requires StrLen(dst[..]) + Min(n, |src|) < dst.Length
    modifies dst
    ensures var l, m := StrLen(old(dst[..])), Min(n, |src|);
      dst[..] == old(dst[..l]) + src[..m] + [NUL] + old(dst[l + m + 1..])
    ensures CStr(dst[..]) == old(CStr(dst[..])) + src[..Min(n, |src|)]
  {
    ghost var before := dst[..];
    var l, m := StrLen(dst[..]), Min(n, |src|);
    forall i | l <= i <= l + m {
      dst[i] := if i < l + m then src[i - l] else NUL;
    }
    assert dst[..] == before[..l] + src[..m] + [NUL] + before[l + m + 1..];
    ghost var joined: CString := CStr(before) + src[..m];
    assert dst[..][..|joined|] == joined;
    CStrOf(dst[..], joined);
  }
}
