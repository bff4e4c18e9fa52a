/** The few C string library routines the log-path rules rely on, stated over
    the characters of a C string (everything before its terminating NUL). */
module CStr {

  /** A `char` standing for one byte of a C string: code 0 to 255. Lengths
      then count bytes, as `strlen` does; a multi-byte UTF-8 character is
      several of these. */
  predicate IsByte(c: char)
  {
    c as int < 256
  }

  /** Every element of a buffer is a byte. */
  predicate AllBytes(buf: seq<char>)
  {
    forall i :: 0 <= i < |buf| ==> IsByte(buf[i])
  }

  /** The contents of a NUL-terminated C string: bytes other than NUL. */
  type CString = s: string | '\0' !in s && AllBytes(s)

  /** `tolower` in the C locale: only the ASCII capitals change. */
  function ToLower(c: char): char
  {
    if 'A' <= c <= 'Z' then (c as int + 32) as char else c
  }

  /** Two characters compare equal under `strncasecmp`. */
  predicate SameIgnoringCase(a: char, b: char)
  {
    ToLower(a) == ToLower(b)
  }

  /** `strncmp(s, p, strlen(p)) == 0`: `s` begins with `p`, case sensitively.
      A string shorter than `p` fails on its NUL. */
  predicate StartsWith(s: string, p: string)
  {
    |p| <= |s| && s[..|p|] == p
  }

  /** `strncasecmp(s, p, strlen(p)) == 0`: `s` begins with `p`, ignoring ASCII case. */
  predicate StartsWithNoCase(s: string, p: string)
  {
    |p| <= |s| && forall i :: 0 <= i < |p| ==> SameIgnoringCase(s[i], p[i])
  }

  /** `strncasecmp(s + strlen(s) - strlen(p), p, strlen(p)) == 0`: `s` ends with `p`, ignoring ASCII case. */
  predicate EndsWithNoCase(s: string, p: string)
  {
    |p| <= |s| && StartsWithNoCase(s[|s| - |p|..], p)
  }

  /** `strrchr(s, c)`: the index of the last `c` in `s`, or -1 for a null pointer. */
  function LastIndexOf(s: string, c: char): (r: int)
    ensures -1 <= r < |s|
    ensures r == -1 ==> c !in s
    ensures r >= 0 ==> s[r] == c && forall i :: r < i < |s| ==> s[i] != c
  {
    LastIndexBelow(s, c, |s|)
  }

  /** The index of the last `c` among the first `n` characters of `s`, or -1. */
  function LastIndexBelow(s: string, c: char, n: nat): (r: int)
    requires n <= |s|
    ensures -1 <= r < n
    ensures r == -1 ==> forall i :: 0 <= i < n ==> s[i] != c
    ensures r >= 0 ==> s[r] == c && forall i :: r < i < n ==> s[i] != c
  {
    if n == 0 then -1
    else if s[n - 1] == c then n - 1
    else LastIndexBelow(s, c, n - 1)
  }

  /** An occurrence of `c` with no `c` after it is the one `strrchr` finds. */
  lemma LastIndexOfIsLastOccurrence(s: string, c: char, k: int)
    requires 0 <= k < |s| && s[k] == c && forall i :: k < i < |s| ==> s[i] != c
    ensures LastIndexOf(s, c) == k
  {
  }

  /** The C string held in a character buffer: the characters before its first NUL. */
  function CStringIn(buf: seq<char>): (r: CString)
    requires '\0' in buf && AllBytes(buf)
    ensures |r| < |buf| && buf[..|r|] == r && buf[|r|] == '\0'
  {
    if buf[0] == '\0' then ""
    else
      assert '\0' in buf[1..];
      [buf[0]] + CStringIn(buf[1..])
  }

  /** Writing `s` followed by a NUL at the start of a buffer makes `s` the buffer's C string. */
  lemma CStringInTerminated(buf: seq<char>, s: CString)
    requires AllBytes(buf)
    requires |s| < |buf| && buf[..|s|] == s && buf[|s|] == '\0'
    ensures CStringIn(buf) == s
  {
  }
}
