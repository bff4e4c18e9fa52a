/** The rules `HttpLog::checkLogPathValid` applies to a proposed access or
    error log path, stated as a function of the path, the outcome of symbolic
    link resolution and the server root. */
module LogPath {
  import opened CStr

  /** The server's generic failure return value. */
  const LS_FAIL: int := -1

  /** Size of the buffer the path is copied into before symbolic links are resolved. */
  const MAX_PATH_LEN: int := 8192

  /** Script suffixes a log file may not carry (compared ignoring case). */
  const ExcludeFileList: seq<string> := [".cgi", ".pl", ".shtml"]

  /** Directories under the server root that may not hold a log file (prefixes, ignoring case). */
  const ExcludeDirList: seq<string> := ["admin/conf", "admin/html", "conf"]

  /** What `GPath::checkSymLinks` reports: -1 for failure, or the resolved
      path (whose length is the value it returns). */
  datatype SymLinkResult = ResolveFailed | Resolved(path: CString)

  /** The string the checks run on: the original path when resolution
      failed, the resolved one otherwise. Its length is the `len` of httplog.cpp. */
  function FileName(org: CString, res: SymLinkResult): CString
  {
    match res
    case ResolveFailed => org
    case Resolved(p) => p
  }

  /** Some excluded script suffix ends `f`, and `f` is strictly longer than it. */
  predicate HasExcludedSuffix(f: string)
  {
    exists i :: 0 <= i < |ExcludeFileList| && |f| > |ExcludeFileList[i]| && EndsWithNoCase(f, ExcludeFileList[i])
  }

  /** The text from the last `.` of `f` on has at least three characters and
      begins with `.ph`, ignoring case; the dot may sit in any path component. */
  predicate HasPhExtension(f: string)
  {
    var k := LastIndexOf(f, '.');
    k >= 0 && |f| - k >= 3 && StartsWithNoCase(f[k..], ".ph")
  }

  /** `f` begins with `/etc/` (case sensitively). */
  predicate IsEtcPath(f: string)
  {
    StartsWith(f, "/etc/")
  }

  /** Below `/etc/`, `f` continues with `apache` or `httpd`, ignoring case. */
  predicate NamesServerConfig(f: string)
    requires IsEtcPath(f)
  {
    StartsWithNoCase(f[5..], "apache") || StartsWithNoCase(f[5..], "httpd")
  }

  /** `f` is longer than `root` plus four, starts with `root` (case sensitively),
      and the rest starts with an excluded directory name, ignoring case, and is
      strictly longer than it. */
  predicate InProtectedDir(f: string, root: string)
  {
    |f| > |root| + 4 && StartsWith(f, root) &&
    exists i :: 0 <= i < |ExcludeDirList| && |f| - |root| > |ExcludeDirList[i]| &&
                StartsWithNoCase(f[|root|..], ExcludeDirList[i])
  }

  /** The verdict on a proposed log path: 0 accepts it, `LS_FAIL` rejects it.
      The checks apply in httplog.cpp's order: short paths pass, script
      suffixes and `.ph` extensions fail, `/etc/` paths are decided on their
      own, and everything else fails only inside a protected server directory. */
  function CheckLogPath(org: CString, res: SymLinkResult, root: CString): (r: int)
    ensures r == 0 || r == LS_FAIL
    ensures r == 0 <==> Acceptable(FileName(org, res), root)
  {
    var f := FileName(org, res);
    if |f| < 5 then 0
    else if HasExcludedSuffix(f) then LS_FAIL
    else if HasPhExtension(f) then LS_FAIL
    else if IsEtcPath(f) then (if NamesServerConfig(f) then LS_FAIL else 0)
    else if InProtectedDir(f, root) then LS_FAIL
    else 0
  }

  /** The same rules stated without their order: a path is acceptable when it
      is short, or when it avoids every forbidden suffix and, below `/etc/`,
      the server's own configuration, and elsewhere the protected directories. */
  predicate Acceptable(f: string, root: string)
  {
    |f| < 5 ||
    (!HasExcludedSuffix(f) && !HasPhExtension(f) &&
     (IsEtcPath(f) ==> !NamesServerConfig(f)) &&
     (!IsEtcPath(f) ==> !InProtectedDir(f, root)))
  }

  /** A path shorter than five characters is accepted before any other rule. */
  lemma ShortPathAccepted(org: CString, res: SymLinkResult, root: CString)
    requires |FileName(org, res)| < 5
    ensures CheckLogPath(org, res, root) == 0
  {
  }

  /** A path of five or more characters that ends in `.cgi`, `.pl` or `.shtml`,
      in any case, and is strictly longer than that suffix, is rejected. */
  lemma ExcludedSuffixRejected(org: CString, res: SymLinkResult, root: CString, i: nat)
    requires i < |ExcludeFileList|
    requires var f := FileName(org, res);
      |f| >= 5 && |f| > |ExcludeFileList[i]| && EndsWithNoCase(f, ExcludeFileList[i])
    ensures CheckLogPath(org, res, root) == LS_FAIL
  {
  }

  /** A path that is exactly `.shtml` is not caught by the suffix rule, which
      demands a strictly longer path, and is accepted whatever the server root. */
  lemma BareSuffixAccepted(root: CString)
    ensures CheckLogPath(".shtml", ResolveFailed, root) == 0
  {
    var f := ".shtml";
    // Only a root of at most one byte leaves room for the directory rule, and
    // what follows it (`.shtml` or `shtml`) starts with no excluded directory.
    if |f| > |root| + 4 && StartsWith(f, root) {
      var rest := f[|root|..];
      forall i | 0 <= i < |ExcludeDirList|
        ensures !(|f| - |root| > |ExcludeDirList[i]| && StartsWithNoCase(rest, ExcludeDirList[i]))
      {
        if |f| - |root| > |ExcludeDirList[i]| {
          assert i == 2;
          assert !SameIgnoringCase(rest[0], 'c') by {
            assert rest[0] == '.' || rest[0] == 's';
          }
        }
      }
    }
    LastIndexOfIsLastOccurrence(f, '.', 0);
    assert !StartsWithNoCase(f[0..], ".ph") by {
      assert !SameIgnoringCase(f[1], 'p');
    }
    assert !EndsWithNoCase(f, ".cgi") by {
      assert !SameIgnoringCase(f[2], 'c');
    }
    assert !EndsWithNoCase(f, ".pl") by {
      assert !SameIgnoringCase(f[3], '.');
    }
    assert !IsEtcPath(f) by {
      assert f[0] != '/';
    }
  }

  /** Lengths count bytes: `é.pl` is the five bytes C3 A9 `.pl` in UTF-8, so
      the short-path rule does not apply and the `.pl` suffix rejects it. */
  lemma Utf8PathLengthInBytes(root: CString)
    ensures CheckLogPath("\U{C3}\U{A9}.pl", ResolveFailed, root) == LS_FAIL
  {
    var f := "\U{C3}\U{A9}.pl";
    assert EndsWithNoCase(f, ExcludeFileList[1]);
  }

  /** A path whose last `.` opens an extension beginning `.ph` in any letter
      case (`.ph`, `.PH`, `.Ph`, `.pH`) is rejected, also when that dot lies in
      a directory component (`b` may contain `/`). */
  lemma PhAfterLastDotRejected(a: CString, ph: CString, b: CString, root: CString)
    requires |ph| == 3 && StartsWithNoCase(ph, ".ph")
    requires '.' !in b
    requires |a + ph + b| >= 5
    ensures CheckLogPath(a + ph + b, ResolveFailed, root) == LS_FAIL
  {
    var f := a + ph + b;
    assert ph[0] == '.';
    assert ph[1] != '.' && ph[2] != '.';
    forall i | |a| < i < |f| ensures f[i] != '.' {
      if i > |a| + 2 { assert f[i] == b[i - |a| - 3]; }
      else { assert f[i] == ph[i - |a|]; }
    }
    LastIndexOfIsLastOccurrence(f, '.', |a|);
    assert f[|a|..][..3] == ph;
    assert HasPhExtension(f);
  }

  /** Below `/etc/`, a path naming `apache` or `httpd` (in any case) is rejected. */
  lemma EtcServerConfigRejected(org: CString, res: SymLinkResult, root: CString)
    requires var f := FileName(org, res); |f| >= 5 && IsEtcPath(f) && NamesServerConfig(f)
    ensures CheckLogPath(org, res, root) == LS_FAIL
  {
  }

  /** Any other `/etc/` path that passes the suffix and `.ph` rules is accepted. */
  lemma EtcOtherAccepted(org: CString, res: SymLinkResult, root: CString)
    requires var f := FileName(org, res);
      IsEtcPath(f) && !NamesServerConfig(f) && !HasExcludedSuffix(f) && !HasPhExtension(f)
    ensures CheckLogPath(org, res, root) == 0
  {
  }

  /** An `/etc/` path never reaches the server-root rule: the verdict does not depend on the root. */
  lemma EtcIgnoresServerRoot(org: CString, res: SymLinkResult, root1: CString, root2: CString)
    requires IsEtcPath(FileName(org, res))
    ensures CheckLogPath(org, res, root1) == CheckLogPath(org, res, root2)
  {
  }

  /** The suffix rules run before the `/etc/` branch: `/etc/x.pl` is rejected. */
  lemma EtcScriptSuffixRejected(root: CString)
    ensures CheckLogPath("/etc/x.pl", ResolveFailed, root) == LS_FAIL
  {
    var f := "/etc/x.pl";
    assert EndsWithNoCase(f, ExcludeFileList[1]);
  }

  /** Inside the server root, a path under `admin/conf`, `admin/html` or `conf`
      (ignoring case) and outside `/etc/` is rejected (by the directory rule,
      or earlier by a suffix rule). */
  lemma ProtectedDirRejected(org: CString, res: SymLinkResult, root: CString)
    requires var f := FileName(org, res); !IsEtcPath(f) && InProtectedDir(f, root)
    ensures CheckLogPath(org, res, root) == LS_FAIL
  {
  }

  /** The directory rule is a plain prefix test: `<root>config.log` falls under
      `conf` and is rejected, for every root outside `/etc/`. */
  lemma ConfigFileUnderRootRejected(root: CString)
    requires !IsEtcPath(root + "config.log")
    ensures CheckLogPath(root + "config.log", ResolveFailed, root) == LS_FAIL
  {
    var tail := "config.log";
    var f := root + tail;
    // The suffix rules only look at the last six characters, all inside `tail`.
    forall i | 0 <= i < |ExcludeFileList|
      ensures !(|f| > |ExcludeFileList[i]| && EndsWithNoCase(f, ExcludeFileList[i]))
    {
      var e := ExcludeFileList[i];
      assert f[|f| - |e|..] == tail[|tail| - |e|..];
      if i == 0 {
        assert !SameIgnoringCase(tail[7], e[1]);
      } else if i == 1 {
        assert !SameIgnoringCase(tail[7], e[0]);
      } else {
        assert !SameIgnoringCase(tail[5], e[1]);
      }
    }
    // The last dot is the one before `log`, so the extension is `.log`.
    forall i | |root| + 6 < i < |f| ensures f[i] != '.' {
      assert f[i] == tail[i - |root|];
    }
    LastIndexOfIsLastOccurrence(f, '.', |root| + 6);
    assert !StartsWithNoCase(f[|root| + 6..], ".ph") by {
      assert f[|root| + 7] == 'l';
    }
    assert f[|root|..] == tail;
    assert StartsWithNoCase(f[|root|..], ExcludeDirList[2]);
    assert StartsWith(f, root) by {
      assert f[..|root|] == root;
    }
  }

  /** A server root below `/etc/` disables the directory rule: its `conf`
      directory takes the `/etc/` branch and is accepted. */
  lemma EtcServerRootBypassesDirRule()
    ensures CheckLogPath("/etc/lsws/conf/error_log", ResolveFailed, "/etc/lsws/") == 0
  {
    var f := "/etc/lsws/conf/error_log";
    assert '.' !in f;
    assert !StartsWithNoCase(f[5..], "apache") by {
      assert !SameIgnoringCase(f[5], 'a');
    }
    assert !StartsWithNoCase(f[5..], "httpd") by {
      assert !SameIgnoringCase(f[5], 'h');
    }
    forall i | 0 <= i < |ExcludeFileList|
      ensures !(|f| > |ExcludeFileList[i]| && EndsWithNoCase(f, ExcludeFileList[i]))
    {
      var e := ExcludeFileList[i];
      assert !SameIgnoringCase(f[|f| - |e|], '.');
    }
    assert StartsWith(f, "/etc/lsws/");
  }

  /** Once resolution succeeds only the resolved path matters: the verdict is
      the one for that path given directly with resolution failing. */
  lemma ResolvedPathDecides(org: CString, p: CString, root: CString)
    ensures CheckLogPath(org, Resolved(p), root) == CheckLogPath(p, ResolveFailed, root)
  {
  }
}
