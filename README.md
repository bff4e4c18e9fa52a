# HttpLog: log-path safety rules and logging switches of OpenLiteSpeed

This project models the part of OpenLiteSpeed's `HttpLog` (src/http/httplog.cpp)
that has behaviour of its own rather than calls into the logging library:

- `checkLogPathValid`, the gate every access-log and error-log path passes
  before a log file is opened. It resolves symbolic links, then accepts short
  paths outright and rejects script suffixes (`.cgi`, `.pl`, `.shtml`), any
  extension starting `.ph` after the last dot, `/etc/apache*` and `/etc/httpd*`,
  and the `admin/conf`, `admin/html` and `conf` directories under the server
  root. It returns 0 to accept and `LS_FAIL` to reject.
- The debug switch `s_debugLevel` with `setDebugLevel`, `toggleDebugLog`,
  `isDebugEnabled` and the guard at the head of `debug`.
- The 40-byte layout-pattern buffer `s_logPattern` with `setLogPattern` and
  `getLogPattern`.

Layout:

- `cstr.dfy`, module `CStr`: the C library behaviour the rules depend on. A
  C string is a `seq<char>` whose elements are bytes (codes 1 to 255), so
  lengths count bytes as `strlen` does. A multi-byte UTF-8 character is
  several elements. The module defines `strncmp`/`strncasecmp`
  prefix and suffix tests in the C locale, `strrchr` as `LastIndexOf`, and
  reading the string held in a NUL-terminated buffer.
- `logpath.dfy`, module `LogPath`: the validator as a pure function,
  `CheckLogPath(org, res, root)`. The function takes the original path, what
  symbolic-link resolution reported, and the server root. It comes with an
  order-free restatement, `Acceptable`, and lemmas for each rule and its edge
  cases.
- `httplog.dfy`, module `Http`: class `HttpLog`, whose fields stand for the
  static members `s_debugLevel`, `s_serverRoot` and `s_logPattern` (the last
  one is a 40-element `array<char>`). Its methods update them in place. The
  method `CheckLogPathValid` scans the exclusion lists with loops, as
  httplog.cpp does, and is proved equal to `CheckLogPath`.

Two constants come from headers that are not part of this model.
`LS_FAIL` is taken as -1. The start-up debug level `DL_IODATA` is the
constructor's argument.

`s_serverRoot` starts out empty (httplog.cpp:49). Code outside httplog.cpp
assigns it, so the constructor takes it as an argument.

## Model

| member | source | states |
|---|---|---|
| `LogPath.CheckLogPath` | src/http/httplog.cpp:203-265 | The verdict is always 0 or `LS_FAIL`. It is 0 exactly when the effective path is `Acceptable`: shorter than 5, or free of script suffixes and `.ph` extensions and then, under `/etc/`, not naming apache/httpd, and elsewhere not in a protected server directory |
| `Http.HttpLog.CheckLogPathValid` | src/http/httplog.cpp:203-265 | The loop-based validator over the two exclusion arrays returns exactly `CheckLogPath(org, res, serverRoot)`, so 0 or `LS_FAIL`. It requires the original path to fit the `MAX_PATH_LEN` buffer |
| `LogPath.ResolvedPathDecides` | src/http/httplog.cpp:209-215 | When resolution succeeds, the original path is irrelevant. The verdict is the one for the resolved path, checked with its own length |
| `LogPath.ShortPathAccepted` | src/http/httplog.cpp:216-217 | An effective path shorter than 5 bytes is accepted, whatever it contains |
| `LogPath.ExcludedSuffixRejected` | src/http/httplog.cpp:220-229 | A path of at least 5 bytes that ends in `.cgi`, `.pl` or `.shtml` in any letter case, and is strictly longer than that suffix, is rejected |
| `LogPath.BareSuffixAccepted` | src/http/httplog.cpp:222-224 | The strict length test lets the path `.shtml` itself through the suffix rule, and it is accepted for every server root |
| `LogPath.PhAfterLastDotRejected` | src/http/httplog.cpp:231-237 | Any path `a + ph + b` of at least 5 bytes is rejected when `ph` is `.ph` in any letter case (`.PH`, `.Ph`, `.pH`) and `b` has no dot, even when `b` holds `/`. So a `.ph` after the last dot in a directory name rejects the path too |
| `LogPath.Utf8PathLengthInBytes` | src/http/httplog.cpp:216-229 | Lengths count bytes: `é.pl`, five bytes in UTF-8, is not short and is rejected by the `.pl` suffix rule |
| `LogPath.EtcServerConfigRejected` | src/http/httplog.cpp:240-244 | A path under `/etc/` (case-sensitive) continuing with `apache` or `httpd` (any case) is rejected |
| `LogPath.EtcOtherAccepted` | src/http/httplog.cpp:240-246 | Any other `/etc/` path that passes the suffix and `.ph` rules is accepted |
| `LogPath.EtcIgnoresServerRoot` | src/http/httplog.cpp:240-246 | For an `/etc/` path, the verdict is the same for every server root: the directory rule is never reached |
| `LogPath.EtcScriptSuffixRejected` | src/http/httplog.cpp:220-246 | The suffix rules run before the `/etc/` branch: `/etc/x.pl` is rejected for every server root |
| `LogPath.ProtectedDirRejected` | src/http/httplog.cpp:248-262 | A non-`/etc/` path under `<root>admin/conf`, `<root>admin/html` or `<root>conf` (case-insensitive prefix, strictly longer) is rejected, by the directory rule or by an earlier suffix rule |
| `LogPath.ConfigFileUnderRootRejected` | src/http/httplog.cpp:248-262 | For every server root outside `/etc/`, `<root>config.log` is rejected, because the directory rule is a plain prefix test on `conf` |
| `LogPath.EtcServerRootBypassesDirRule` | src/http/httplog.cpp:240-262 | With server root `/etc/lsws/`, the path `/etc/lsws/conf/error_log` is accepted: the `/etc/` branch returns before the directory rule |
| `CStr.LastIndexOf` | src/http/httplog.cpp:232 | The `strrchr` result is -1 when there is no such character. Otherwise it is an index holding the character with none after it |
| `CStr.CStringIn` | src/http/httplog.cpp:43 | The string read from a NUL-terminated buffer is NUL-free and shorter than the buffer. It matches the buffer up to the first NUL, which follows it |
| `Http.HttpLog.constructor` | src/http/httplog.cpp:43-49 | Initially the pattern buffer is 40 bytes and holds `%d [%p] %m`. The debug level and server root are the given values |
| `Http.HttpLog.LogPattern` | src/http/httplog.cpp:184-187 | The stored pattern is the buffer's C string: shorter than 40, followed by its NUL inside the buffer |
| `Http.HttpLog.SetLogPattern` | src/http/httplog.cpp:177-181 | A pattern shorter than 39 characters becomes the stored pattern. Any other pattern leaves it unchanged. The buffer stays a terminated 40-byte string either way |
| `Http.HttpLog.SetDebugLevel` | src/http/httplog.cpp:133-135 | The debug level becomes the argument exactly. No other field changes |
| `Http.ToggledLevel` | src/http/httplog.cpp:150-156 | The toggled level is 0 exactly when the old level was nonzero. Otherwise it is 10 |
| `Http.HttpLog.ToggleDebugLog` | src/http/httplog.cpp:150-156 | The new debug level is `ToggledLevel` of the old one: zero exactly when the old one was nonzero |
| `Http.ToggleTwiceFromOff` | src/http/httplog.cpp:150-156 | Toggling twice from level 0 returns to 0 |
| `Http.ToggleTwiceForgetsLevel` | src/http/httplog.cpp:150-156 | Toggling twice from any nonzero level gives 10, not the original level |
| `Http.ToggleFromNegativeStaysSilent` | src/http/httplog.cpp:150-156 | From a negative level, toggling gives 0. `debug` (guard `> 0`) stays silent before and after |
| `Http.HttpLog.IsDebugEnabled` | src/http/httplog.cpp:127-130 | True exactly when `level < s_debugLevel` and the logger enables DEBUG: false whenever either fails, true whenever both hold. If it is true for a level of at least 0, the `debug` guard is on |
| `Http.HttpLog.Debug` | src/http/httplog.cpp:382-394 | Nothing is emitted while the debug level is at most 0. Otherwise output happens exactly when the logger enables DEBUG. The same guard opens the overload at lines 484-498 |

## Left out

- `GPath::checkSymLinks` is filesystem I/O, so its outcome is an input: `ResolveFailed` or `Resolved(path)`. The model takes the length it returns to be the length of the resolved path.
- `LogPath.CheckLogPath` and `Http.HttpLog.CheckLogPathValid` assume no truncation: the method requires the original path to be shorter than `MAX_PATH_LEN` (8192), and the function and its lemmas take `len` to be the full length of the checked path. `lstrncpy` is not part of this model. For a longer path whose resolution fails, lines 209-213 check the untruncated path against the truncated length, and the function's verdict can differ from httplog.cpp's.
- The rejection messages written by `HttpLog::perror` (lines 226, 235, 258) are not modelled. They go through the logging library.
- `setDebugLevel` also calls the logging library (lines 136-147), so the model keeps only `s_debugLevel`. For a nonzero level, line 144 (`logger()->setLevel(Level::DEBUG)`) sets the root logger to DEBUG. That is the logger state that the second guard of `debug` (line 386) and `isDebugEnabled` (line 129) read. Line 145 sets the library's default level, and lines 140 and 146 set the QUIC engine's debug flag. Because the logger's DEBUG state is the free input `loggerDebugEnabled`, the model does not state that switching debugging on with `setDebugLevel` or `toggleDebugLog` makes `debug` emit through the root logger.
- `isEnabled` and the logger's DEBUG check are foreign calls. They enter `IsDebugEnabled` and `Debug` as the boolean `loggerDebugEnabled`. Message formatting and writing are not modelled.
- `updateLogPatternWithPid` (line 114) is left out. It formats with `lsnprintf`, which is not part of this model.
- `init`, `setLogLevel` (both overloads, lines 165-174), `getLogLevel`, `setCurLogger` (lines 65-69), `isEnabled`, `setAccessLogFile`, `setErrorLogFile`, `offsetChroot`, `onTimer`, `logAccess`, the getters and `achAccessLog` are left out. They are calls into the logging library (`Logger`, `Appender`, `Layout`, `LogRotate`, `AccessLog`, `StdErrLogger`) or raw memory placement.
- The varargs front-ends (`error`, `warn`, `notice`, `info`, `log`, `vlog`, `lograw`, `errmem`, `parse_error`, `parse_warn`, `perror`, `error_num`, `error_detail`) are left out. They only format and write through the logging library.
- `ContextTree` (src/http/contexttree.h) is left out. It declares the routing trie's operations, but their bodies are not part of this model. The only bodies present are the `getRootContext`/`setRootContext`/`getRootNode` accessors, which store or return a pointer.
- `tolower`/`strncasecmp` are modelled for the C locale: ASCII letters only.
