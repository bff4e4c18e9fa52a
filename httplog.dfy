/** The process-wide state of `HttpLog` that the server keeps in static
    members: the debug level, the server root the log-path rules refer to, and
    the 40-byte buffer holding the error-log layout pattern. One object of the
    class stands for those statics. */
module Http {
  import opened CStr
  import opened LogPath

  /** Size of the static `s_logPattern` buffer, its NUL included. */
  const LOG_PATTERN_SIZE: nat := 40

  /** The layout pattern the buffer is initialised with. */
  const DefaultLogPattern: CString := "%d [%p] %m"

  /** The level `toggleDebugLog` switches debugging on with. */
  const TOGGLE_ON_LEVEL: int := 10

  /** The debug level after `toggleDebugLog`: off when it was on, 10 when it was off.
      It tests for zero, while `debug` tests for a positive level. */
  function ToggledLevel(level: int): (r: int)
    ensures (r == 0) <==> (level != 0)
    ensures r != 0 ==> r == TOGGLE_ON_LEVEL
  {
    if level != 0 then 0 else TOGGLE_ON_LEVEL
  }

  /** Toggling twice from off comes back to off. */
  lemma ToggleTwiceFromOff()
    ensures ToggledLevel(ToggledLevel(0)) == 0
  {
  }

  /** Toggling twice from any other level does not restore it: the level becomes 10. */
  lemma ToggleTwiceForgetsLevel(level: int)
    requires level != 0
    ensures ToggledLevel(ToggledLevel(level)) == TOGGLE_ON_LEVEL
  {
  }

  /** From a negative level, which already silences `debug`, toggling gives 0,
      so `debug` stays silent. */
  lemma ToggleFromNegativeStaysSilent(level: int)
    requires level < 0
    ensures ToggledLevel(level) == 0
  {
  }

  class HttpLog {
    /** `s_debugLevel`: `debug` writes only while it is positive. */
    var debugLevel: int
    /** `s_serverRoot`: the root under which some directories may not hold logs. */
    var serverRoot: CString
    /** `s_logPattern`: a NUL-terminated layout pattern in a fixed 40-byte buffer. */
    const logPattern: array<char>

    /** The pattern buffer has its fixed size, holds bytes and a terminated string. */
    ghost predicate Valid()
      reads this, logPattern
    {
      logPattern.Length == LOG_PATTERN_SIZE && AllBytes(logPattern[..]) && '\0' in logPattern[..]
    }

    /** The statics with the default pattern, debug level `initialDebugLevel`
        (`DL_IODATA` at start-up) and server root `root` (empty at start-up,
        assigned later by the server's configuration). */
    constructor (initialDebugLevel: int, root: CString)
      ensures Valid() && fresh(logPattern)
      ensures debugLevel == initialDebugLevel && serverRoot == root
      ensures LogPattern() == DefaultLogPattern
    {
      debugLevel := initialDebugLevel;
      serverRoot := root;
      logPattern := new char[LOG_PATTERN_SIZE](i =>
        if 0 <= i < |DefaultLogPattern| then DefaultLogPattern[i] else '\0');
      new;
      assert logPattern[..|DefaultLogPattern|] == DefaultLogPattern;
      CStringInTerminated(logPattern[..], DefaultLogPattern);
    }

    /** `getLogPattern`: the C string the buffer holds, which always fits it
        with room for its NUL. */
    function LogPattern(): (p: CString)
      reads this, logPattern
      requires Valid()
      ensures |p| < LOG_PATTERN_SIZE
      ensures logPattern[..|p|] == p && logPattern[|p|] == '\0'
    {
      CStringIn(logPattern[..])
    }

    /** `setLogPattern`: a pattern shorter than 39 characters replaces the
        stored one; any longer pattern leaves it unchanged. */
    method SetLogPattern(pattern: CString)
      requires Valid()
      modifies logPattern
      ensures Valid()
      ensures LogPattern() == if |pattern| < LOG_PATTERN_SIZE - 1 then pattern else old(LogPattern())
    {
      if |pattern| < LOG_PATTERN_SIZE - 1 {
        var i := 0;
        while i < |pattern|
          invariant 0 <= i <= |pattern|
          invariant logPattern[..i] == pattern[..i]
          invariant AllBytes(logPattern[..])
        {
          logPattern[i] := pattern[i];
          i := i + 1;
        }
        logPattern[|pattern|] := '\0';
        assert logPattern[..|pattern|] == pattern;
        CStringInTerminated(logPattern[..], pattern);
      }
    }

    /** `setDebugLevel`: stores the level exactly and changes nothing else here. */
    method SetDebugLevel(level: int)
      modifies this`debugLevel
      ensures debugLevel == level
    {
      debugLevel := level;
    }

    /** `toggleDebugLog`: switches debugging off when it is on and on at level 10 when it is off. */
    method ToggleDebugLog()
      modifies this`debugLevel
      ensures debugLevel == ToggledLevel(old(debugLevel))
      ensures (debugLevel == 0) <==> (old(debugLevel) != 0)
    {
      if debugLevel != 0 {
        SetDebugLevel(0);
      } else {
        SetDebugLevel(TOGGLE_ON_LEVEL);
      }
    }

    /** `isDebugEnabled`: a message of `level` is enabled exactly when it is
        below the debug level and the logger lets DEBUG through; an enabled
        level that is not negative means `debug` is switched on too. */
    function IsDebugEnabled(level: int, loggerDebugEnabled: bool): (r: bool)
      reads this
      ensures level >= debugLevel ==> !r
      ensures !loggerDebugEnabled ==> !r
      ensures level < debugLevel && loggerDebugEnabled ==> r
      ensures r && level >= 0 ==> DebugSwitchedOn()
    {
      level < debugLevel && loggerDebugEnabled
    }

    /** The guard at the head of both `debug` overloads. */
    predicate DebugSwitchedOn()
      reads this
    {
      debugLevel > 0
    }

    /** `debug`: whether the message is handed to the logger. Nothing is
        emitted while the debug level is zero or negative, whatever the logger allows. */
    method Debug(loggerDebugEnabled: bool) returns (emitted: bool)
      ensures debugLevel <= 0 ==> !emitted
      ensures emitted ==> loggerDebugEnabled
      ensures debugLevel > 0 && loggerDebugEnabled ==> emitted
    {
      emitted := false;
      if debugLevel > 0 {
        if loggerDebugEnabled {
          emitted := true;
        }
      }
    }

    /** `checkLogPathValid`: the verdict on a proposed log path, reached by the
        C++ code's scans over its exclusion lists, is the one `CheckLogPath` states. */
    method CheckLogPathValid(org: CString, res: SymLinkResult) returns (r: int)
      requires |org| < MAX_PATH_LEN
      ensures r == CheckLogPath(org, res, serverRoot)
      ensures r == 0 || r == LS_FAIL
    {
      var fileName := FileName(org, res);
      var len := |fileName|;
      if len < 5 {
        return 0;
      }

      var i := 0;
      while i < |ExcludeFileList|
        invariant 0 <= i <= |ExcludeFileList|
        invariant forall j :: 0 <= j < i ==>
          !(len > |ExcludeFileList[j]| && EndsWithNoCase(fileName, ExcludeFileList[j]))
      {
        var ll := |ExcludeFileList[i]|;
        if len > ll && StartsWithNoCase(fileName[len - ll..], ExcludeFileList[i]) {
          return LS_FAIL;
        }
        i := i + 1;
      }

      var ext := LastIndexOf(fileName, '.');
      if ext >= 0 && len - ext >= 3 && StartsWithNoCase(fileName[ext..], ".ph") {
        return LS_FAIL;
      }

      if StartsWith(fileName, "/etc/") {
        if StartsWithNoCase(fileName[5..], "apache") || StartsWithNoCase(fileName[5..], "httpd") {
          return LS_FAIL;
        }
        return 0;
      }

      var rootLen := |serverRoot|;
      if len > rootLen + 4 && StartsWith(fileName, serverRoot) {
        i := 0;
        while i < |ExcludeDirList|
          invariant 0 <= i <= |ExcludeDirList|
          invariant forall j :: 0 <= j < i ==>
            !(len - rootLen > |ExcludeDirList[j]| && StartsWithNoCase(fileName[rootLen..], ExcludeDirList[j]))
        {
          var ll := |ExcludeDirList[i]|;
          if len - rootLen > ll && StartsWithNoCase(fileName[rootLen..], ExcludeDirList[i]) {
            return LS_FAIL;
          }
          i := i + 1;
        }
      }
      return 0;
    }
  }
}
