/**
 * Configuration helpers (internal/config/config.go): the log-level mapping, profile
 * lookup by name, validation of the niceness range and the temp directory, and the
 * rewriting of environment-variable names into configuration keys.
 */
module Config {
  import opened Wrappers
  import opened Text
  import Seqs
  import Transcoding

  datatype LogConfig = LogConfig(level: string, format: string)

  datatype Config = Config(
    customFFmpegURL: string,
    tempDir: string,
    profiles: seq<Transcoding.Profile>,
    logging: LogConfig,
    transcodingNiceness: int)

  /** The `slog` levels. */
  const LevelDebug: int := -4
  const LevelInfo: int := 0
  const LevelWarn: int := 4
  const LevelError: int := 8

  /**
   * `GetLogLevel`: the configured level, compared case-insensitively; "warning" is an
   * alias of "warn" and anything unrecognised is info.
   */
  function GetLogLevel(c: Config): (level: int)
    ensures level in {LevelDebug, LevelInfo, LevelWarn, LevelError}
    ensures level == LevelDebug <==> ToLower(c.logging.level) == "debug"
    ensures level == LevelWarn <==> ToLower(c.logging.level) in {"warn", "warning"}
    ensures level == LevelError <==> ToLower(c.logging.level) == "error"
  {
    match ToLower(c.logging.level)
    case "debug" => LevelDebug
    case "info" => LevelInfo
    case "warn" => LevelWarn
    case "warning" => LevelWarn
    case "error" => LevelError
    case _ => LevelInfo
  }

  /** Spellings that differ only in the case of their letters select the same level. */
  lemma LogLevelIgnoresCase(c: Config, level: string)
    requires ToLower(level) == ToLower(c.logging.level)
    ensures GetLogLevel(c.(logging := c.logging.(level := level))) == GetLogLevel(c)
  {
  }

  /** Index of the first profile called `name`, or `|profiles|` when there is none. */
  function FirstNamed(profiles: seq<Transcoding.Profile>, name: string): (k: nat)
    ensures k <= |profiles|
    ensures k < |profiles| ==> profiles[k].name == name
    ensures forall i :: 0 <= i < k ==> profiles[i].name != name
  {
    Seqs.FirstWhere(profiles, (p: Transcoding.Profile) => p.name == name)
  }

  /** `GetProfile`: the first profile with the given name, or nil when none has it. */
  function GetProfile(c: Config, name: string): (r: Option<Transcoding.Profile>)
    ensures r.Some? ==> r.value.name == name
    ensures r.Some? ==> exists k :: 0 <= k < |c.profiles| && c.profiles[k] == r.value
                          && forall i :: 0 <= i < k ==> c.profiles[i].name != name
    ensures r.None? <==> forall i :: 0 <= i < |c.profiles| ==> c.profiles[i].name != name
  {
    var k := FirstNamed(c.profiles, name);
    if k < |c.profiles| then Some(c.profiles[k]) else None
  }

  /** What `os.Stat` reports for the configured temp directory. */
  datatype StatResult = NotExist | StatFailed(msg: string) | IsFile | IsDir

  /** The niceness range a transcoding process may be given. */
  predicate NicenessInRange(n: int) { -20 <= n <= 19 }

  /**
   * `validateConfig`: nil, or the message of the first check that fails. The temp
   * directory is checked only when one is configured.
   */
  function ValidateConfig(c: Config, tempDirStat: StatResult): (err: Option<string>)
    ensures err == None <==>
              NicenessInRange(c.transcodingNiceness) && (c.tempDir == "" || tempDirStat == IsDir)
    ensures !NicenessInRange(c.transcodingNiceness) ==>
              err == Some("transcoding_niceness must be between -20 and 19")
    ensures NicenessInRange(c.transcodingNiceness) && c.tempDir != "" ==>
              match tempDirStat
              case NotExist => err == Some("tempdir does not exist")
              case StatFailed(m) => err == Some("failed to access tempdir: " + m)
              case IsFile => err == Some("tempdir is not a directory")
              case IsDir => err == None
  {
    if c.transcodingNiceness < -20 || c.transcodingNiceness > 19 then
      Some("transcoding_niceness must be between -20 and 19")
    else if c.tempDir != "" then
      match tempDirStat
      case NotExist => Some("tempdir does not exist")
      case StatFailed(m) => Some("failed to access tempdir: " + m)
      case IsFile => Some("tempdir is not a directory")
      case IsDir => None
    else None
  }

  /** Both ends of the niceness range are accepted; one past either end is not. */
  lemma NicenessBounds(c: Config, stat: StatResult)
    requires c.tempDir == ""
    ensures ValidateConfig(c.(transcodingNiceness := -20), stat) == None
    ensures ValidateConfig(c.(transcodingNiceness := 19), stat) == None
    ensures ValidateConfig(c.(transcodingNiceness := -21), stat).Some?
    ensures ValidateConfig(c.(transcodingNiceness := 20), stat).Some?
  {
  }

  const EnvPrefix: string := "EASY_TRANSCODER_"

  /**
   * `cleanEnvVar`: drops the `EASY_TRANSCODER_` prefix, lower-cases, and turns every
   * `_` into `.`, the key delimiter.
   */
  function CleanEnvVar(s: string): (key: string)
    ensures |key| == |TrimPrefix(s, EnvPrefix)|
    ensures forall i :: 0 <= i < |key| ==> key[i] != '_'
    ensures forall i :: 0 <= i < |key| ==>
              key[i] == (if TrimPrefix(s, EnvPrefix)[i] == '_' then '.' else LowerChar(TrimPrefix(s, EnvPrefix)[i]))
  {
    ReplaceChar(ToLower(TrimPrefix(s, EnvPrefix)), '_', '.')
  }
}
