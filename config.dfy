/**
 * LoadConfig of config.go: read the settings from the environment and validate them in a fixed
 * order, stopping at the first failure. The environment is a map from variable name to value;
 * an unset variable reads as the empty string, as with os.Getenv.
 */
module Config {
  import opened Wrappers
  import Strconv

  const WsUrlKey := "WS_URL"
  const ServerExePathKey := "SERVER_EXE_PATH"
  const TokenKey := "TOKEN"
  const MinPortKey := "MIN_PORT"
  const MaxPortKey := "MAX_PORT"
  const PlaylistsDirKey := "WORKSHOP_PLAYLISTS_INSTALL_DIR"
  const ModsDirKey := "WORKSHOP_MODS_INSTALL_DIR"
  const SteamCmdPathKey := "STEAMCMD_PATH"
  const GameAppIdKey := "GAME_APPID"

  /** The lowest and highest port the range may use. */
  const LowestPort := 1024
  const HighestPort := 65535

  /** The package-level settings LoadConfig assigns. */
  datatype ServerConfig = ServerConfig(
    wsURL: string,
    serverExePath: string,
    authToken: string,
    minPort: int,
    maxPort: int,
    playlistsInstallDir: string,
    modsInstallDir: string,
    steamCmdPath: string,
    gameAppID: string)

  /** The fatal errors, one per kind of check. */
  datatype ConfigError =
    | Missing(key: string)
    | NotANumber(key: string, value: string)
    | MinAboveMax(minPort: int, maxPort: int)
    | OutOfRange(minPort: int, maxPort: int)

  /** os.Getenv */
  function Getenv(env: map<string, string>, key: string): string {
    if key in env then env[key] else ""
  }

  /** One validation step of LoadConfig. */
  datatype Check = Required(key: string) | Integer(key: string) | Ordered | InRange

  const CheckCount := 14

  /** The k-th check LoadConfig makes. */
  function CheckAt(k: nat): Check
    requires k < CheckCount
  {
    match k
    case 0 => Required(WsUrlKey)
    case 1 => Required(ServerExePathKey)
    case 2 => Required(TokenKey)
    case 3 => Required(MinPortKey)
    case 4 => Integer(MinPortKey)
    case 5 => Required(MaxPortKey)
    case 6 => Integer(MaxPortKey)
    case 7 => Required(PlaylistsDirKey)
    case 8 => Required(ModsDirKey)
    case 9 => Required(SteamCmdPathKey)
    case 10 => Required(GameAppIdKey)
    case 11 => Integer(GameAppIdKey)
    case 12 => Ordered
    case _ => InRange
  }

  /** The parsed value of a variable, 0 when it does not parse (the value Atoi returns with its error). */
  function IntOf(env: map<string, string>, key: string): int {
    var r := Strconv.Atoi(Getenv(env, key));
    if r.Some? then r.value else 0
  }

  /** The error a check reports for this environment, if it fails. */
  function Failure(env: map<string, string>, c: Check): Option<ConfigError> {
    match c
    case Required(key) => if Getenv(env, key) == "" then Some(Missing(key)) else None
    case Integer(key) =>
      if Strconv.Atoi(Getenv(env, key)).None? then Some(NotANumber(key, Getenv(env, key))) else None
    case Ordered =>
      var lo, hi := IntOf(env, MinPortKey), IntOf(env, MaxPortKey);
      if lo > hi then Some(MinAboveMax(lo, hi)) else None
    case InRange =>
      var lo, hi := IntOf(env, MinPortKey), IntOf(env, MaxPortKey);
      if lo < LowestPort || hi > HighestPort then Some(OutOfRange(lo, hi)) else None
  }

  /** The error of the first failing check from the k-th on, if any. */
  function FirstFailure(env: map<string, string>, k: nat): (r: Option<ConfigError>)
    requires k <= CheckCount
    ensures r.None? <==> forall i :: k <= i < CheckCount ==> Failure(env, CheckAt(i)).None?
    decreases CheckCount - k
  {
    if k == CheckCount then None
    else if Failure(env, CheckAt(k)).Some? then Failure(env, CheckAt(k))
    else FirstFailure(env, k + 1)
  }

  /** The settings as read from the environment. */
  function Settings(env: map<string, string>): ServerConfig {
    ServerConfig(
      Getenv(env, WsUrlKey), Getenv(env, ServerExePathKey), Getenv(env, TokenKey),
      IntOf(env, MinPortKey), IntOf(env, MaxPortKey),
      Getenv(env, PlaylistsDirKey), Getenv(env, ModsDirKey), Getenv(env, SteamCmdPathKey),
      Getenv(env, GameAppIdKey))
  }

  /**
   * LoadConfig: the settings when every check passes, otherwise the error of the first check
   * that fails (a fatal exit in the program). On success the port range lies within 1024..65535.
   */
  method LoadConfig(env: map<string, string>) returns (r: Result<ServerConfig, ConfigError>)
    ensures r.Err? <==> FirstFailure(env, 0).Some?
    ensures r.Err? ==> r.error == FirstFailure(env, 0).value
    ensures r.Ok? ==> r.value == Settings(env)
    ensures r.Ok? ==> LowestPort <= r.value.minPort <= r.value.maxPort <= HighestPort
  {
    var wsURL := Getenv(env, WsUrlKey);
    if wsURL == "" {
      return Err(Missing(WsUrlKey));
    }
    var serverExePath := Getenv(env, ServerExePathKey);
    assert FirstFailure(env, 0) == FirstFailure(env, 1);
    if serverExePath == "" {
      return Err(Missing(ServerExePathKey));
    }
    var authToken := Getenv(env, TokenKey);
    assert FirstFailure(env, 0) == FirstFailure(env, 2);
    if authToken == "" {
      return Err(Missing(TokenKey));
    }
    var minPortStr := Getenv(env, MinPortKey);
    assert FirstFailure(env, 0) == FirstFailure(env, 3);
    if minPortStr == "" {
      return Err(Missing(MinPortKey));
    }
    var minPort := Strconv.Atoi(minPortStr);
    assert FirstFailure(env, 0) == FirstFailure(env, 4);
    if minPort.None? {
      return Err(NotANumber(MinPortKey, minPortStr));
    }
    var maxPortStr := Getenv(env, MaxPortKey);
    assert FirstFailure(env, 0) == FirstFailure(env, 5);
    if maxPortStr == "" {
      return Err(Missing(MaxPortKey));
    }
    var maxPort := Strconv.Atoi(maxPortStr);
    assert FirstFailure(env, 0) == FirstFailure(env, 6);
    if maxPort.None? {
      return Err(NotANumber(MaxPortKey, maxPortStr));
    }
    var playlistsDir := Getenv(env, PlaylistsDirKey);
    assert FirstFailure(env, 0) == FirstFailure(env, 7);
    if playlistsDir == "" {
      return Err(Missing(PlaylistsDirKey));
    }
    var modsDir := Getenv(env, ModsDirKey);
    assert FirstFailure(env, 0) == FirstFailure(env, 8);
    if modsDir == "" {
      return Err(Missing(ModsDirKey));
    }
    var steamCmdPath := Getenv(env, SteamCmdPathKey);
    assert FirstFailure(env, 0) == FirstFailure(env, 9);
    if steamCmdPath == "" {
      return Err(Missing(SteamCmdPathKey));
    }
    var gameAppID := Getenv(env, GameAppIdKey);
    assert FirstFailure(env, 0) == FirstFailure(env, 10);
    if gameAppID == "" {
      return Err(Missing(GameAppIdKey));
    }
    assert FirstFailure(env, 0) == FirstFailure(env, 11);
    if Strconv.Atoi(gameAppID).None? {
      return Err(NotANumber(GameAppIdKey, gameAppID));
    }
    assert FirstFailure(env, 0) == FirstFailure(env, 12);
    if minPort.value > maxPort.value {
      return Err(MinAboveMax(minPort.value, maxPort.value));
    }
    assert FirstFailure(env, 0) == FirstFailure(env, 13);
    if minPort.value < LowestPort || maxPort.value > HighestPort {
      return Err(OutOfRange(minPort.value, maxPort.value));
    }
    assert FirstFailure(env, 0) == FirstFailure(env, 14);
    return Ok(ServerConfig(wsURL, serverExePath, authToken, minPort.value, maxPort.value,
                           playlistsDir, modsDir, steamCmdPath, gameAppID));
  }

  /** The first failing check decides the error: every check before it passes. */
  lemma {:induction false} FirstFailureIsFirst(env: map<string, string>, k: nat)
    requires k <= CheckCount && FirstFailure(env, k).Some?
    ensures exists i :: (k <= i < CheckCount && Failure(env, CheckAt(i)) == FirstFailure(env, k)
      && forall j :: k <= j < i ==> Failure(env, CheckAt(j)).None?)
    decreases CheckCount - k
  {
    if Failure(env, CheckAt(k)).None? {
      FirstFailureIsFirst(env, k + 1);
    }
  }

  /** An unset or empty required variable always stops the load; a non-numeric port or app id too. */
  lemma RequiredAndNumeric(env: map<string, string>, key: string)
    requires key in {WsUrlKey, ServerExePathKey, TokenKey, MinPortKey, MaxPortKey,
                     PlaylistsDirKey, ModsDirKey, SteamCmdPathKey, GameAppIdKey}
    ensures Getenv(env, key) == "" ==> FirstFailure(env, 0).Some?
    ensures key in {MinPortKey, MaxPortKey, GameAppIdKey} && Strconv.Atoi(Getenv(env, key)).None?
      ==> FirstFailure(env, 0).Some?
  {
    if Getenv(env, key) == "" {
      var i := if key == WsUrlKey then 0 else if key == ServerExePathKey then 1 else if key == TokenKey then 2
        else if key == MinPortKey then 3 else if key == MaxPortKey then 5 else if key == PlaylistsDirKey then 7
        else if key == ModsDirKey then 8 else if key == SteamCmdPathKey then 9 else 10;
      assert Failure(env, CheckAt(i)).Some?;
    }
    if key in {MinPortKey, MaxPortKey, GameAppIdKey} && Strconv.Atoi(Getenv(env, key)).None? {
      var i := if key == MinPortKey then 4 else if key == MaxPortKey then 6 else 11;
      assert Failure(env, CheckAt(i)).Some?;
    }
  }

  /** A loaded configuration gives the port allocator a non-empty range of unprivileged ports. */
  lemma LoadedRangeValid(env: map<string, string>)
    requires FirstFailure(env, 0).None?
    ensures LowestPort <= Settings(env).minPort <= Settings(env).maxPort <= HighestPort
    ensures Strconv.Atoi(Getenv(env, MinPortKey)) == Some(Settings(env).minPort)
    ensures Strconv.Atoi(Getenv(env, MaxPortKey)) == Some(Settings(env).maxPort)
    ensures Strconv.Atoi(Getenv(env, GameAppIdKey)).Some?
  {
    assert Failure(env, CheckAt(4)).None? && Failure(env, CheckAt(6)).None? && Failure(env, CheckAt(11)).None?;
    assert Failure(env, CheckAt(12)).None? && Failure(env, CheckAt(13)).None?;
  }
}
