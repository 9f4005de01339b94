/**
 * Settings resolution of spotspot/services/config_service.py.
 *
 * `ConfigService.__init__` runs `get_vars` and then `get_spotdl_vars`; each
 * sets one attribute after another from `os.getenv` with a default, and the
 * second one then fills the `spotdl_config` dictionary from its attributes.
 * Here the process environment is an explicit map and `platform.system()` an
 * explicit string. Every option is described once, in tables giving the
 * attribute it sets, the variable it reads and how the text is turned into a
 * value; an `int(...)` that raises is an `Err`, which stops construction.
 */
module Config {
  import opened Wrappers
  import opened Strings

  type Env = map<string, string>

  /** `os.getenv(name, default)` */
  function GetEnv(env: Env, name: string, default: string): string
  {
    if name in env then env[name] else default
  }

  /**
   * The `ValueError` of an `int(...)` conversion: the text `int` rejected,
   * tagged with the variable it was read from. Python's message holds only
   * the text; the tag is the model's, so that lemmas can say which read failed.
   */
  datatype ConfigError = NotAnInteger(variable: string, text: string)

  /** `int(text)` for the text of variable `variable`. */
  function ParseNumber(variable: string, text: string): Result<int, ConfigError>
  {
    match ParseInt(text)
    case Some(n) => Ok(n)
    case None => Err(NotAnInteger(variable, text))
  }

  // ---------------------------------------------------------------------------
  // get_vars (config_service.py:15-79)
  // ---------------------------------------------------------------------------

  /** The string attributes `get_vars` reads from the environment. */
  datatype Var =
    | TrackOutput
    | AlbumOutput
    | PlaylistOutput
    | ArtistOutput
    | TriggerJellyfinScan
    | TriggerPlexScan
    | JellyfinAddress
    | JellyfinApiKey
    | PlexAddress
    | PlexToken
    | PlexLibraryName
    | GenerateM3uPlaylist
    | M3uPlaylistName
    | M3uPlaylistPath
    | RelativeServerPath
    | ExtraLogging

  /** The attribute each of them sets. */
  function VarName(v: Var): string
  {
    match v
    case TrackOutput => "track_output"
    case AlbumOutput => "album_output"
    case PlaylistOutput => "playlist_output"
    case ArtistOutput => "artist_output"
    case TriggerJellyfinScan => "trigger_jellyfin_scan"
    case TriggerPlexScan => "trigger_plex_scan"
    case JellyfinAddress => "jellyfin_address"
    case JellyfinApiKey => "jellyfin_api_key"
    case PlexAddress => "plex_address"
    case PlexToken => "plex_token"
    case PlexLibraryName => "plex_library_name"
    case GenerateM3uPlaylist => "generate_m3u_playlist"
    case M3uPlaylistName => "m3u_playlist_name"
    case M3uPlaylistPath => "m3u_playlist_path"
    case RelativeServerPath => "relative_server_path"
    case ExtraLogging => "extra_logging"
  }

  /** The variable each attribute reads: its own name, except `m3u_playlist_path` (config_service.py:66). */
  function VarEnv(v: Var): string
  {
    if v == M3uPlaylistPath then "new_m3u_playlist_path" else VarName(v)
  }

  /** The text an attribute takes when its variable is unset. */
  function VarDefault(v: Var): string
  {
    match v
    case TrackOutput => "{artist} - {title}.{output-ext}"
    case AlbumOutput => "{artist}/{album}/{artist} - {title}.{output-ext}"
    case PlaylistOutput => "{list-name}/{artist} - {title}.{output-ext}"
    case ArtistOutput => "{artist}/{album}/{artist} - {title}.{output-ext}"
    case TriggerJellyfinScan => "True"
    case TriggerPlexScan => "True"
    case JellyfinAddress => "http://192.168.1.123:8096"
    case JellyfinApiKey => ""
    case PlexAddress => "http://192.168.1.123:32400"
    case PlexToken => ""
    case PlexLibraryName => "Music"
    case GenerateM3uPlaylist => "True"
    case M3uPlaylistName => "spotify_singles"
    case M3uPlaylistPath => "/data/media/music/playlists"
    case RelativeServerPath => "/data/media/music/singles"
    case ExtraLogging => "False"
  }

  /** The fixed `supported_formats` set (config_service.py:72). */
  const SupportedFormats: set<string> := {".mp3", ".flac", ".wav", ".aac", ".ogg", ".m4a", ".opus"}

  /** The attributes `get_vars` sets. */
  datatype Vars = Vars(
    configPath: string,
    ffmpegLocation: string,
    text: Var -> string,
    supportedFormats: set<string>,
    searchLimit: int)

  /** `search_limit` as line 78 is written: `int(os.getenv("extra_logging", "10"))`. */
  function SearchLimitAsWritten(env: Env): Result<int, ConfigError>
  {
    ParseNumber("extra_logging", GetEnv(env, "extra_logging", "10"))
  }

  /** What line 78 evidently means: `int(os.getenv("search_limit", "10"))`. */
  function IntendedSearchLimit(env: Env): Result<int, ConfigError>
  {
    ParseNumber("search_limit", GetEnv(env, "search_limit", "10"))
  }

  /**
   * `get_vars` as written: `search_limit` is converted from the text of
   * `extra_logging` (see `IntendedSearchLimit` for the evident intent). Only
   * that conversion can fail.
   */
  function GetVars(env: Env, osName: string): Result<Vars, ConfigError>
  {
    match SearchLimitAsWritten(env)
    case Err(e) => Err(e)
    case Ok(limit) =>
      Ok(Vars(
        configPath := if osName == "Windows" then "D:\\config.json" else "/home/appuser/.spotdl/config.json",
        ffmpegLocation := if osName == "Windows" then "D:\\" else "/usr/bin/ffmpeg",
        text := v => GetEnv(env, VarEnv(v), VarDefault(v)),
        supportedFormats := SupportedFormats,
        searchLimit := limit))
  }

  // ---------------------------------------------------------------------------
  // get_spotdl_vars (config_service.py:81-369)
  // ---------------------------------------------------------------------------

  /** How an option's text becomes its value. */
  datatype Kind =
    | Plain(default: string)    // os.getenv(name, default)
    | Nullable                  // os.getenv(name, None)
    | Switch(default: string)   // os.getenv(name, default).lower() == "true"
    | Integer(fallback: int)    // int(os.getenv(name, fallback))
    | Listing(default: string)  // os.getenv(name, default).split(",")

  /** An attribute, the environment variable it reads, and how. */
  datatype Setting = Setting(attr: string, env: string, kind: Kind)

  /** A Python value an option can take. */
  datatype Value = Str(s: string) | Null | Bool(b: bool) | Int(n: int) | List(items: seq<string>)

  /** The value of one option in an environment, or the error its `int(...)` raises. */
  function Read(s: Setting, env: Env): Result<Value, ConfigError>
  {
    match s.kind
    case Plain(d) => Ok(Str(GetEnv(env, s.env, d)))
    case Nullable => Ok(if s.env in env then Str(env[s.env]) else Null)
    case Switch(d) => Ok(Bool(IsTrue(GetEnv(env, s.env, d))))
    case Integer(n) =>
      if s.env in env then
        match ParseNumber(s.env, env[s.env])
        case Ok(k) => Ok(Int(k))
        case Err(e) => Err(e)
      else Ok(Int(n))
    case Listing(d) => Ok(List(Split(GetEnv(env, s.env, d), ',')))
  }

  /** The attributes `get_spotdl_vars` sets, in source order. */
  datatype SpotdlVar =
    | ClientId
    | ClientSecret
    | AuthToken
    | UserAuth
    | Headless
    | CachePath
    | NoCache
    | Output
    | Format
    | Preload
    | Port
    | Host
    | KeepAlive
    | EnableTls
    | Proxy
    | SkipExplicit
    | LogLevel
    | RestrictMode
    | MaxRetries
    | UseCacheFile
    | AudioProviders
    | LyricsProviders
    | GeniousToken
    | PlaylistNumbering
    | PlaylistRetainTrackCover
    | ScanForSongs
    | M3u
    | Overwrite
    | SearchQuery
    | Ffmpeg
    | Bitrate
    | FfmpegArgs
    | SaveFile
    | FilterResults
    | Threads
    | CookieFile
    | PrintErrors
    | SponsorBlock
    | Archive
    | LoadConfig
    | SimpleTui
    | FetchAlbums
    | Id3Separator
    | AlbumType
    | Restrict
    | YtmData
    | AddUnavailable
    | GenerateLrc
    | ForceUpdateMetadata
    | OnlyVerifiedResults
    | SyncWithoutDeleting
    | MaxFilenameLength
    | YtDlpArgs
    | DetectFormats
    | SaveErrors
    | IgnoreAlbums
    | LogFormat
    | Redownload
    | SkipAlbumArt
    | CreateSkipFile
    | RespectSkipFile
    | SyncRemoveLrc
    | WebUseOutputDir
    | KeyFile
    | CertFile
    | CaFile
    | AllowedOrigins
    | KeepSessions
    | ForceUpdateGui
    | WebGuiRepo
    | WebGuiLocation

  /** The attribute each spotdl option sets (config_service.py:84-295). */
  function SpotdlAttr(v: SpotdlVar): string
  {
    match v
    case ClientId => "client_id"
    case ClientSecret => "client_secret"
    case AuthToken => "auth_token"
    case UserAuth => "user_auth"
    case Headless => "headless"
    case CachePath => "cache_path"
    case NoCache => "no_cache"
    case Output => "output"
    case Format => "format"
    case Preload => "preload"
    case Port => "port"
    case Host => "host"
    case KeepAlive => "keep_alive"
    case EnableTls => "enable_tls"
    case Proxy => "proxy"
    case SkipExplicit => "skip_explicit"
    case LogLevel => "log_level"
    case RestrictMode => "restrict_mode"
    case MaxRetries => "max_retries"
    case UseCacheFile => "use_cache_file"
    case AudioProviders => "audio_providers"
    case LyricsProviders => "lyrics_providers"
    case GeniousToken => "genious_token"
    case PlaylistNumbering => "playlist_numbering"
    case PlaylistRetainTrackCover => "playlist_retain_track_cover"
    case ScanForSongs => "scan_for_songs"
    case M3u => "m3u"
    case Overwrite => "overwrite"
    case SearchQuery => "search_query"
    case Ffmpeg => "ffmpeg"
    case Bitrate => "bitrate"
    case FfmpegArgs => "ffmpeg_args"
    case SaveFile => "save_file"
    case FilterResults => "filter_results"
    case Threads => "threads"
    case CookieFile => "cookie_file"
    case PrintErrors => "print_errors"
    case SponsorBlock => "sponsor_block"
    case Archive => "archive"
    case LoadConfig => "load_config"
    case SimpleTui => "simple_tui"
    case FetchAlbums => "fetch_albums"
    case Id3Separator => "id3_separator"
    case AlbumType => "album_type"
    case Restrict => "restrict"
    case YtmData => "ytm_data"
    case AddUnavailable => "add_unavailable"
    case GenerateLrc => "generate_lrc"
    case ForceUpdateMetadata => "force_update_metadata"
    case OnlyVerifiedResults => "only_verified_results"
    case SyncWithoutDeleting => "sync_without_deleting"
    case MaxFilenameLength => "max_filename_length"
    case YtDlpArgs => "yt_dlp_args"
    case DetectFormats => "detect_formats"
    case SaveErrors => "save_errors"
    case IgnoreAlbums => "ignore_albums"
    case LogFormat => "log_format"
    case Redownload => "redownload"
    case SkipAlbumArt => "skip_album_art"
    case CreateSkipFile => "create_skip_file"
    case RespectSkipFile => "respect_skip_file"
    case SyncRemoveLrc => "sync_remove_lrc"
    case WebUseOutputDir => "web_use_output_dir"
    case KeyFile => "key_file"
    case CertFile => "cert_file"
    case CaFile => "ca_file"
    case AllowedOrigins => "allowed_origins"
    case KeepSessions => "keep_sessions"
    case ForceUpdateGui => "force_update_gui"
    case WebGuiRepo => "web_gui_repo"
    case WebGuiLocation => "web_gui_location"
  }


  /** How each spotdl option turns its text into a value, with its default (config_service.py:84-295). */
  function SpotdlKind(v: SpotdlVar): Kind
  {
    match v
    case ClientId => Plain("")
    case ClientSecret => Plain("")
    case AuthToken => Nullable
    case UserAuth => Switch("False")
    case Headless => Switch("False")
    case CachePath => Plain("/home/appuser/.spotdl/.spotipy")
    case NoCache => Switch("True")
    case Output => Plain("{artists} - {title}.{output-ext}")
    case Format => Plain("mp3")
    case Preload => Switch("False")
    case Port => Integer(8800)
    case Host => Plain("localhost")
    case KeepAlive => Switch("False")
    case EnableTls => Switch("False")
    case Proxy => Nullable
    case SkipExplicit => Switch("False")
    case LogLevel => Plain("DEBUG")
    case RestrictMode => Plain("none")
    case MaxRetries => Integer(3)
    case UseCacheFile => Switch("False")
    case AudioProviders => Listing("youtube-music")
    case LyricsProviders => Listing("genius,azlyrics,musixmatch")
    case GeniousToken => Plain("alXXDbPZtK1m2RrZ8I4k2Hn8Ahsd0Gh_o076HYvcdlBvmc0ULL1H8Z8xRlew5qaG")
    case PlaylistNumbering => Switch("False")
    case PlaylistRetainTrackCover => Switch("False")
    case ScanForSongs => Switch("False")
    case M3u => Nullable
    case Overwrite => Plain("skip")
    case SearchQuery => Nullable
    case Ffmpeg => Plain("ffmpeg")
    case Bitrate => Nullable
    case FfmpegArgs => Nullable
    case SaveFile => Nullable
    case FilterResults => Switch("True")
    case Threads => Integer(4)
    case CookieFile => Nullable
    case PrintErrors => Switch("False")
    case SponsorBlock => Switch("False")
    case Archive => Nullable
    case LoadConfig => Switch("True")
    case SimpleTui => Switch("False")
    case FetchAlbums => Switch("False")
    case Id3Separator => Plain("/")
    case AlbumType => Nullable
    case Restrict => Nullable
    case YtmData => Switch("False")
    case AddUnavailable => Switch("False")
    case GenerateLrc => Switch("False")
    case ForceUpdateMetadata => Switch("False")
    case OnlyVerifiedResults => Switch("False")
    case SyncWithoutDeleting => Switch("False")
    case MaxFilenameLength => Nullable
    case YtDlpArgs => Nullable
    case DetectFormats => Nullable
    case SaveErrors => Nullable
    case IgnoreAlbums => Nullable
    case LogFormat => Nullable
    case Redownload => Switch("False")
    case SkipAlbumArt => Switch("False")
    case CreateSkipFile => Switch("False")
    case RespectSkipFile => Switch("False")
    case SyncRemoveLrc => Switch("False")
    case WebUseOutputDir => Switch("False")
    case KeyFile => Nullable
    case CertFile => Nullable
    case CaFile => Nullable
    case AllowedOrigins => Nullable
    case KeepSessions => Switch("False")
    case ForceUpdateGui => Switch("False")
    case WebGuiRepo => Nullable
    case WebGuiLocation => Nullable
  }


  /**
   * The variable each spotdl option reads: its attribute's name, except that
   * `genious_token` reads "genius_token" (config_service.py:150).
   */
  function SpotdlEnv(v: SpotdlVar): string
  {
    if v == GeniousToken then "genius_token" else SpotdlAttr(v)
  }

  function SpotdlSetting(v: SpotdlVar): Setting
  {
    Setting(SpotdlAttr(v), SpotdlEnv(v), SpotdlKind(v))
  }

  /** The settings of the three integer conversions, in the order they run (config_service.py:114, 138, 186). */
  const IntegerSettings: seq<Setting> := [SpotdlSetting(Port), SpotdlSetting(MaxRetries), SpotdlSetting(Threads)]

  /** The error of the first setting in `ss` whose reading fails, if any. */
  function FirstFailure(ss: seq<Setting>, env: Env): Option<ConfigError>
  {
    if ss == [] then None
    else match Read(ss[0], env)
      case Err(e) => Some(e)
      case Ok(_) => FirstFailure(ss[1..], env)
  }

  /** The attributes `get_spotdl_vars` sets, by option. */
  datatype SpotdlVars = SpotdlVars(values: SpotdlVar -> Value)

  /** The value an option takes in an environment where it reads without error. */
  function ValueOf(env: Env, v: SpotdlVar): Value
  {
    match Read(SpotdlSetting(v), env)
    case Ok(x) => x
    case Err(_) => Null
  }

  /**
   * `get_spotdl_vars`: the statements run in order and only the three
   * `int(...)` conversions can raise, so the outcome is the first of them
   * that fails, or else every option's value.
   */
  function GetSpotdlVars(env: Env): Result<SpotdlVars, ConfigError>
  {
    match FirstFailure(IntegerSettings, env)
    case Some(e) => Err(e)
    case None =>
      Ok(SpotdlVars(v => ValueOf(env, v)))
  }

  /**
   * The key under which the `spotdl_config` dictionary stores an option
   * (config_service.py:298-369): its attribute's name, except that
   * `genious_token` is stored as "genius_token" and `restrict_mode` is not
   * stored at all.
   */
  function ConfigKey(v: SpotdlVar): Option<string>
  {
    if v == RestrictMode then None
    else if v == GeniousToken then Some("genius_token")
    else Some(SpotdlAttr(v))
  }

  /** The item `spotdl_config` holds for an option: its key and the attribute's value. */
  function SpotdlConfigItem(sv: SpotdlVars, v: SpotdlVar): Option<(string, Value)>
  {
    match ConfigKey(v)
    case None => None
    case Some(key) => Some((key, sv.values(v)))
  }

  // ---------------------------------------------------------------------------
  // The class whose constructor runs get_vars and get_spotdl_vars
  // ---------------------------------------------------------------------------

  /** A `ConfigService` object: the attributes of both loaders, never changed after construction. */
  class ConfigService {
    const vars: Vars
    const spotdl: SpotdlVars

    constructor (vars: Vars, spotdl: SpotdlVars)
      ensures this.vars == vars && this.spotdl == spotdl
    {
      this.vars := vars;
      this.spotdl := spotdl;
    }

    /**
     * `ConfigService()`: `get_vars` first, then `get_spotdl_vars`; the first
     * `ValueError` leaves the constructor and no object is made.
     */
    static method Load(env: Env, osName: string) returns (r: Result<ConfigService, ConfigError>)
      ensures GetVars(env, osName).Err? ==> r == Err(GetVars(env, osName).error)
      ensures GetVars(env, osName).Ok? && GetSpotdlVars(env).Err? ==> r == Err(GetSpotdlVars(env).error)
      ensures "extra_logging" in env && ParseInt(env["extra_logging"]).None? ==>
                r == Err(NotAnInteger("extra_logging", env["extra_logging"]))
      ensures r.Ok? <==> GetVars(env, osName).Ok? && GetSpotdlVars(env).Ok?
      ensures r.Ok? ==> fresh(r.value) && r.value.vars == GetVars(env, osName).value
                        && r.value.spotdl == GetSpotdlVars(env).value
    {
      var vars := GetVars(env, osName);
      if vars.Err? {
        return Err(vars.error);
      }
      var spotdl := GetSpotdlVars(env);
      if spotdl.Err? {
        return Err(spotdl.error);
      }
      var service := new ConfigService(vars.value, spotdl.value);
      r := Ok(service);
    }
  }

  // ---------------------------------------------------------------------------
  // Properties of get_vars
  // ---------------------------------------------------------------------------

  /** Each text attribute is `os.getenv` of its variable with its default. */
  lemma VarsText(env: Env, osName: string, v: Var)
    ensures GetVars(env, osName).Ok? ==> GetVars(env, osName).value.text(v) == GetEnv(env, VarEnv(v), VarDefault(v))
  {
  }

  /** A set variable, even an empty one, is taken unchanged; an unset one gives the listed default. */
  lemma TextVarsFromEnvironment(env: Env, osName: string, v: Var)
    ensures GetVars(env, osName).Ok? && VarEnv(v) in env ==> GetVars(env, osName).value.text(v) == env[VarEnv(v)]
    ensures GetVars(env, osName).Ok? && VarEnv(v) !in env ==> GetVars(env, osName).value.text(v) == VarDefault(v)
  {
    VarsText(env, osName, v);
  }

  /**
   * The playlist name and folder come from `m3u_playlist_name` and
   * `new_m3u_playlist_path`; the variable `m3u_playlist_path` is never read.
   */
  lemma PlaylistVariables()
    ensures VarEnv(M3uPlaylistName) == "m3u_playlist_name" && VarDefault(M3uPlaylistName) == "spotify_singles"
    ensures VarEnv(M3uPlaylistPath) == "new_m3u_playlist_path"
    ensures VarDefault(M3uPlaylistPath) == "/data/media/music/playlists"
  {
  }

  /** No attribute of `get_vars` reads the variable `m3u_playlist_path`: the folder comes from `new_m3u_playlist_path`. */
  lemma PlaylistPathVariableUnread(v: Var)
    ensures VarEnv(v) != "m3u_playlist_path"
  {
  }

  /**
   * The three switches of the synchronisation pass stay raw text, "True" when
   * unset; they are parsed only by the pass itself.
   */
  lemma SyncFlagVariables()
    ensures VarEnv(TriggerJellyfinScan) == "trigger_jellyfin_scan" && VarDefault(TriggerJellyfinScan) == "True"
    ensures VarEnv(TriggerPlexScan) == "trigger_plex_scan" && VarDefault(TriggerPlexScan) == "True"
    ensures VarEnv(GenerateM3uPlaylist) == "generate_m3u_playlist" && VarDefault(GenerateM3uPlaylist) == "True"
  {
  }

  /** With no variable set, all three switches read "True". */
  lemma DefaultSyncFlags(osName: string)
    ensures GetVars(map[], osName).Ok?
    ensures GetVars(map[], osName).value.text(TriggerJellyfinScan) == "True"
    ensures GetVars(map[], osName).value.text(TriggerPlexScan) == "True"
    ensures GetVars(map[], osName).value.text(GenerateM3uPlaylist) == "True"
  {
    ParseTen();
    SyncFlagVariables();
    VarsText(map[], osName, TriggerJellyfinScan);
    VarsText(map[], osName, TriggerPlexScan);
    VarsText(map[], osName, GenerateM3uPlaylist);
  }

  /** `supported_formats` is the same seven extensions whatever the environment and the system. */
  lemma SupportedFormatsFixed(env: Env, osName: string)
    ensures GetVars(env, osName).Ok? ==> GetVars(env, osName).value.supportedFormats == SupportedFormats
  {
  }

  /** The extensions hold no upper-case letter, so lowering them, as the playlist filter does, changes nothing. */
  lemma SupportedFormatsLowercase(ext: string)
    requires ext in SupportedFormats
    ensures forall i :: 0 <= i < |ext| ==> !IsUpper(ext[i])
  {
  }

  /** The configuration file and ffmpeg live on drive D: under Windows and at fixed Linux paths elsewhere. */
  lemma SystemPaths(env: Env, osName: string)
    ensures GetVars(env, osName).Ok? && osName == "Windows" ==> GetVars(env, osName).value.configPath == "D:\\config.json"
    ensures GetVars(env, osName).Ok? && osName != "Windows" ==> GetVars(env, osName).value.configPath == "/home/appuser/.spotdl/config.json"
    ensures GetVars(env, osName).Ok? && osName != "Windows" ==> GetVars(env, osName).value.ffmpegLocation == "/usr/bin/ffmpeg"
    ensures GetVars(env, osName).Ok? && osName == "Windows" ==> GetVars(env, osName).value.ffmpegLocation == "D:\\"
  {
  }

  /** `int("10") == 10`, the default text of `search_limit`. */
  lemma ParseTen()
    ensures ParseInt("10") == Some(10)
  {
    ParseShow(10);
    assert Show(10) == "10";
  }

  /**
   * `get_vars` fails exactly when `extra_logging` is set to text `int`
   * rejects, its documented "False" included; otherwise the limit is that
   * text's value, or 10 when it is unset. `search_limit` plays no part.
   */
  lemma SearchLimitRead(env: Env, osName: string, t: string)
    ensures GetVars(env, osName).Ok? <==>
              ("extra_logging" !in env || ParseInt(env["extra_logging"]).Some?)
    ensures GetVars(env, osName).Ok? ==>
              GetVars(env, osName).value.searchLimit ==
                (if "extra_logging" in env then ParseInt(env["extra_logging"]).value else 10)
    ensures GetVars(env, osName).Err? ==>
              GetVars(env, osName).error == NotAnInteger("extra_logging", env["extra_logging"])
    ensures GetVars(env["extra_logging" := "False"], osName) == Err(NotAnInteger("extra_logging", "False"))
    ensures GetVars(env["search_limit" := t], osName).Ok? == GetVars(env, osName).Ok?
    ensures GetVars(env["search_limit" := t], osName).Ok? ==>
              GetVars(env["search_limit" := t], osName).value.searchLimit == GetVars(env, osName).value.searchLimit
  {
    ParseTen();
    assert ParseInt("False").None? by { assert !IsDigit('F'); }
    assert GetEnv(env["search_limit" := t], "extra_logging", "10") == GetEnv(env, "extra_logging", "10");
  }

  /**
   * As written, the limit ignores a variable named `search_limit`, and
   * `extra_logging` set to "False", the spelling its own default uses, makes
   * the conversion raise.
   */
  lemma SearchLimitCounterexample()
    ensures SearchLimitAsWritten(map["search_limit" := "25"]) == Ok(10)
    ensures SearchLimitAsWritten(map["extra_logging" := "False"]) == Err(NotAnInteger("extra_logging", "False"))
  {
    assert GetEnv(map["search_limit" := "25"], "extra_logging", "10") == "10";
    ParseTen();
    assert GetEnv(map["extra_logging" := "False"], "extra_logging", "10") == "False";
    assert ParseInt("False").None? by { assert !IsDigit('F'); }
  }

  /** The intended limit reads its own variable, defaults to 10, and ignores `extra_logging`. */
  lemma IntendedSearchLimitReadsItsVariable(env: Env, n: int, t: string)
    ensures IntendedSearchLimit(map[]) == Ok(10)
    ensures IntendedSearchLimit(env["search_limit" := Show(n)]) == Ok(n)
    ensures IntendedSearchLimit(env["extra_logging" := t]) == IntendedSearchLimit(env)
  {
    ParseTen();
    ParseShow(n);
    assert GetEnv(env["extra_logging" := t], "search_limit", "10") == GetEnv(env, "search_limit", "10");
  }

  // ---------------------------------------------------------------------------
  // How one setting is read
  // ---------------------------------------------------------------------------

  /** Only an integer conversion of a set variable can fail, and only on text `int` rejects. */
  lemma ReadFails(s: Setting, env: Env)
    ensures Read(s, env).Err? <==> s.kind.Integer? && s.env in env && ParseInt(env[s.env]).None?
    ensures Read(s, env).Err? ==> Read(s, env).error == NotAnInteger(s.env, env[s.env])
  {
  }

  /** An integer setting reads back any number written as decimal text, and its fallback when unset. */
  lemma IntegerRead(s: Setting, env: Env, n: int)
    requires s.kind.Integer?
    ensures Read(s, env[s.env := Show(n)]) == Ok(Int(n))
    ensures s.env !in env ==> Read(s, env) == Ok(Int(s.kind.fallback))
  {
    ParseShow(n);
  }

  /** A switch is true exactly for the four letters of "true" in any case. */
  lemma SwitchRead(s: Setting, env: Env)
    requires s.kind.Switch?
    ensures var t := GetEnv(env, s.env, s.kind.default);
      Read(s, env).Ok? && Read(s, env).value.Bool? &&
      (Read(s, env).value.b <==> |t| == 4 && LowerChar(t[0]) == 't' && LowerChar(t[1]) == 'r'
                                          && LowerChar(t[2]) == 'u' && LowerChar(t[3]) == 'e')
  {
    IsTrueCases(GetEnv(env, s.env, s.kind.default));
  }

  /** A list setting's items, joined back with ",", give its text, and no item holds a ",". */
  lemma ListRead(s: Setting, env: Env)
    requires s.kind.Listing?
    ensures Read(s, env).Ok? && Read(s, env).value.List?
    ensures JoinWith(Read(s, env).value.items, ',') == GetEnv(env, s.env, s.kind.default)
    ensures NoSeparator(Read(s, env).value.items, ',')
  {
    SplitJoin(GetEnv(env, s.env, s.kind.default), ',');
  }

  /** The first failure is the error of the earliest setting that fails, and there is none only when all read. */
  lemma {:induction false} FirstFailureSpec(ss: seq<Setting>, env: Env)
    ensures FirstFailure(ss, env).None? <==> forall i :: 0 <= i < |ss| ==> Read(ss[i], env).Ok?
    ensures FirstFailure(ss, env).Some? ==>
              exists i :: 0 <= i < |ss| && Read(ss[i], env) == Err(FirstFailure(ss, env).value)
                          && forall j :: 0 <= j < i ==> Read(ss[j], env).Ok?
  {
    if ss != [] {
      FirstFailureSpec(ss[1..], env);
      if Read(ss[0], env).Ok? && FirstFailure(ss[1..], env).Some? {
        var i :| 0 <= i < |ss[1..]| && Read(ss[1..][i], env) == Err(FirstFailure(ss[1..], env).value)
                 && forall j :: 0 <= j < i ==> Read(ss[1..][j], env).Ok?;
        assert Read(ss[i + 1], env) == Err(FirstFailure(ss, env).value);
        forall j | 0 <= j < i + 1 ensures Read(ss[j], env).Ok? {
          if j > 0 { assert ss[j] == ss[1..][j - 1]; }
        }
      }
    }
  }

  // ---------------------------------------------------------------------------
  // Properties of the get_spotdl_vars table
  // ---------------------------------------------------------------------------

  /** Only `port`, `max_retries` and `threads` are integer conversions. */
  lemma IntegerOptions(v: SpotdlVar)
    ensures SpotdlKind(v).Integer? <==> v == Port || v == MaxRetries || v == Threads
  {
    match v
    case Port =>
    case MaxRetries =>
    case Threads =>
    case _ =>
  }

  /** Their fallbacks are 8800, 3 and 4. */
  lemma IntegerFallbacks()
    ensures SpotdlKind(Port) == Integer(8800)
    ensures SpotdlKind(MaxRetries) == Integer(3)
    ensures SpotdlKind(Threads) == Integer(4)
  {
  }

  /** Only `audio_providers` and `lyrics_providers` are lists. */
  lemma ListOptions(v: SpotdlVar)
    ensures SpotdlKind(v).Listing? <==> v == AudioProviders || v == LyricsProviders
  {
    match v
    case AudioProviders =>
    case LyricsProviders =>
    case _ =>
  }

  /** The list options default to "youtube-music" and "genius,azlyrics,musixmatch". */
  lemma ListDefaults()
    ensures SpotdlKind(AudioProviders) == Listing("youtube-music")
    ensures SpotdlKind(LyricsProviders) == Listing("genius,azlyrics,musixmatch")
  {
  }

  /** Unset, `audio_providers` is the one-element list ["youtube-music"]. */
  lemma AudioProvidersDefault()
    ensures Split("youtube-music", ',') == ["youtube-music"]
  {
    SplitNoSeparator("youtube-music", ',');
  }

  /** Unset, `lyrics_providers` is ["genius", "azlyrics", "musixmatch"]. */
  lemma LyricsProvidersDefault()
    ensures Split("genius,azlyrics,musixmatch", ',') == ["genius", "azlyrics", "musixmatch"]
  {
    var parts := ["genius", "azlyrics", "musixmatch"];
    assert JoinWith(parts, ',') == "genius,azlyrics,musixmatch";
    JoinSplit(parts, ',');
  }

  /** Every switch defaults to "True" or "False", and only `no_cache`, `filter_results` and `load_config` to "True". */
  lemma SwitchDefaults(v: SpotdlVar)
    requires SpotdlKind(v).Switch?
    ensures SpotdlKind(v).default == "True" || SpotdlKind(v).default == "False"
    ensures SpotdlKind(v).default == "True" <==> v == NoCache || v == FilterResults || v == LoadConfig
  {
  }

  /** An unset switch is true only for `no_cache`, `filter_results` and `load_config`. */
  lemma UnsetSwitches(v: SpotdlVar, env: Env)
    requires SpotdlKind(v).Switch? && SpotdlEnv(v) !in env
    ensures Read(SpotdlSetting(v), env) == Ok(Bool(v == NoCache || v == FilterResults || v == LoadConfig))
  {
    SwitchDefaults(v);
    IsTrueCases("");
  }

  /**
   * `get_spotdl_vars` succeeds iff every option reads without error, and then
   * holds each option's value; otherwise it fails with the error of the first
   * of `port`, `max_retries`, `threads` that does not convert.
   */
  lemma SpotdlVarsSpec(env: Env)
    ensures GetSpotdlVars(env).Ok? <==> forall v :: Read(SpotdlSetting(v), env).Ok?
    ensures GetSpotdlVars(env).Ok? ==>
              forall v :: Read(SpotdlSetting(v), env) == Ok(GetSpotdlVars(env).value.values(v))
    ensures GetSpotdlVars(env).Err? ==>
              exists i :: 0 <= i < |IntegerSettings| && Read(IntegerSettings[i], env) == Err(GetSpotdlVars(env).error)
                          && forall j :: 0 <= j < i ==> Read(IntegerSettings[j], env).Ok?
  {
    FirstFailureSpec(IntegerSettings, env);
    if FirstFailure(IntegerSettings, env).None? {
      forall v ensures Read(SpotdlSetting(v), env).Ok? {
        ReadFails(SpotdlSetting(v), env);
        IntegerOptions(v);
        if v == Port { assert IntegerSettings[0] == SpotdlSetting(v); }
        else if v == MaxRetries { assert IntegerSettings[1] == SpotdlSetting(v); }
        else if v == Threads { assert IntegerSettings[2] == SpotdlSetting(v); }
      }
    } else {
      assert !Read(IntegerSettings[0], env).Ok? || !Read(IntegerSettings[1], env).Ok? || !Read(IntegerSettings[2], env).Ok?;
    }
  }

  /** Unset, every option reads its default and loading succeeds. */
  lemma DefaultSpotdlVars()
    ensures GetSpotdlVars(map[]).Ok?
  {
    SpotdlVarsSpec(map[]);
    forall v ensures Read(SpotdlSetting(v), map[]).Ok? {
      ReadFails(SpotdlSetting(v), map[]);
    }
  }

  // ---------------------------------------------------------------------------
  // Properties of the spotdl_config dictionary
  // ---------------------------------------------------------------------------

  /** Once loading succeeds, each attribute holds the value its option reads. */
  lemma SpotdlValueRead(env: Env, sv: SpotdlVars, v: SpotdlVar)
    requires GetSpotdlVars(env) == Ok(sv)
    ensures Read(SpotdlSetting(v), env) == Ok(sv.values(v))
  {
    SpotdlVarsSpec(env);
  }

  /**
   * Every key of `spotdl_config` is the environment variable its option was
   * read from; `restrict_mode` is the one option read but not stored.
   */
  lemma SpotdlConfigKeysAreVariables(v: SpotdlVar)
    ensures ConfigKey(v).None? <==> v == RestrictMode
    ensures v != RestrictMode ==> ConfigKey(v) == Some(SpotdlEnv(v))
  {
  }

  /** The attribute `genious_token` reads the variable "genius_token" and is stored under that key. */
  lemma GeniusTokenSpelling()
    ensures SpotdlAttr(GeniousToken) == "genious_token"
    ensures SpotdlEnv(GeniousToken) == "genius_token"
    ensures ConfigKey(GeniousToken) == Some("genius_token")
  {
  }

}
