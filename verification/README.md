# spotspot settings and synchronisation pass, in Dafny

This project models the two services at the centre of spotspot, a music
download pipeline:

- `ConfigService` (spotspot/services/config_service.py) turns the process
  environment into settings. `get_vars` reads the pipeline's own options.
  `get_spotdl_vars` reads the downloader's options and builds the
  `spotdl_config` dictionary. An `int(...)` that raises stops construction.
- `PlaylistManager` (spotspot/services/playlist_manager.py) runs the
  synchronisation pass. It asks Jellyfin and Plex to rescan, writes an M3U
  playlist of the audio files directly under "/data", then asks both servers
  to rescan again. Each step catches its own exceptions and logs them.

Modules:

- `Wrappers`: `Option` and `Result`.
- `Strings`: ASCII `lower()`, `endswith`, `split(",")`, `join`, `int()` and
  `str()` of integers.
- `Paths`: `os.path.join` and `os.path.basename`.
- `Files`: the file system as a class updated in place.
- `Config`: config_service.py. Every option is a row of a table: the
  attribute it sets, the variable it reads, and how its text becomes a value.
  Lemmas can therefore speak about all options at once.
- `Playlists`: playlist_manager.py. `PlaylistManager` is a class holding the
  configuration, the file system, the log and the requests sent to the media
  servers.

Each method is proved against a pure function: `Generate` for the playlist
and `Run` of `Plan` for the pass. The lemmas are about those functions.

The environment is a map and `platform.system()` is a string parameter.
These are also inputs:

- the HTTP status Jellyfin answers;
- whether the Plex update goes through;
- which file-system calls the operating system refuses.

File names are matched with `name.endswith(ext.lower())`. Only the
extension is lower-cased, so "song.MP3" is left out of the playlist. A
case-insensitive match would be the natural reading of a lower-cased
extension, but the model follows the code
(`Playlists.UpperCaseExtensionMissed`).

## Model

| member | source | states |
|---|---|---|
| Config.ConfigService.constructor | spotspot/services/config_service.py:10-13 | the object holds the attributes of both loaders |
| Config.ConfigService.Load | spotspot/services/config_service.py:10-13 | construction fails with the first loader's error (`get_vars` before `get_spotdl_vars`), in particular whenever `extra_logging` holds text `int` rejects; it succeeds exactly when both succeed, and the new object then holds both results |
| Config.GetVars | spotspot/services/config_service.py:15-79 | `get_vars` as written: the text attributes, the fixed formats, the system paths, and `search_limit` converted from `extra_logging` (its properties: `VarsText`, `SearchLimitRead`, `SystemPaths`, `SupportedFormatsFixed`) |
| Config.SearchLimitAsWritten | spotspot/services/config_service.py:78 | line 78 as written, `int` of `extra_logging` with default "10" (its property: `SearchLimitRead`, `SearchLimitCounterexample`) |
| Config.IntendedSearchLimit | spotspot/services/config_service.py:78 | the evidently intended line, `int` of `search_limit` with default "10" (its property: `IntendedSearchLimitReadsItsVariable`) |
| Config.Read | spotspot/services/config_service.py:84-295 | how one downloader option turns its variable's text into a value: raw text, `None` when unset, a switch, an `int`, or a split on "," (its properties: `ReadFails`, `IntegerRead`, `SwitchRead`, `ListRead`) |
| Config.GetSpotdlVars | spotspot/services/config_service.py:81-295 | `get_spotdl_vars`: every option read, failing with the first `int` error in source order (its property: `SpotdlVarsSpec`) |
| Config.ConfigKey | spotspot/services/config_service.py:298-369 | the `spotdl_config` key of each option (its property: `SpotdlConfigKeysAreVariables`) |
| Config.SpotdlConfigItem | spotspot/services/config_service.py:298-369 | the `spotdl_config` entry of each option: its key and the value read (its property: `SpotdlConfigKeysAreVariables`) |
| Config.VarsText | spotspot/services/config_service.py:27-70 | each text attribute of `get_vars` is `os.getenv` of its variable, with that attribute's default |
| Config.TextVarsFromEnvironment | spotspot/services/config_service.py:27-70 | a set variable, even one set to "", is taken unchanged; an unset one gives the default |
| Config.PlaylistVariables | spotspot/services/config_service.py:63-67 | the playlist name comes from `m3u_playlist_name` (default "spotify_singles"); the folder comes from `new_m3u_playlist_path` (default "/data/media/music/playlists") |
| Config.PlaylistPathVariableUnread | spotspot/services/config_service.py:66 | no attribute reads the variable `m3u_playlist_path` |
| Config.SyncFlagVariables | spotspot/services/config_service.py:39-61 | the three switches of the pass read their own variables and default to the text "True" |
| Config.DefaultSyncFlags | spotspot/services/config_service.py:39-61 | with nothing set, `get_vars` succeeds and all three switches hold the raw text "True", not a boolean |
| Config.SupportedFormatsFixed | spotspot/services/config_service.py:72 | `supported_formats` is the fixed seven-element set, whatever the environment |
| Config.SupportedFormatsLowercase | spotspot/services/config_service.py:72 | no supported format holds an upper-case letter |
| Config.SystemPaths | spotspot/services/config_service.py:21-24 | the config path and ffmpeg location are on drive D: when the system is "Windows", and the fixed Linux paths otherwise |
| Config.ParseTen | spotspot/services/config_service.py:78 | the default text "10" converts to 10 |
| Config.SearchLimitRead | spotspot/services/config_service.py:78 | `get_vars` fails exactly when `extra_logging` is set to text `int` rejects, its documented "False" included, with that text in the error; otherwise the limit is the value of `extra_logging`, or 10 when unset; setting `search_limit` changes neither outcome nor limit |
| Config.SearchLimitCounterexample | spotspot/services/config_service.py:78 | as written, `search_limit=25` is ignored (the limit is 10), and `extra_logging=False` makes the conversion raise |
| Config.IntendedSearchLimitReadsItsVariable | spotspot/services/config_service.py:78 | the corrected limit defaults to 10, reads back any number written to `search_limit`, and does not depend on `extra_logging` |
| Config.ReadFails | spotspot/services/config_service.py:81-295 | reading an option fails exactly for an integer option whose variable is set to text `int` rejects; the error holds that text (and the model's tag naming the variable) |
| Config.IntegerRead | spotspot/services/config_service.py:114 | an integer option reads back any number written as decimal text, and gives its fallback when unset |
| Config.SwitchRead | spotspot/services/config_service.py:93 | a switch is true exactly when its text is "true" in any mix of case |
| Config.ListRead | spotspot/services/config_service.py:144-147 | a list option's items, joined with ",", give back its text, and no item holds a "," |
| Config.FirstFailureSpec | spotspot/services/config_service.py:114-186 | there is no failure exactly when every setting reads; otherwise the failure is the error of the earliest setting that fails |
| Config.IntegerOptions | spotspot/services/config_service.py:114-186 | exactly `port`, `max_retries` and `threads` are integer conversions |
| Config.IntegerFallbacks | spotspot/services/config_service.py:114-186 | their fallbacks are 8800, 3 and 4 |
| Config.ListOptions | spotspot/services/config_service.py:144-147 | exactly `audio_providers` and `lyrics_providers` are split on "," |
| Config.ListDefaults | spotspot/services/config_service.py:144-147 | their defaults are "youtube-music" and "genius,azlyrics,musixmatch" |
| Config.AudioProvidersDefault | spotspot/services/config_service.py:144 | the default audio providers are the one-element list ["youtube-music"] |
| Config.LyricsProvidersDefault | spotspot/services/config_service.py:147 | the default lyrics providers are ["genius", "azlyrics", "musixmatch"] |
| Config.SwitchDefaults | spotspot/services/config_service.py:81-295 | every switch defaults to "True" or "False"; "True" exactly for `no_cache`, `filter_results` and `load_config` |
| Config.UnsetSwitches | spotspot/services/config_service.py:81-295 | an unset switch is true exactly for those three options |
| Config.SpotdlVarsSpec | spotspot/services/config_service.py:81-295 | `get_spotdl_vars` succeeds exactly when every option reads; each attribute is then its option's value; otherwise the error holds the text of the first failing conversion among port, max_retries, threads |
| Config.DefaultSpotdlVars | spotspot/services/config_service.py:81-295 | with nothing set, `get_spotdl_vars` succeeds |
| Config.SpotdlValueRead | spotspot/services/config_service.py:81-295 | every attribute of a successful `get_spotdl_vars` is what its option reads |
| Config.SpotdlConfigKeysAreVariables | spotspot/services/config_service.py:298-369 | `spotdl_config` stores every option except `restrict_mode`, under the name of the variable it reads |
| Config.GeniusTokenSpelling | spotspot/services/config_service.py:150 | the attribute is spelt `genious_token`; its variable and its `spotdl_config` key are `genius_token` |
| Strings.IsTrueCases | spotspot/services/config_service.py:93 | `.lower() == "true"` holds exactly for four-letter spellings of "true" in any case |
| Strings.SplitJoin | spotspot/services/config_service.py:144 | joining the pieces of a split gives the text back, and no piece holds the separator |
| Strings.JoinSplit | spotspot/services/config_service.py:144 | splitting pieces joined by a separator they do not hold gives the pieces back |
| Strings.SplitKeepsSpaces | spotspot/services/config_service.py:147 | split pieces are not trimmed: "genius, azlyrics" gives " azlyrics" |
| Strings.Lower | spotspot/services/playlist_manager.py:26 | `str.lower()` on ASCII letters (its properties: `LowerIsLower`, `LowerOfLowercase`) |
| Strings.LowerIsLower | spotspot/services/playlist_manager.py:26 | lowering leaves no upper-case letter and is idempotent |
| Strings.LowerOfLowercase | spotspot/services/config_service.py:72 | a string without upper-case letters is its own lower-case form |
| Strings.IsTrue | spotspot/services/playlist_manager.py:62 | the test `.lower() == "true"` (its property: `IsTrueCases`) |
| Strings.Split | spotspot/services/config_service.py:144 | `str.split(sep)` (its properties: `SplitJoin`, `JoinSplit`) |
| Strings.ParseInt | spotspot/services/config_service.py:114 | `int(text)` on decimal text, `None` where Python raises `ValueError` (its properties: `ParseShow`, `ParseIntAccepts`) |
| Strings.ParseShow | spotspot/services/config_service.py:114 | `int(str(n)) == n` for every integer |
| Strings.ParseIntAccepts | spotspot/services/config_service.py:114 | the texts that convert are an optional sign followed by at least one digit |
| Paths.Join | spotspot/services/playlist_manager.py:21 | `os.path.join` for two components (its properties: `JoinShape`, `BasenameOfJoin`, `JoinChars`) |
| Paths.JoinShape | spotspot/services/playlist_manager.py:27 | joining a bare name adds it after at most one "/" and keeps the prefix |
| Paths.BasenameOfJoin | spotspot/services/playlist_manager.py:21 | the file name can be read back from the joined path |
| Paths.JoinChars | spotspot/services/playlist_manager.py:27 | joining adds no character other than "/" |
| Files.FileStore.constructor | spotspot/services/playlist_manager.py:13-33 | the store starts in the given state |
| Files.FileStore.MakeDirs | spotspot/services/playlist_manager.py:19 | `os.makedirs(exist_ok=True)` raises when refused, on the empty path, or when a file is in the way; otherwise the directory exists afterwards |
| Files.MakeDirsIdempotent | spotspot/services/playlist_manager.py:19 | making an existing directory changes nothing |
| Files.FileStore.OpenForWriting | spotspot/services/playlist_manager.py:23 | `open(path, "w")` raises when refused or on a directory; otherwise the file exists and is empty |
| Files.FileStore.ListDir | spotspot/services/playlist_manager.py:24 | `os.listdir` gives the directory's entries, or raises when it has none to give |
| Files.FileStore.IsFile | spotspot/services/playlist_manager.py:26 | `os.path.isfile` is true exactly for regular files |
| Files.FileStore.Write | spotspot/services/playlist_manager.py:28 | `write` appends the text to the one open file |
| Files.AppendOnlyGrows | spotspot/services/playlist_manager.py:28 | appending keeps the old contents as a prefix and touches no other file |
| Playlists.Matches | spotspot/services/playlist_manager.py:26 | `any(name.endswith(ext.lower()) for ext in formats)` (its properties: `MatchesSupported`, `UpperCaseExtensionMissed`, `PlaylistNeverMatches`) |
| Playlists.Selected | spotspot/services/playlist_manager.py:24-28 | the listed names the loop writes, in listing order (its properties: `SelectedSpec`, `SelectedAll`) |
| Playlists.Generate | spotspot/services/playlist_manager.py:13-33 | the file system after `generate_m3u_playlist`, given which calls the system refuses (its properties: `GenerateFailures`, `GenerateFrame`, `GenerateContents`, `GenerateIdempotent`) |
| Playlists.SelectedSpec | spotspot/services/playlist_manager.py:24-28 | a listed name goes into the playlist exactly when it is a regular file in "/data" with a matching name |
| Playlists.SelectedAll | spotspot/services/playlist_manager.py:24-28 | a listing whose entries all qualify is taken whole, in listing order |
| Playlists.LinesSplit | spotspot/services/playlist_manager.py:28 | reading the playlist back line by line gives the entries in order, then the empty rest after the last newline |
| Playlists.LinesJoined | spotspot/services/playlist_manager.py:28 | the text is the entries joined by newlines with a final newline |
| Playlists.LinesAppend | spotspot/services/playlist_manager.py:28 | writing one more line adds it at the end of the text |
| Playlists.TextStep | spotspot/services/playlist_manager.py:24-28 | one more listed name adds its line exactly when it qualifies |
| Playlists.MatchesLowercaseFormats | spotspot/services/playlist_manager.py:26 | with lower-case formats, matching is plain suffix matching on the name as it is |
| Playlists.MatchesSupported | spotspot/services/playlist_manager.py:26 | for the seven supported formats, a name matches exactly when it ends in one of them, in its own case |
| Playlists.SupportedFormatsEndings | spotspot/services/playlist_manager.py:26 | every supported format has four or more characters and none ends in "u" |
| Playlists.PlaylistNeverMatches | spotspot/services/playlist_manager.py:21-26 | a name ending in ".m3u" never matches, so a playlist written into "/data" never lists itself |
| Playlists.LowerCaseExtensionMatches | spotspot/services/playlist_manager.py:26 | "track.flac" is chosen |
| Playlists.UpperCaseExtensionMissed | spotspot/services/playlist_manager.py:26 | "song.MP3" is not chosen, since only the extension is lower-cased |
| Playlists.UpperCaseBreaksSuffix | spotspot/services/playlist_manager.py:26 | a lower-case suffix cannot end a name whose last-but-one character is upper case |
| Playlists.GenerateFailures | spotspot/services/playlist_manager.py:13-33 | a refused `makedirs` changes nothing; a refused `open` leaves only the directory; a failed `listdir` leaves an empty playlist |
| Playlists.GenerateFrame | spotspot/services/playlist_manager.py:13-33 | only the playlist file and the playlist folder can change; every other file and listing is kept |
| Playlists.GenerateContents | spotspot/services/playlist_manager.py:21-28 | when every step succeeds, the playlist read back line by line is the chosen files joined to `relative_server_path`, in listing order |
| Playlists.GenerateOverwrites | spotspot/services/playlist_manager.py:23 | once the file opens, its earlier contents make no difference |
| Playlists.GenerateIdempotent | spotspot/services/playlist_manager.py:13-33 | generating twice leaves the same files as generating once |
| Playlists.PlaylistManager.constructor | spotspot/services/playlist_manager.py:10-11 | the manager keeps the configuration it is given, with nothing logged or sent |
| Playlists.PlaylistManager.GenerateM3uPlaylist | spotspot/services/playlist_manager.py:13-33 | the file system becomes `Generate` of the old one; the log gains "generating" and then the outcome; nothing is sent |
| Playlists.PlaylistManager.WriteEntries | spotspot/services/playlist_manager.py:24-28 | the loop writes one line per qualifying entry, in order, into the emptied playlist |
| Playlists.JellyfinUrlParts | spotspot/services/playlist_manager.py:49 | the refresh URL is the address, then "/Library/Refresh?api_key=", then the key, each readable back from its place |
| Playlists.JellyfinUrl | spotspot/services/playlist_manager.py:49 | the refresh URL (its property: `JellyfinUrlParts`) |
| Playlists.JellyfinLog | spotspot/services/playlist_manager.py:48-58 | what `refresh_jellyfin_library` logs for a reply (its property: `JellyfinOutcome`) |
| Playlists.PlexLog | spotspot/services/playlist_manager.py:37-44 | what `refresh_plex_library` logs: started with the section name, or an error |
| Playlists.JellyfinOutcome | spotspot/services/playlist_manager.py:46-58 | the refresh is logged as successful exactly on status 204, as failed with the status on any other status, and as an error when the request raises |
| Playlists.PlaylistManager.RefreshJellyfinLibrary | spotspot/services/playlist_manager.py:46-58 | one POST to the refresh URL, and the log that `JellyfinOutcome` describes |
| Playlists.PlaylistManager.RefreshPlexLibrary | spotspot/services/playlist_manager.py:35-44 | one update of the configured section, logged as started or as an error |
| Playlists.Plan | spotspot/services/playlist_manager.py:60-76 | the steps of one pass: the first round of refreshes, the playlist, the second round (its properties: `PlanSwitches`, `PlanCounts`, `PlanOrder`) |
| Playlists.Run | spotspot/services/playlist_manager.py:60-76 | the effect of a list of steps, one after the other (its properties: `RunAppend`, `RunEffects`) |
| Playlists.RunAppend | spotspot/services/playlist_manager.py:60-76 | running two lists of steps is running one after the other |
| Playlists.RunSnoc | spotspot/services/playlist_manager.py:60-76 | one more step applies its effect to the state so far |
| Playlists.RunEffects | spotspot/services/playlist_manager.py:60-76 | running steps sends their requests in order, and leaves the files as one generation would, however many times the steps generate |
| Playlists.PlanSwitches | spotspot/services/playlist_manager.py:60-76 | the playlist step, and each refresh in each round, happens exactly when its switch is "true" in any case |
| Playlists.PlanCounts | spotspot/services/playlist_manager.py:60-76 | an enabled refresh runs once in each round and a disabled one never; the playlist is written at most once |
| Playlists.RefreshCounts | spotspot/services/playlist_manager.py:62-65 | one round holds each enabled refresh of that round once, and no other step |
| Playlists.PlanOrder | spotspot/services/playlist_manager.py:60-76 | every first-round refresh comes before the playlist and every second-round one after it; within a round Jellyfin comes before Plex |
| Playlists.PlanAllOn | spotspot/services/playlist_manager.py:60-76 | with all three switches on, the pass is Jellyfin, Plex, playlist, Jellyfin, Plex |
| Playlists.DefaultPlan | spotspot/services/playlist_manager.py:60-76 | with nothing set in the environment, the pass is those five steps |
| Playlists.PlaylistManager.MediaServerRefreshCheck | spotspot/services/playlist_manager.py:60-76 | files, log and requests become `Run` of `Plan` on the old ones, each server call taking the reply of its own round |
| Playlists.PlaylistManager.RefreshRound | spotspot/services/playlist_manager.py:62-65 | one round of refreshes has the effect of `Run` of that round's steps |

## Left out

- Logging in `ConfigService` is not modelled. The pass's log lines are
  `Event` values without their message text, and without `response.text` in
  the Jellyfin failure line.
- `create_config_file` is not modelled: the JSON written to `config_path`,
  and the order of the dictionary's keys. The contents of `spotdl_config` are
  modelled by `ConfigKey` and `SpotdlConfigItem`.
- ConfigError: a failed `int` is tagged with the variable it read as well as
  the text. Python's `ValueError` carries only the text, so failures of
  `port` and `threads` on the same text are indistinguishable there.
- Python's `int()` also accepts surrounding whitespace, underscores between
  digits and non-ASCII digits. `ParseInt` rejects them.
- `str.lower()` is modelled for ASCII letters only.
- `requests.post` and the Plex client are not modelled. A `Servers` value
  gives, for each of the two rounds of a pass, the status Jellyfin answers,
  or `None` when the call raises, and whether the Plex update goes through.
- Connecting to Plex, looking up the section and starting the update are one
  outcome.
- Files.FileStore.MakeDirs: only the target directory is added. Intermediate
  directories are not, and refusals the state cannot explain (permissions, a
  file among the ancestors) are the `fails` flag. The empty path always
  raises, as `FileNotFoundError` does.
- Files.FileStore.OpenForWriting: refusals other than "is a directory" (a
  missing parent when the playlist name holds a "/", permissions) are the
  `fails` flag. A newly created file is not added to its directory's
  listing, since `os.listdir` order is not modelled. `PlaylistNeverMatches`
  shows that this cannot change the playlist.
- Files.FileStore.Write: a write that fails part-way is not modelled.
- `os.path.isfile` following symbolic links is not modelled; a regular file
  is a key of `files`.
- The services run on one thread here; concurrent runs are not modelled.

## Findings

| source | as written | input that shows it | evidently intended | confidence | as-written member | corrected member |
|---|---|---|---|---|---|---|
| spotspot/services/config_service.py:78 | `search_limit` converts the variable `extra_logging` | `search_limit=25` gives a limit of 10; `extra_logging=False` makes `int` raise, so no `ConfigService` is built | `int(os.getenv("search_limit", "10"))` | high, not executed | Config.SearchLimitCounterexample | Config.IntendedSearchLimitReadsItsVariable |

`Config.GetVars`, and through it `Config.ConfigService.Load`, follows the
line as written (`Config.SearchLimitAsWritten`, described by
`Config.SearchLimitRead`). The intended reading is
`Config.IntendedSearchLimit`.
