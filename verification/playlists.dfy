/**
 * The synchronisation pass of spotspot/services/playlist_manager.py.
 *
 * `PlaylistManager` writes an M3U playlist of the music files directly under
 * "/data" and asks Jellyfin and Plex to rescan their libraries. Its observable
 * effects are the file system, the requests it sends to the media servers and
 * the lines it logs; the servers' answers and the failures the operating system
 * reports are inputs. Every step catches every exception, so a failure ends
 * that step only, with an error logged.
 */
module Playlists {
  import opened Wrappers
  import opened Strings
  import opened Paths
  import opened Config
  import opened Files

  /** The folder whose immediate entries make up the playlist (playlist_manager.py:15). */
  const MediaRoot: string := "/data"

  /** What the Jellyfin address is followed by in the refresh URL (playlist_manager.py:49). */
  const JellyfinRefresh: string := "/Library/Refresh?api_key="

  /** The only status Jellyfin's refresh counts as success (playlist_manager.py:52). */
  const NoContent: int := 204

  // ---------------------------------------------------------------------------
  // Choosing the files (playlist_manager.py:24-28)
  // ---------------------------------------------------------------------------

  /** `any(name.endswith(ext.lower()) for ext in formats)`: the extension is lower-cased, the name is not. */
  predicate Matches(name: string, formats: set<string>)
  {
    exists ext :: ext in formats && EndsWith(name, Lower(ext))
  }

  /** An entry of "/data" goes into the playlist when it is a regular file with a matching name. */
  predicate Kept(s: FsState, formats: set<string>, name: string)
  {
    Join(MediaRoot, name) in s.files && Matches(name, formats)
  }

  /** The entries of a listing that go into the playlist, in listing order. */
  function Selected(s: FsState, formats: set<string>, names: seq<string>): (r: seq<string>)
    ensures |r| <= |names|
  {
    if names == [] then []
    else
      var last := names[|names| - 1];
      Selected(s, formats, names[..|names| - 1]) + (if Kept(s, formats, last) then [last] else [])
  }

  /** The line for each chosen file: `os.path.join(relative_server_path, name)`. */
  function Entries(relative: string, names: seq<string>): seq<string>
  {
    seq(|names|, k requires 0 <= k < |names| => Join(relative, names[k]))
  }

  /** The text of the playlist: every entry followed by a newline. */
  function Lines(entries: seq<string>): string
  {
    if entries == [] then "" else entries[0] + "\n" + Lines(entries[1..])
  }

  /** A listed name is chosen exactly when it is kept; nothing else is chosen. */
  lemma {:induction false} SelectedSpec(s: FsState, formats: set<string>, names: seq<string>)
    ensures forall n :: n in Selected(s, formats, names) <==> n in names && Kept(s, formats, n)
  {
    if names != [] {
      var init := names[..|names| - 1];
      SelectedSpec(s, formats, init);
      assert names == init + [names[|names| - 1]];
    }
  }

  /** A listing whose every entry is kept is taken whole, in its own order. */
  lemma {:induction false} SelectedAll(s: FsState, formats: set<string>, names: seq<string>)
    requires forall n :: n in names ==> Kept(s, formats, n)
    ensures Selected(s, formats, names) == names
  {
    if names != [] {
      var init := names[..|names| - 1];
      assert forall n :: n in init ==> n in names;
      SelectedAll(s, formats, init);
      assert names == init + [names[|names| - 1]];
    }
  }

  /** One more listed name: the choice grows by it exactly when it is kept. */
  lemma SelectedStep(s: FsState, formats: set<string>, names: seq<string>, i: nat)
    requires i < |names|
    ensures Selected(s, formats, names[..i + 1])
            == Selected(s, formats, names[..i]) + (if Kept(s, formats, names[i]) then [names[i]] else [])
  {
    assert names[..i + 1][..i] == names[..i];
  }

  lemma EntriesAppend(relative: string, names: seq<string>, name: string)
    ensures Entries(relative, names + [name]) == Entries(relative, names) + [Join(relative, name)]
  {
  }

  /** The text for one more listed name: its line is added exactly when it is kept. */
  lemma TextStep(s: FsState, formats: set<string>, relative: string, names: seq<string>, i: nat)
    requires i < |names|
    ensures Lines(Entries(relative, Selected(s, formats, names[..i + 1])))
            == Lines(Entries(relative, Selected(s, formats, names[..i])))
               + (if Kept(s, formats, names[i]) then Join(relative, names[i]) + "\n" else "")
  {
    SelectedStep(s, formats, names, i);
    var before := Selected(s, formats, names[..i]);
    if Kept(s, formats, names[i]) {
      EntriesAppend(relative, before, names[i]);
      LinesAppend(Entries(relative, before), Join(relative, names[i]));
    } else {
      assert Selected(s, formats, names[..i + 1]) == before;
      assert Lines(Entries(relative, before)) + "" == Lines(Entries(relative, before));
    }
  }

  /** Writing one more line adds it at the end of the text. */
  lemma {:induction false} LinesAppend(entries: seq<string>, e: string)
    ensures Lines(entries + [e]) == Lines(entries) + (e + "\n")
  {
    if entries != [] {
      assert (entries + [e])[1..] == entries[1..] + [e];
      LinesAppend(entries[1..], e);
    }
  }

  /** The text is the entries joined by newlines, with a final newline. */
  lemma {:induction false} LinesJoined(entries: seq<string>)
    ensures Lines(entries) == JoinWith(entries + [""], '\n')
  {
    if entries != [] {
      LinesJoined(entries[1..]);
      assert (entries + [""])[1..] == entries[1..] + [""];
    }
  }

  /** Reading the playlist back line by line gives the entries, then the empty rest after the last newline. */
  lemma LinesSplit(entries: seq<string>)
    requires NoSeparator(entries, '\n')
    ensures Split(Lines(entries), '\n') == entries + [""]
  {
    LinesJoined(entries);
    var parts := entries + [""];
    assert NoSeparator(parts, '\n') by {
      forall k | 0 <= k < |parts| ensures '\n' !in parts[k] {
        if k < |entries| { assert parts[k] == entries[k]; }
      }
    }
    JoinSplit(parts, '\n');
  }

  /** With lower-case extensions, matching is plain suffix matching on the name as it is. */
  lemma MatchesLowercaseFormats(name: string, formats: set<string>)
    requires forall ext, i :: ext in formats && 0 <= i < |ext| ==> !IsUpper(ext[i])
    ensures Matches(name, formats) <==> exists ext :: ext in formats && EndsWith(name, ext)
  {
    forall ext | ext in formats ensures Lower(ext) == ext {
      LowerOfLowercase(ext);
    }
  }

  /** For the fixed formats of `get_vars`, a name matches exactly when it ends in one of them, in its case. */
  lemma MatchesSupported(name: string)
    ensures Matches(name, SupportedFormats) <==> exists ext :: ext in SupportedFormats && EndsWith(name, ext)
  {
    forall ext, i | ext in SupportedFormats && 0 <= i < |ext| ensures !IsUpper(ext[i]) {
      SupportedFormatsLowercase(ext);
    }
    MatchesLowercaseFormats(name, SupportedFormats);
  }

  /** A file name ending in ".m3u" never matches, so a playlist kept in "/data" never lists itself. */
  lemma PlaylistNeverMatches(name: string)
    ensures !Matches(name + ".m3u", SupportedFormats)
  {
    MatchesSupported(name + ".m3u");
    var n := name + ".m3u";
    forall ext | ext in SupportedFormats ensures !EndsWith(n, ext) {
      SupportedFormatsEndings(ext);
    }
  }

  /** Every supported format has at least four characters and none ends in 'u'. */
  lemma SupportedFormatsEndings(ext: string)
    requires ext in SupportedFormats
    ensures |ext| >= 4 && ext[|ext| - 1] != 'u'
  {
  }

  /** A lower-case suffix of two or more characters cannot end a name whose last-but-one character is upper case. */
  lemma UpperCaseBreaksSuffix(name: string, ext: string)
    requires |ext| >= 2 && forall i :: 0 <= i < |ext| ==> !IsUpper(ext[i])
    requires |name| >= 2 && IsUpper(name[|name| - 2])
    ensures !EndsWith(name, ext)
  {
    if |ext| <= |name| {
      assert name[|name| - |ext|..][|ext| - 2] == name[|name| - 2];
    }
  }

  /** The name "track.flac" is chosen. */
  lemma LowerCaseExtensionMatches()
    ensures Matches("track.flac", SupportedFormats)
  {
    assert ".flac" in SupportedFormats;
    LowerOfLowercase(".flac");
    assert EndsWith("track.flac", ".flac");
  }

  /** The name "song.MP3" is not chosen, since the file name keeps its case. */
  lemma UpperCaseExtensionMissed()
    ensures !Matches("song.MP3", SupportedFormats)
  {
    var n := "song.MP3";
    MatchesSupported(n);
    assert IsUpper(n[|n| - 2]);
    forall ext | ext in SupportedFormats ensures !EndsWith(n, ext) {
      SupportedFormatsEndings(ext);
      SupportedFormatsLowercase(ext);
      UpperCaseBreaksSuffix(n, ext);
    }
  }

  // ---------------------------------------------------------------------------
  // generate_m3u_playlist (playlist_manager.py:13-33)
  // ---------------------------------------------------------------------------

  /** `os.path.join(m3u_playlist_path, f"{m3u_playlist_name}.m3u")` */
  function PlaylistPath(vars: Vars): string
  {
    Join(vars.text(M3uPlaylistPath), vars.text(M3uPlaylistName) + ".m3u")
  }

  /** Which of the two raising file-system calls the operating system refuses. */
  datatype Faults = Faults(makeDirs: bool, open: bool)

  /** The playlist text for the state right after the file was opened. */
  function PlaylistText(s: FsState, vars: Vars): string
    requires MediaRoot in s.listings
  {
    Lines(Entries(vars.text(RelativeServerPath), Selected(s, vars.supportedFormats, s.listings[MediaRoot])))
  }

  predicate DirsMade(s: FsState, vars: Vars, faults: Faults)
  {
    !faults.makeDirs && CanMakeDirs(s, vars.text(M3uPlaylistPath))
  }

  predicate FileOpened(s: FsState, vars: Vars, faults: Faults)
  {
    DirsMade(s, vars, faults) && !faults.open
    && CanOpen(MakeDirsOn(s, vars.text(M3uPlaylistPath)), PlaylistPath(vars))
  }

  /** The state in which the entries are read: directory made, playlist file emptied. */
  function Opened(s: FsState, vars: Vars): FsState
  {
    TruncateOn(MakeDirsOn(s, vars.text(M3uPlaylistPath)), PlaylistPath(vars))
  }

  /** Every step went through, so "generated" is logged. */
  predicate Generated(s: FsState, vars: Vars, faults: Faults)
  {
    FileOpened(s, vars, faults) && MediaRoot in Opened(s, vars).listings
  }

  /** The file system after `generate_m3u_playlist`. */
  function Generate(s: FsState, vars: Vars, faults: Faults): FsState
  {
    if !DirsMade(s, vars, faults) then s
    else if !FileOpened(s, vars, faults) then MakeDirsOn(s, vars.text(M3uPlaylistPath))
    else if !Generated(s, vars, faults) then Opened(s, vars)
    else
      var o := Opened(s, vars);
      o.(files := o.files[PlaylistPath(vars) := PlaylistText(o, vars)])
  }

  /** What `generate_m3u_playlist` logs. */
  datatype Event =
    | GeneratingPlaylist
    | PlaylistGenerated(path: string)
    | PlaylistError
    | GenerationStarted
    | RefreshingJellyfin
    | JellyfinRefreshed
    | JellyfinRefreshFailed(status: int)
    | JellyfinScanError
    | RefreshingPlex
    | PlexScanStarted(section: string)
    | PlexScanError

  function GenerateLog(s: FsState, vars: Vars, faults: Faults): seq<Event>
  {
    [GeneratingPlaylist] + (if Generated(s, vars, faults) then [PlaylistGenerated(PlaylistPath(vars))] else [PlaylistError])
  }

  /** A failed step leaves what the earlier steps did: nothing, the directory, or an empty playlist. */
  lemma GenerateFailures(s: FsState, vars: Vars, faults: Faults)
    ensures !DirsMade(s, vars, faults) ==> Generate(s, vars, faults) == s
    ensures DirsMade(s, vars, faults) ==> vars.text(M3uPlaylistPath) in Generate(s, vars, faults).dirs
    ensures DirsMade(s, vars, faults) && !FileOpened(s, vars, faults) ==> Generate(s, vars, faults).files == s.files
    ensures FileOpened(s, vars, faults) && !Generated(s, vars, faults) ==>
              Generate(s, vars, faults).files == s.files[PlaylistPath(vars) := ""]
  {
  }

  /** Only the playlist file and the playlist folder can change; no other file is touched. */
  lemma GenerateFrame(s: FsState, vars: Vars, faults: Faults)
    ensures Generate(s, vars, faults).files.Keys <= s.files.Keys + {PlaylistPath(vars)}
    ensures s.files.Keys <= Generate(s, vars, faults).files.Keys
    ensures forall q :: q in s.files && q != PlaylistPath(vars) ==> Generate(s, vars, faults).files[q] == s.files[q]
    ensures Generate(s, vars, faults).dirs <= s.dirs + {vars.text(M3uPlaylistPath)}
    ensures forall d :: d in s.listings ==> d in Generate(s, vars, faults).listings && Generate(s, vars, faults).listings[d] == s.listings[d]
  {
  }

  /**
   * When every step goes through, the playlist read back line by line is the
   * chosen files under `relative_server_path`, in listing order.
   */
  lemma GenerateContents(s: FsState, vars: Vars, faults: Faults)
    requires Generated(s, vars, faults)
    requires '\n' !in vars.text(RelativeServerPath)
    requires forall n :: MediaRoot in s.listings && n in s.listings[MediaRoot] ==> '\n' !in n
    ensures PlaylistPath(vars) in Generate(s, vars, faults).files
    ensures Split(Generate(s, vars, faults).files[PlaylistPath(vars)], '\n')
            == Entries(vars.text(RelativeServerPath), Selected(Opened(s, vars), vars.supportedFormats, Opened(s, vars).listings[MediaRoot])) + [""]
  {
    var o := Opened(s, vars);
    var rel := vars.text(RelativeServerPath);
    var names := o.listings[MediaRoot];
    assert forall n :: n in names ==> '\n' !in n;
    var chosen := Selected(o, vars.supportedFormats, names);
    SelectedSpec(o, vars.supportedFormats, names);
    var es := Entries(rel, chosen);
    assert NoSeparator(es, '\n') by {
      forall k | 0 <= k < |es| ensures '\n' !in es[k] {
        assert chosen[k] in chosen;
        JoinChars(rel, chosen[k], '\n');
      }
    }
    LinesSplit(es);
  }

  /** Once the file is open, whatever the playlist held before is overwritten with the same text. */
  lemma GenerateOverwrites(s: FsState, vars: Vars, faults: Faults, previous: string)
    requires FileOpened(s, vars, faults)
    ensures Generate(s.(files := s.files[PlaylistPath(vars) := previous]), vars, faults) == Generate(s, vars, faults)
  {
    var p := PlaylistPath(vars);
    var t := s.(files := s.files[p := previous]);
    assert t.files[p := ""] == s.files[p := ""];
    assert Opened(t, vars) == Opened(s, vars);
  }

  /** Generating twice gives the same files as generating once. */
  lemma GenerateIdempotent(s: FsState, vars: Vars, faults: Faults)
    ensures Generate(Generate(s, vars, faults), vars, faults) == Generate(s, vars, faults)
  {
    var g := Generate(s, vars, faults);
    var dir := vars.text(M3uPlaylistPath);
    var p := PlaylistPath(vars);
    if DirsMade(s, vars, faults) {
      MakeDirsIdempotent(s, dir);
      assert MakeDirsOn(g, dir) == g.(files := g.files) by {
        assert g.dirs == MakeDirsOn(s, dir).dirs && g.listings == MakeDirsOn(s, dir).listings;
      }
      if FileOpened(s, vars, faults) {
        assert Opened(g, vars) == Opened(s, vars);
      }
    }
  }

  // ---------------------------------------------------------------------------
  // refresh_jellyfin_library and refresh_plex_library (playlist_manager.py:35-58)
  // ---------------------------------------------------------------------------

  /** `f"{jellyfin_address}/Library/Refresh?api_key={jellyfin_api_key}"` */
  function JellyfinUrl(address: string, apiKey: string): string
  {
    address + JellyfinRefresh + apiKey
  }

  /** The URL is the address, the refresh path and the key, each readable back from its place. */
  lemma JellyfinUrlParts(address: string, apiKey: string)
    ensures JellyfinUrl(address, apiKey)[..|address|] == address
    ensures JellyfinUrl(address, apiKey)[|address|..|address| + |JellyfinRefresh|] == JellyfinRefresh
    ensures JellyfinUrl(address, apiKey)[|address| + |JellyfinRefresh|..] == apiKey
  {
  }

  /** A request sent to a media server. */
  datatype Request =
    | JellyfinPost(url: string)
    | PlexSectionUpdate(address: string, token: string, section: string)

  /** The POST `refresh_jellyfin_library` sends. */
  function JellyfinRequest(vars: Vars): Request
  {
    JellyfinPost(JellyfinUrl(vars.text(JellyfinAddress), vars.text(JellyfinApiKey)))
  }

  /** The section update `refresh_plex_library` asks for. */
  function PlexRequest(vars: Vars): Request
  {
    PlexSectionUpdate(vars.text(PlexAddress), vars.text(PlexToken), vars.text(PlexLibraryName))
  }

  /**
   * A pass calls each server twice, once before the playlist and once after
   * it; the two calls fare independently.
   */
  datatype Round = BeforePlaylist | AfterPlaylist

  /**
   * How the servers behave in each round: Jellyfin's status (`None` when
   * `requests.post` raises), and whether Plex's update goes through.
   */
  datatype Servers = Servers(jellyfin: Round -> Option<int>, plexUpdates: Round -> bool)

  function JellyfinLog(reply: Option<int>): seq<Event>
  {
    [RefreshingJellyfin] +
    match reply
    case None => [JellyfinScanError]
    case Some(status) => if status == NoContent then [JellyfinRefreshed] else [JellyfinRefreshFailed(status)]
  }

  /** Jellyfin's refresh is logged as successful exactly on status 204, as failed with the status on any other, and as an error when the call raises. */
  lemma JellyfinOutcome(reply: Option<int>)
    ensures JellyfinLog(reply)[0] == RefreshingJellyfin && |JellyfinLog(reply)| == 2
    ensures JellyfinLog(reply)[1] == JellyfinRefreshed <==> reply == Some(204)
    ensures JellyfinLog(reply)[1].JellyfinRefreshFailed? <==> reply.Some? && reply.value != 204
    ensures JellyfinLog(reply)[1].JellyfinRefreshFailed? ==> JellyfinLog(reply)[1].status == reply.value
    ensures JellyfinLog(reply)[1] == JellyfinScanError <==> reply.None?
  {
  }

  function PlexLog(vars: Vars, updates: bool): seq<Event>
  {
    [RefreshingPlex] + (if updates then [PlexScanStarted(vars.text(PlexLibraryName))] else [PlexScanError])
  }

  // ---------------------------------------------------------------------------
  // media_server_refresh_check (playlist_manager.py:60-76)
  // ---------------------------------------------------------------------------

  datatype Step = RefreshJellyfin(round: Round) | RefreshPlex(round: Round) | GeneratePlaylist

  /** The refreshes whose switch counts as true, Jellyfin first. */
  function Refreshes(vars: Vars, round: Round): seq<Step>
  {
    (if IsTrue(vars.text(TriggerJellyfinScan)) then [RefreshJellyfin(round)] else [])
    + (if IsTrue(vars.text(TriggerPlexScan)) then [RefreshPlex(round)] else [])
  }

  /** The steps of one pass: refreshes, the playlist, then the same refreshes again. */
  function Plan(vars: Vars): seq<Step>
  {
    Refreshes(vars, BeforePlaylist)
    + (if IsTrue(vars.text(GenerateM3uPlaylist)) then [GeneratePlaylist] else [])
    + Refreshes(vars, AfterPlaylist)
  }

  /** Everything a pass can be observed by. */
  datatype Trace = Trace(fs: FsState, log: seq<Event>, sent: seq<Request>)

  function JellyfinEffect(vars: Vars, reply: Option<int>, t: Trace): Trace
  {
    t.(log := t.log + JellyfinLog(reply),
       sent := t.sent + [JellyfinRequest(vars)])
  }

  function PlexEffect(vars: Vars, updates: bool, t: Trace): Trace
  {
    t.(log := t.log + PlexLog(vars, updates),
       sent := t.sent + [PlexRequest(vars)])
  }

  function GenerateEffect(vars: Vars, faults: Faults, t: Trace): Trace
  {
    Trace(Generate(t.fs, vars, faults), t.log + GenerateLog(t.fs, vars, faults), t.sent)
  }

  /** The effect of one step of the pass, given how the servers and the operating system behave. */
  function Perform(step: Step, vars: Vars, servers: Servers, faults: Faults, t: Trace): Trace
  {
    match step
    case RefreshJellyfin(round) => JellyfinEffect(vars, servers.jellyfin(round), t)
    case RefreshPlex(round) => PlexEffect(vars, servers.plexUpdates(round), t)
    case GeneratePlaylist => GenerateEffect(vars, faults, t.(log := t.log + [GenerationStarted]))
  }

  function Run(steps: seq<Step>, vars: Vars, servers: Servers, faults: Faults, t: Trace): Trace
  {
    if steps == [] then t else Run(steps[1..], vars, servers, faults, Perform(steps[0], vars, servers, faults, t))
  }

  /** The request a step sends; generating the playlist sends none. */
  function StepRequests(step: Step, vars: Vars): seq<Request>
  {
    match step
    case RefreshJellyfin(_) => [JellyfinRequest(vars)]
    case RefreshPlex(_) => [PlexRequest(vars)]
    case GeneratePlaylist => []
  }

  /** The requests a list of steps sends, in order. */
  function Requests(steps: seq<Step>, vars: Vars): seq<Request>
  {
    if steps == [] then [] else StepRequests(steps[0], vars) + Requests(steps[1..], vars)
  }

  lemma {:induction false} RunAppend(a: seq<Step>, b: seq<Step>, vars: Vars, servers: Servers, faults: Faults, t: Trace)
    ensures Run(a + b, vars, servers, faults, t) == Run(b, vars, servers, faults, Run(a, vars, servers, faults, t))
  {
    if a == [] {
      assert a + b == b;
    } else {
      var t1 := Perform(a[0], vars, servers, faults, t);
      assert (a + b)[0] == a[0];
      assert (a + b)[1..] == a[1..] + b;
      RunAppend(a[1..], b, vars, servers, faults, t1);
      assert Run(a + b, vars, servers, faults, t) == Run(a[1..] + b, vars, servers, faults, t1);
    }
  }

  lemma RunSnoc(steps: seq<Step>, step: Step, vars: Vars, servers: Servers, faults: Faults, t: Trace)
    ensures Run(steps + [step], vars, servers, faults, t) == Perform(step, vars, servers, faults, Run(steps, vars, servers, faults, t))
  {
    RunAppend(steps, [step], vars, servers, faults, t);
  }

  /**
   * Running steps sends their requests in order, and leaves the files as one
   * playlist generation would, however often the steps generate it.
   */
  lemma {:induction false} RunEffects(steps: seq<Step>, vars: Vars, servers: Servers, faults: Faults, t: Trace)
    ensures Run(steps, vars, servers, faults, t).sent == t.sent + Requests(steps, vars)
    ensures Run(steps, vars, servers, faults, t).fs == if GeneratePlaylist in steps then Generate(t.fs, vars, faults) else t.fs
  {
    if steps != [] {
      var t1 := Perform(steps[0], vars, servers, faults, t);
      RunEffects(steps[1..], vars, servers, faults, t1);
      assert GeneratePlaylist in steps <==> steps[0] == GeneratePlaylist || GeneratePlaylist in steps[1..] by {
        assert steps == [steps[0]] + steps[1..];
      }
      if steps[0] == GeneratePlaylist {
        GenerateIdempotent(t.fs, vars, faults);
      }
    }
  }

  /** The playlist is generated exactly when its switch is true, and each refresh runs in a round exactly when its own switch is. */
  lemma PlanSwitches(vars: Vars, round: Round)
    ensures GeneratePlaylist in Plan(vars) <==> IsTrue(vars.text(GenerateM3uPlaylist))
    ensures RefreshJellyfin(round) in Plan(vars) <==> IsTrue(vars.text(TriggerJellyfinScan))
    ensures RefreshPlex(round) in Plan(vars) <==> IsTrue(vars.text(TriggerPlexScan))
  {
  }

  /** Each enabled refresh runs once in each round; the playlist is written once at most. */
  lemma PlanCounts(vars: Vars, round: Round)
    ensures multiset(Plan(vars))[GeneratePlaylist] <= 1
    ensures multiset(Plan(vars))[RefreshJellyfin(round)] == if IsTrue(vars.text(TriggerJellyfinScan)) then 1 else 0
    ensures multiset(Plan(vars))[RefreshPlex(round)] == if IsTrue(vars.text(TriggerPlexScan)) then 1 else 0
  {
    var before, after := multiset(Refreshes(vars, BeforePlaylist)), multiset(Refreshes(vars, AfterPlaylist));
    var g := multiset(if IsTrue(vars.text(GenerateM3uPlaylist)) then [GeneratePlaylist] else []);
    assert multiset(Plan(vars)) == before + g + after;
    RefreshCounts(vars, BeforePlaylist, round);
    RefreshCounts(vars, AfterPlaylist, round);
    assert g[GeneratePlaylist] <= 1 && g[RefreshJellyfin(round)] == 0 && g[RefreshPlex(round)] == 0;
  }

  /** The refreshes of one round hold each enabled refresh of that round once, and nothing else. */
  lemma RefreshCounts(vars: Vars, r: Round, round: Round)
    ensures multiset(Refreshes(vars, r))[GeneratePlaylist] == 0
    ensures multiset(Refreshes(vars, r))[RefreshJellyfin(round)] ==
              if r == round && IsTrue(vars.text(TriggerJellyfinScan)) then 1 else 0
    ensures multiset(Refreshes(vars, r))[RefreshPlex(round)] ==
              if r == round && IsTrue(vars.text(TriggerPlexScan)) then 1 else 0
  {
  }

  /** Where a step falls in a pass: the first refreshes, the playlist, then the second refreshes. */
  function Phase(step: Step): nat
  {
    match step
    case GeneratePlaylist => 1
    case RefreshJellyfin(round) => if round == BeforePlaylist then 0 else 2
    case RefreshPlex(round) => if round == BeforePlaylist then 0 else 2
  }

  /**
   * A pass keeps to its phases, and within a round Jellyfin comes before Plex:
   * the playlist follows every first refresh and precedes every second one.
   */
  lemma PlanOrder(vars: Vars)
    ensures forall i, j :: 0 <= i < j < |Plan(vars)| ==> Phase(Plan(vars)[i]) <= Phase(Plan(vars)[j])
    ensures forall i, j :: 0 <= i < j < |Plan(vars)| && Plan(vars)[i].RefreshPlex? ==> !Plan(vars)[j].RefreshJellyfin? || Plan(vars)[j].round != Plan(vars)[i].round
  {
  }

  /** With all three switches on, a pass is the full five steps. */
  lemma PlanAllOn(vars: Vars)
    requires IsTrue(vars.text(TriggerJellyfinScan)) && IsTrue(vars.text(TriggerPlexScan))
    requires IsTrue(vars.text(GenerateM3uPlaylist))
    ensures Plan(vars) == [RefreshJellyfin(BeforePlaylist), RefreshPlex(BeforePlaylist), GeneratePlaylist,
                           RefreshJellyfin(AfterPlaylist), RefreshPlex(AfterPlaylist)]
  {
  }

  /** With no variable set, a pass refreshes Jellyfin and Plex, writes the playlist, then refreshes both again. */
  lemma DefaultPlan(osName: string)
    ensures GetVars(map[], osName).Ok?
    ensures Plan(GetVars(map[], osName).value) == [RefreshJellyfin(BeforePlaylist), RefreshPlex(BeforePlaylist), GeneratePlaylist,
                                                   RefreshJellyfin(AfterPlaylist), RefreshPlex(AfterPlaylist)]
  {
    DefaultSyncFlags(osName);
    IsTrueCases("True");
    PlanAllOn(GetVars(map[], osName).value);
  }

  /** The playlist manager holds the configuration, the file system and what it has logged and sent. */
  class PlaylistManager {
    const config: ConfigService
    const fs: FileStore
    var log: seq<Event>
    var sent: seq<Request>

    constructor (config: ConfigService, fs: FileStore)
      ensures this.config == config && this.fs == fs
      ensures log == [] && sent == []
    {
      this.config := config;
      this.fs := fs;
      log := [];
      sent := [];
    }

    function Current(): Trace
      reads this, fs
    {
      Trace(fs.State(), log, sent)
    }

    /** `generate_m3u_playlist` */
    method GenerateM3uPlaylist(faults: Faults)
      modifies this, fs
      ensures Current() == GenerateEffect(config.vars, faults, old(Current()))
    {
      var vars := config.vars;
      ghost var s := fs.State();
      log := log + [GeneratingPlaylist];
      var dir := vars.text(M3uPlaylistPath);
      var made := fs.MakeDirs(dir, faults.makeDirs);
      if !made {
        log := log + [PlaylistError];
        return;
      }
      var path := Join(dir, vars.text(M3uPlaylistName) + ".m3u");
      var isOpen := fs.OpenForWriting(path, faults.open);
      if !isOpen {
        log := log + [PlaylistError];
        return;
      }
      var listing := fs.ListDir(MediaRoot);
      if listing.None? {
        log := log + [PlaylistError];
        return;
      }
      WriteEntries(path, listing.value, vars.text(RelativeServerPath), vars.supportedFormats);
      log := log + [PlaylistGenerated(path)];
    }

    /** The loop of `generate_m3u_playlist`: one line for each listed regular file with a matching name. */
    method WriteEntries(path: string, names: seq<string>, relative: string, formats: set<string>)
      requires path in fs.files && fs.files[path] == ""
      modifies fs
      ensures fs.State() == old(fs.State()).(files := old(fs.files)[path := Lines(Entries(relative, Selected(old(fs.State()), formats, names)))])
    {
      ghost var o := fs.State();
      assert o.files[path := ""] == o.files;
      var i := 0;
      while i < |names|
        invariant 0 <= i <= |names|
        invariant fs.State() == o.(files := o.files[path := Lines(Entries(relative, Selected(o, formats, names[..i])))])
      {
        var name := names[i];
        TextStep(o, formats, relative, names, i);
        var isFile := fs.IsFile(Join(MediaRoot, name));
        assert isFile <==> Join(MediaRoot, name) in o.files;
        ghost var text := Lines(Entries(relative, Selected(o, formats, names[..i])));
        if isFile && Matches(name, formats) {
          fs.Write(path, Join(relative, name) + "\n");
          assert fs.files[path] == text + (Join(relative, name) + "\n");
        } else {
          assert text + "" == text;
        }
        i := i + 1;
      }
      assert names[..|names|] == names;
    }

    /** `refresh_jellyfin_library`: one POST, logged by its outcome. */
    method RefreshJellyfinLibrary(reply: Option<int>)
      modifies this
      ensures Current() == JellyfinEffect(config.vars, reply, old(Current()))
    {
      log := log + [RefreshingJellyfin];
      var url := config.vars.text(JellyfinAddress) + JellyfinRefresh + config.vars.text(JellyfinApiKey);
      sent := sent + [JellyfinPost(url)];
      match reply {
        case None =>
          log := log + [JellyfinScanError];
        case Some(status) =>
          if status == NoContent {
            log := log + [JellyfinRefreshed];
          } else {
            log := log + [JellyfinRefreshFailed(status)];
          }
      }
    }

    /** `refresh_plex_library`: one section update, reported as started or as an error. */
    method RefreshPlexLibrary(updates: bool)
      modifies this
      ensures Current() == PlexEffect(config.vars, updates, old(Current()))
    {
      log := log + [RefreshingPlex];
      var vars := config.vars;
      sent := sent + [PlexSectionUpdate(vars.text(PlexAddress), vars.text(PlexToken), vars.text(PlexLibraryName))];
      if updates {
        log := log + [PlexScanStarted(vars.text(PlexLibraryName))];
      } else {
        log := log + [PlexScanError];
      }
    }

    /** `media_server_refresh_check`: the steps of `Plan`, in order. */
    method MediaServerRefreshCheck(servers: Servers, faults: Faults)
      modifies this, fs
      ensures Current() == Run(Plan(config.vars), config.vars, servers, faults, old(Current()))
    {
      var vars := config.vars;
      ghost var start := Current();
      RefreshRound(BeforePlaylist, servers, faults);
      ghost var done := Refreshes(vars, BeforePlaylist);
      if IsTrue(vars.text(Var.GenerateM3uPlaylist)) {
        log := log + [GenerationStarted];
        GenerateM3uPlaylist(faults);
        RunSnoc(done, GeneratePlaylist, vars, servers, faults, start);
        done := done + [GeneratePlaylist];
      }
      RefreshRound(AfterPlaylist, servers, faults);
      RunAppend(done, Refreshes(vars, AfterPlaylist), vars, servers, faults, start);
    }

    /** One round of refreshes: Jellyfin, then Plex, each when its switch is on. */
    method RefreshRound(round: Round, servers: Servers, faults: Faults)
      modifies this
      ensures Current() == Run(Refreshes(config.vars, round), config.vars, servers, faults, old(Current()))
    {
      var vars := config.vars;
      ghost var start := Current();
      ghost var done: seq<Step> := [];
      if IsTrue(vars.text(TriggerJellyfinScan)) {
        RefreshJellyfinLibrary(servers.jellyfin(round));
        RunSnoc(done, RefreshJellyfin(round), vars, servers, faults, start);
        done := done + [RefreshJellyfin(round)];
      }
      if IsTrue(vars.text(TriggerPlexScan)) {
        RefreshPlexLibrary(servers.plexUpdates(round));
        RunSnoc(done, RefreshPlex(round), vars, servers, faults, start);
        done := done + [RefreshPlex(round)];
      }
    }
  }
}
