/**
 * The accounting of DownloadWorkshopItems in steamcmd_manager.go: one batch run of the
 * SteamCMD tool for all requested workshop items, then, for each item the tool reports as
 * downloaded, a remove-then-copy from the tool's content directory into the install directory.
 *
 * The tool run and the filesystem are inputs: what the tool wrote on its standard output and
 * how the run ended, and the outcome of each stat, remove and copy.
 */
module SteamCmdManager {
  import opened Wrappers
  import opened Types
  import Strconv
  import FilePath
  import opened Seqs

  const LoginArgs: seq<string> := ["+login", "anonymous"]
  const DownloadCommand := "+workshop_download_item"
  const ValidateArg := "validate"
  const QuitArg := "+quit"

  /** How the tool run went: it could not be started, or it ran and wrote these stdout lines. */
  datatype ToolRun =
    | LaunchFailed
    | Ran(stdout: seq<string>, readFailed: bool, exitFailed: bool)

  /** os.Stat of a source directory. */
  datatype StatResult = Exists | NotExist | StatFailed

  /** os.RemoveAll of a target directory: removed, nothing there, or another error. */
  datatype RemoveResult = Removed | Absent | RemoveFailed

  /** The outcomes of the filesystem calls, per path; copy is copyDir(source, target). */
  datatype FsOracle = FsOracle(
    stat: string -> StatResult,
    remove: string -> RemoveResult,
    copy: (string, string) -> bool)

  /** The fatal errors: the tool could not be run, or its output could not be read. */
  datatype FetchError = ToolLaunchError | OutputReadError

  /** The ids whose content is in place, by kind, in unspecified order. */
  datatype Fetched = Fetched(playlistIDs: seq<string>, modIDs: seq<string>)

  // ---------------------------------------------------------------------------------------
  // The batch command
  // ---------------------------------------------------------------------------------------

  /** One download command of four arguments per id, in order. */
  function DownloadCommands(ids: seq<string>, appID: string): (r: seq<string>)
    ensures |r| == 4 * |ids|
  {
    if ids == [] then [] else DownloadCommands(ids[..|ids| - 1], appID) + [DownloadCommand, appID, ids[|ids| - 1], ValidateArg]
  }

  /** The k-th group of four arguments downloads the k-th id. */
  lemma {:induction false} DownloadCommandsAt(ids: seq<string>, appID: string)
    ensures forall k :: 0 <= k < |ids| ==>
      DownloadCommands(ids, appID)[4 * k..4 * k + 4] == [DownloadCommand, appID, ids[k], ValidateArg]
  {
    if ids != [] {
      var n := |ids| - 1;
      var init := DownloadCommands(ids[..n], appID);
      var r := DownloadCommands(ids, appID);
      DownloadCommandsAt(ids[..n], appID);
      forall k | 0 <= k < |ids|
        ensures r[4 * k..4 * k + 4] == [DownloadCommand, appID, ids[k], ValidateArg]
      {
        if k < n {
          assert r[4 * k..4 * k + 4] == init[4 * k..4 * k + 4];
        }
      }
    }
  }

  /** The tool's arguments: log in anonymously, download every playlist then every mod, quit. */
  function BatchArgs(playlistIDs: seq<string>, modIDs: seq<string>, appID: string): seq<string> {
    LoginArgs + DownloadCommands(playlistIDs + modIDs, appID) + [QuitArg]
  }

  /** The kind map: every requested id, a mod when it is among the mods (the later write wins). */
  function Kinds(playlistIDs: seq<string>, modIDs: seq<string>): map<string, ItemKind> {
    if modIDs != [] then Kinds(playlistIDs, modIDs[..|modIDs| - 1])[modIDs[|modIDs| - 1] := Mod]
    else if playlistIDs != [] then Kinds(playlistIDs[..|playlistIDs| - 1], [])[playlistIDs[|playlistIDs| - 1] := Playlist]
    else map[]
  }

  lemma DownloadCommandsSnoc(ids: seq<string>, x: string, appID: string)
    ensures DownloadCommands(ids + [x], appID) == DownloadCommands(ids, appID) + [DownloadCommand, appID, x, ValidateArg]
  {
    assert (ids + [x])[..|ids|] == ids;
  }

  lemma KindsSnocPlaylist(playlistIDs: seq<string>, x: string)
    ensures Kinds(playlistIDs + [x], []) == Kinds(playlistIDs, [])[x := Playlist]
  {
    assert (playlistIDs + [x])[..|playlistIDs|] == playlistIDs;
  }

  lemma KindsSnocMod(playlistIDs: seq<string>, modIDs: seq<string>, x: string)
    ensures Kinds(playlistIDs, modIDs + [x]) == Kinds(playlistIDs, modIDs)[x := Mod]
  {
    assert (modIDs + [x])[..|modIDs|] == modIDs;
  }

  /** The loop over the playlist ids: a download command each, recorded as playlists. */
  method AddPlaylistDownloads(playlistIDs: seq<string>, appID: string)
    returns (cmds: seq<string>, allItems: map<string, ItemKind>)
    ensures cmds == DownloadCommands(playlistIDs, appID)
    ensures allItems == Kinds(playlistIDs, [])
  {
    cmds := [];
    allItems := map[];
    ghost var done: seq<string> := [];
    var k := 0;
    while k < |playlistIDs|
      invariant 0 <= k <= |playlistIDs| && done == playlistIDs[..k]
      invariant cmds == DownloadCommands(done, appID)
      invariant allItems == Kinds(done, [])
    {
      DownloadCommandsSnoc(done, playlistIDs[k], appID);
      KindsSnocPlaylist(done, playlistIDs[k]);
      cmds := cmds + [DownloadCommand, appID, playlistIDs[k], ValidateArg];
      allItems := allItems[playlistIDs[k] := Playlist];
      TakeOneMore(playlistIDs, k);
      done := done + [playlistIDs[k]];
      k := k + 1;
    }
    assert done == playlistIDs;
  }

  /** The loop over the mod ids: a download command each after the playlists', recorded as mods. */
  method AddModDownloads(cmds: seq<string>, allItems: map<string, ItemKind>, playlistIDs: seq<string>,
                         modIDs: seq<string>, appID: string)
    returns (cmds': seq<string>, allItems': map<string, ItemKind>)
    requires cmds == DownloadCommands(playlistIDs, appID) && allItems == Kinds(playlistIDs, [])
    ensures cmds' == DownloadCommands(playlistIDs + modIDs, appID)
    ensures allItems' == Kinds(playlistIDs, modIDs)
  {
    cmds', allItems' := cmds, allItems;
    ghost var done: seq<string> := [];
    assert playlistIDs + done == playlistIDs;
    var k := 0;
    while k < |modIDs|
      invariant 0 <= k <= |modIDs| && done == modIDs[..k]
      invariant cmds' == DownloadCommands(playlistIDs + done, appID)
      invariant allItems' == Kinds(playlistIDs, done)
    {
      DownloadCommandsSnoc(playlistIDs + done, modIDs[k], appID);
      KindsSnocMod(playlistIDs, done, modIDs[k]);
      cmds' := cmds' + [DownloadCommand, appID, modIDs[k], ValidateArg];
      allItems' := allItems'[modIDs[k] := Mod];
      TakeOneMore(modIDs, k);
      assert playlistIDs + (done + [modIDs[k]]) == (playlistIDs + done) + [modIDs[k]];
      done := done + [modIDs[k]];
      k := k + 1;
    }
    assert done == modIDs;
  }

  /** The argument and kind-map loops, before the tool is started. */
  method BuildBatch(playlistIDs: seq<string>, modIDs: seq<string>, appID: string)
    returns (args: seq<string>, allItems: map<string, ItemKind>)
    ensures args == BatchArgs(playlistIDs, modIDs, appID)
    ensures allItems == Kinds(playlistIDs, modIDs)
  {
    var cmds;
    cmds, allItems := AddPlaylistDownloads(playlistIDs, appID);
    cmds, allItems := AddModDownloads(cmds, allItems, playlistIDs, modIDs, appID);
    args := LoginArgs + cmds + [QuitArg];
  }

  /** The argument list has 3 + 4 (n + m) entries: login, one command per id in request order, quit. */
  lemma BatchArgsShape(playlistIDs: seq<string>, modIDs: seq<string>, appID: string)
    ensures var args, ids := BatchArgs(playlistIDs, modIDs, appID), playlistIDs + modIDs;
      && |args| == 3 + 4 * (|playlistIDs| + |modIDs|)
      && args[..2] == LoginArgs && args[|args| - 1] == QuitArg
      && forall k :: 0 <= k < |ids| ==> args[2 + 4 * k..6 + 4 * k] == [DownloadCommand, appID, ids[k], ValidateArg]
  {
    var ids := playlistIDs + modIDs;
    var d := DownloadCommands(ids, appID);
    var args := BatchArgs(playlistIDs, modIDs, appID);
    DownloadCommandsAt(ids, appID);
    forall k | 0 <= k < |ids|
      ensures args[2 + 4 * k..6 + 4 * k] == [DownloadCommand, appID, ids[k], ValidateArg]
    {
      assert args[2 + 4 * k..6 + 4 * k] == d[4 * k..4 * k + 4];
    }
  }

  /**
   * Every requested id is classified and nothing else; an id is a mod exactly when it is among
   * the requested mods, so an id requested as both is a mod.
   */
  lemma {:induction false} KindsClassify(playlistIDs: seq<string>, modIDs: seq<string>, id: string)
    ensures id in Kinds(playlistIDs, modIDs) <==> id in playlistIDs || id in modIDs
    ensures id in Kinds(playlistIDs, modIDs) ==> (Kinds(playlistIDs, modIDs)[id] == Mod <==> id in modIDs)
    decreases |playlistIDs| + |modIDs|
  {
    if modIDs != [] {
      var init := modIDs[..|modIDs| - 1];
      KindsClassify(playlistIDs, init, id);
      assert modIDs == init + [modIDs[|modIDs| - 1]];
    } else if playlistIDs != [] {
      var init := playlistIDs[..|playlistIDs| - 1];
      KindsClassify(init, [], id);
      assert playlistIDs == init + [playlistIDs[|playlistIDs| - 1]];
    }
  }

  // ---------------------------------------------------------------------------------------
  // The success marker
  // ---------------------------------------------------------------------------------------

  const MarkerWord := "Success"
  const MarkerText := " Downloaded item "
  /** The length of "Success. Downloaded item ", where the captured digits start. */
  const MarkerLength := 25

  /** The pattern `Success. Downloaded item (\d+)` matches at index i ('.' is any character but a newline). */
  predicate MatchesAt(line: string, i: int) {
    0 <= i && i + MarkerLength < |line|
    && line[i..i + 7] == MarkerWord && line[i + 7] != '\n'
    && line[i + 8..i + MarkerLength] == MarkerText
    && Strconv.IsDigit(line[i + MarkerLength])
  }

  /** The longest run of digits starting at index k. */
  function DigitRun(line: string, k: nat): (r: string)
    requires k <= |line|
    ensures k + |r| <= |line| && r == line[k..k + |r|] && Strconv.AllDigits(r)
    ensures k + |r| == |line| || !Strconv.IsDigit(line[k + |r|])
    decreases |line| - k
  {
    if k < |line| && Strconv.IsDigit(line[k]) then [line[k]] + DigitRun(line, k + 1) else []
  }

  /** The leftmost match at or after index i, and its capture. */
  function MatchFrom(line: string, i: nat): (r: Option<string>)
    ensures r.Some? ==> |r.value| > 0 && Strconv.AllDigits(r.value)
    decreases |line| - i
  {
    if i + MarkerLength >= |line| then None
    else if MatchesAt(line, i) then Some(DigitRun(line, i + MarkerLength))
    else MatchFrom(line, i + 1)
  }

  /** FindStringSubmatch's capture group for one stdout line, if the line has the marker. */
  function MarkerId(line: string): Option<string> {
    MatchFrom(line, 0)
  }

  /** The marker search finds a match exactly when the pattern matches somewhere from i on. */
  lemma {:induction false} MatchFromFound(line: string, i: nat)
    ensures MatchFrom(line, i).Some? <==> exists j :: i <= j && MatchesAt(line, j)
    decreases |line| - i
  {
    if i + MarkerLength >= |line| {
      assert MatchFrom(line, i) == None;
      assert forall j :: i <= j ==> !MatchesAt(line, j);
    } else if !MatchesAt(line, i) {
      MatchFromFound(line, i + 1);
      assert MatchFrom(line, i) == MatchFrom(line, i + 1);
      assert (exists j :: i <= j && MatchesAt(line, j)) <==> (exists j :: i + 1 <= j && MatchesAt(line, j));
    }
  }

  /** The match found is the leftmost one, and its capture is every digit that follows it. */
  lemma {:induction false} MatchFromLeftmost(line: string, i: nat)
    ensures MatchFrom(line, i).Some? ==> exists j :: (i <= j && MatchesAt(line, j)
      && (forall j' :: i <= j' < j ==> !MatchesAt(line, j'))
      && MatchFrom(line, i).value == DigitRun(line, j + MarkerLength))
    decreases |line| - i
  {
    if i + MarkerLength < |line| {
      if MatchesAt(line, i) {
        var r := MatchFrom(line, i);
        assert r == Some(DigitRun(line, i + MarkerLength));
        assert i <= i && MatchesAt(line, i) && (forall j' :: i <= j' < i ==> !MatchesAt(line, j'))
          && r.value == DigitRun(line, i + MarkerLength);
      } else {
        MatchFromLeftmost(line, i + 1);
        assert MatchFrom(line, i) == MatchFrom(line, i + 1);
        if MatchFrom(line, i).Some? {
          var j :| i + 1 <= j && MatchesAt(line, j)
            && (forall j' :: i + 1 <= j' < j ==> !MatchesAt(line, j'))
            && MatchFrom(line, i + 1).value == DigitRun(line, j + MarkerLength);
          assert forall j' :: i <= j' < j ==> !MatchesAt(line, j');
          assert i <= j && MatchesAt(line, j) && (forall j' :: i <= j' < j ==> !MatchesAt(line, j'))
            && MatchFrom(line, i).value == DigitRun(line, j + MarkerLength);
        }
      }
    }
  }

  /** A line's marker id is the capture of the leftmost match, all of its digits. */
  lemma MarkerIdLeftmost(line: string)
    ensures MarkerId(line).Some? <==> exists j :: 0 <= j && MatchesAt(line, j)
    ensures MarkerId(line).Some? ==> exists j :: (0 <= j && MatchesAt(line, j)
      && (forall j' :: 0 <= j' < j ==> !MatchesAt(line, j'))
      && MarkerId(line).value == DigitRun(line, j + MarkerLength))
  {
    MatchFromFound(line, 0);
    MatchFromLeftmost(line, 0);
  }

  /** The ids the tool reported as downloaded. */
  function Reported(lines: seq<string>): set<string> {
    set l | l in lines && MarkerId(l).Some? :: MarkerId(l).value
  }

  /**
   * Reporting an id again changes nothing: further lines, identical or not, whose markers name
   * ids already recorded leave the recorded set as it was.
   */
  lemma ReportedIgnoresRepeats(lines: seq<string>, more: seq<string>)
    requires forall l :: l in more && MarkerId(l).Some? ==> MarkerId(l).value in Reported(lines)
    ensures Reported(lines + more) == Reported(lines)
  {
    forall id | id in Reported(lines + more)
      ensures id in Reported(lines)
    {
      var l :| l in lines + more && MarkerId(l).Some? && MarkerId(l).value == id;
      if l in more {
        assert id in Reported(lines);
      }
    }
  }

  /** The stdout scanning loop: the set of captured ids. */
  method ScanToolOutput(lines: seq<string>) returns (downloaded: set<string>)
    ensures downloaded == Reported(lines)
  {
    downloaded := {};
    var i := 0;
    while i < |lines|
      invariant 0 <= i <= |lines|
      invariant downloaded == Reported(lines[..i])
    {
      assert lines[..i + 1] == lines[..i] + [lines[i]];
      var matches := MarkerId(lines[i]);
      if matches.Some? {
        if matches.value !in downloaded {
          downloaded := downloaded + {matches.value};
        }
      }
      i := i + 1;
    }
    assert lines[..i] == lines;
  }

  // ---------------------------------------------------------------------------------------
  // Paths and the copy step
  // ---------------------------------------------------------------------------------------

  /** The tool's default download directory for the game. */
  function ContentBase(steamCmdPath: string, appID: string): string {
    FilePath.Join([FilePath.Dir(steamCmdPath), "steamapps", "workshop", "content", appID])
  }

  /** Where an item's content is copied from: a playlist's playlist sub-directory, a mod's whole directory. */
  function SourcePath(base: string, id: string, kind: ItemKind): string {
    if kind == Playlist then FilePath.Join([base, id, "playlist"]) else FilePath.Join([base, id])
  }

  /** Where an item's content is copied to: a directory named by the id in the kind's install directory. */
  function TargetPath(id: string, kind: ItemKind, playlistDir: string, modDir: string): string {
    FilePath.Join([if kind == Playlist then playlistDir else modDir, id])
  }

  /** The remove-then-copy of one reported item went through. */
  predicate Materialized(fs: FsOracle, id: string, kind: ItemKind, base: string, playlistDir: string, modDir: string) {
    var src, dst := SourcePath(base, id, kind), TargetPath(id, kind, playlistDir, modDir);
    fs.stat(src) == Exists && fs.remove(dst) != RemoveFailed && fs.copy(src, dst)
  }

  /** The ids of one kind that were requested, reported by the tool and copied into place. */
  function SucceededOfKind(kinds: map<string, ItemKind>, reported: set<string>, kind: ItemKind, fs: FsOracle,
                           base: string, playlistDir: string, modDir: string): set<string> {
    set id | id in reported && id in kinds && kinds[id] == kind && Materialized(fs, id, kind, base, playlistDir, modDir)
  }

  /** The ids that were requested, reported and copied, whatever their kind. */
  function Succeeded(kinds: map<string, ItemKind>, reported: set<string>, fs: FsOracle,
                     base: string, playlistDir: string, modDir: string): set<string> {
    set id | id in reported && id in kinds && Materialized(fs, id, kinds[id], base, playlistDir, modDir)
  }

  /** The remove-and-copy loop over the reported ids (the finalSuccessMap). */
  method CopyReported(reported: set<string>, allItems: map<string, ItemKind>, fs: FsOracle,
                      base: string, playlistDir: string, modDir: string) returns (finalSuccess: set<string>)
    ensures finalSuccess == Succeeded(allItems, reported, fs, base, playlistDir, modDir)
  {
    finalSuccess := {};
    var rest := reported;
    while rest != {}
      invariant rest <= reported
      invariant finalSuccess == Succeeded(allItems, reported - rest, fs, base, playlistDir, modDir)
      decreases rest
    {
      assert exists x :: x in rest by {
        if forall x :: x !in rest {
          assert false;
        }
      }
      var id :| id in rest;
      rest := rest - {id};
      if id !in allItems {
        continue;
      }
      var itemType := allItems[id];
      var sourcePath := SourcePath(base, id, itemType);
      var targetPath := TargetPath(id, itemType, playlistDir, modDir);
      if fs.stat(sourcePath) != Exists {
        continue;
      }
      var removeErr := fs.remove(targetPath);
      if removeErr == RemoveFailed {
        continue;
      }
      var copied := fs.copy(sourcePath, targetPath);
      if !copied {
        continue;
      }
      finalSuccess := finalSuccess + {id};
    }
  }

  /** The partition loop over the final successes, in unspecified (map) order. */
  method Partition(finalSuccess: set<string>, allItems: map<string, ItemKind>)
    returns (playlists: seq<string>, mods: seq<string>)
    ensures forall id :: id in playlists <==> id in finalSuccess && id in allItems && allItems[id] == Playlist
    ensures forall id :: id in mods <==> id in finalSuccess && id in allItems && allItems[id] == Mod
    ensures forall i, j :: 0 <= i < j < |playlists| ==> playlists[i] != playlists[j]
    ensures forall i, j :: 0 <= i < j < |mods| ==> mods[i] != mods[j]
  {
    playlists, mods := [], [];
    var rest := finalSuccess;
    while rest != {}
      invariant rest <= finalSuccess
      invariant forall id :: id in playlists <==> id in finalSuccess - rest && id in allItems && allItems[id] == Playlist
      invariant forall id :: id in mods <==> id in finalSuccess - rest && id in allItems && allItems[id] == Mod
      invariant forall i, j :: 0 <= i < j < |playlists| ==> playlists[i] != playlists[j]
      invariant forall i, j :: 0 <= i < j < |mods| ==> mods[i] != mods[j]
      decreases rest
    {
      assert exists x :: x in rest by {
        if forall x :: x !in rest {
          assert false;
        }
      }
      var id :| id in rest;
      rest := rest - {id};
      if id in allItems {
        if allItems[id] == Playlist {
          playlists := playlists + [id];
        } else {
          mods := mods + [id];
        }
      }
    }
  }

  /**
   * DownloadWorkshopItems: nothing to do for two empty lists; otherwise one tool run with the
   * batch arguments, a fatal error when the tool cannot be started or its output cannot be
   * read, and otherwise the requested, reported and copied ids by kind. A non-zero exit of
   * the tool does not stop the accounting.
   */
  method DownloadWorkshopItems(playlistIDs: seq<string>, modIDs: seq<string>, playlistDir: string, modDir: string,
                               gameAppID: string, steamCmdPath: string, run: ToolRun, fs: FsOracle)
    returns (r: Result<Fetched, FetchError>, invocation: Option<seq<string>>)
    ensures playlistIDs == [] && modIDs == [] ==> r == Ok(Fetched([], [])) && invocation == None
    ensures playlistIDs != [] || modIDs != [] ==> invocation == Some(BatchArgs(playlistIDs, modIDs, gameAppID))
    ensures r.Err? <==> (playlistIDs != [] || modIDs != []) && (run.LaunchFailed? || run.readFailed)
    ensures r.Err? ==> r.error == if run.LaunchFailed? then ToolLaunchError else OutputReadError
    ensures r.Ok? ==> var base := ContentBase(steamCmdPath, gameAppID);
      && (forall id :: id in r.value.playlistIDs <==> run.Ran? && id in SucceededOfKind(
            Kinds(playlistIDs, modIDs), Reported(run.stdout), Playlist, fs, base, playlistDir, modDir))
      && (forall id :: id in r.value.modIDs <==> run.Ran? && id in SucceededOfKind(
            Kinds(playlistIDs, modIDs), Reported(run.stdout), Mod, fs, base, playlistDir, modDir))
      && (forall i, j :: 0 <= i < j < |r.value.playlistIDs| ==> r.value.playlistIDs[i] != r.value.playlistIDs[j])
      && (forall i, j :: 0 <= i < j < |r.value.modIDs| ==> r.value.modIDs[i] != r.value.modIDs[j])
  {
    if |playlistIDs| == 0 && |modIDs| == 0 {
      return Ok(Fetched([], [])), None;
    }
    var args, allItems := BuildBatch(playlistIDs, modIDs, gameAppID);
    invocation := Some(args);
    if run.LaunchFailed? {
      return Err(ToolLaunchError), invocation;
    }
    if run.readFailed {
      return Err(OutputReadError), invocation;
    }
    var downloadSuccess := ScanToolOutput(run.stdout);
    var steamCmdContentBase := ContentBase(steamCmdPath, gameAppID);
    var finalSuccess := CopyReported(downloadSuccess, allItems, fs, steamCmdContentBase, playlistDir, modDir);
    var successfulPlaylistIDs, successfulModIDs := Partition(finalSuccess, allItems);
    r := Ok(Fetched(successfulPlaylistIDs, successfulModIDs));
  }

  /**
   * The two results are disjoint; the playlist results were requested as playlists and not as
   * mods, the mod results were requested as mods, and together they are the successful ids.
   */
  lemma ResultsPartition(playlistIDs: seq<string>, modIDs: seq<string>, reported: set<string>, fs: FsOracle,
                         base: string, playlistDir: string, modDir: string)
    ensures var kinds := Kinds(playlistIDs, modIDs);
      var ps := SucceededOfKind(kinds, reported, Playlist, fs, base, playlistDir, modDir);
      var ms := SucceededOfKind(kinds, reported, Mod, fs, base, playlistDir, modDir);
      && ps !! ms
      && (forall id :: id in ps ==> id in playlistIDs && id !in modIDs)
      && (forall id :: id in ms ==> id in modIDs)
      && ps + ms == Succeeded(kinds, reported, fs, base, playlistDir, modDir)
  {
    var kinds := Kinds(playlistIDs, modIDs);
    forall id | id in kinds
      ensures id in playlistIDs || id in modIDs
      ensures kinds[id] == Mod <==> id in modIDs
    {
      KindsClassify(playlistIDs, modIDs, id);
    }
  }

  /** An id counts as fetched exactly when it was requested, reported by the tool, found, cleared and copied. */
  lemma SucceededIff(playlistIDs: seq<string>, modIDs: seq<string>, reported: set<string>, fs: FsOracle,
                     base: string, playlistDir: string, modDir: string, id: string)
    ensures var kind := if id in modIDs then Mod else Playlist;
      var src, dst := SourcePath(base, id, kind), TargetPath(id, kind, playlistDir, modDir);
      id in Succeeded(Kinds(playlistIDs, modIDs), reported, fs, base, playlistDir, modDir)
      <==> id in reported && (id in playlistIDs || id in modIDs)
           && fs.stat(src) == Exists && fs.remove(dst) != RemoveFailed && fs.copy(src, dst)
  {
    KindsClassify(playlistIDs, modIDs, id);
  }

  /** The content base is the tool's directory followed by steamapps/workshop/content/ and the app id. */
  lemma ContentBaseShape(steamCmdPath: string, appID: string)
    requires appID != ""
    ensures ContentBase(steamCmdPath, appID)
      == FilePath.Dir(steamCmdPath) + [FilePath.Separator] + "steamapps" + [FilePath.Separator] + "workshop"
         + [FilePath.Separator] + "content" + [FilePath.Separator] + appID
  {
    var d := FilePath.Dir(steamCmdPath);
    FilePath.JoinTwo(d, "steamapps");
    assert [d, "steamapps", "workshop"] == [d, "steamapps"] + ["workshop"];
    FilePath.JoinSnoc([d, "steamapps"], "workshop");
    assert [d, "steamapps", "workshop", "content"] == [d, "steamapps", "workshop"] + ["content"];
    FilePath.JoinSnoc([d, "steamapps", "workshop"], "content");
    assert [d, "steamapps", "workshop", "content", appID] == [d, "steamapps", "workshop", "content"] + [appID];
    FilePath.JoinSnoc([d, "steamapps", "workshop", "content"], appID);
  }

  /**
   * A playlist is copied from base/id/playlist to playlistDir/id, a mod from base/id to
   * modDir/id.
   */
  lemma CopyPathsShape(base: string, id: string, playlistDir: string, modDir: string)
    requires base != "" && id != "" && playlistDir != "" && modDir != ""
    ensures SourcePath(base, id, Playlist) == base + "/" + id + "/playlist"
    ensures SourcePath(base, id, Mod) == base + "/" + id
    ensures TargetPath(id, Playlist, playlistDir, modDir) == playlistDir + "/" + id
    ensures TargetPath(id, Mod, playlistDir, modDir) == modDir + "/" + id
  {
    FilePath.JoinThree(base, id, "playlist");
    FilePath.JoinTwo(base, id);
    FilePath.JoinTwo(playlistDir, id);
    FilePath.JoinTwo(modDir, id);
    assert [FilePath.Separator] + "playlist" == "/playlist";
  }
}
