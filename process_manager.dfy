/**
 * process_manager.go: the registry of running game servers (name -> pid and port), the start
 * workflow with its compensation steps, stopping, and the crash watcher's restart decision.
 *
 * Processes, the file system and the socket are not modelled directly. A spawn is a
 * SpawnOutcome parameter. The saved configuration files are a map from server name to
 * document. Every message sent to the controller is appended to `sent`. A stop and one watcher
 * wake-up are one method call each on the Supervisor. A start is one call, or its two halves
 * StartPrepare and StartCommit when another step runs between them.
 */
module ProcessManager {
  import opened Wrappers
  import opened XmlTokens
  import opened Types
  import Config
  import FilePath
  import Strconv
  import PortManager
  import ConfigManager
  import XmlManager
  import SteamCmdManager

  // ---------------------------------------------------------------------------------------------
  // calculateFailedIDs
  // ---------------------------------------------------------------------------------------------

  /** The ids that succeeded in either list: a success of either kind counts for both. */
  ghost function Successes(playlistIDs: seq<string>, modIDs: seq<string>): set<string> {
    set id | id in playlistIDs + modIDs
  }

  /** The requested ids that did not succeed, in request order and with repeats. */
  function Unsuccessful(ids: seq<string>, ok: set<string>): (r: seq<string>)
    ensures forall id :: id in r <==> id in ids && id !in ok
  {
    if ids == [] then []
    else
      var init := Unsuccessful(ids[..|ids| - 1], ok);
      var id := ids[|ids| - 1];
      assert ids == ids[..|ids| - 1] + [id];
      if id in ok then init else init + [id]
  }

  /** Filtering a concatenation filters each part. */
  lemma {:induction false} UnsuccessfulConcat(a: seq<string>, b: seq<string>, ok: set<string>)
    ensures Unsuccessful(a + b, ok) == Unsuccessful(a, ok) + Unsuccessful(b, ok)
    decreases |b|
  {
    if b == [] {
      assert a + b == a;
    } else {
      var b0 := b[..|b| - 1];
      assert (a + b)[..|a + b| - 1] == a + b0;
      UnsuccessfulConcat(a, b0, ok);
    }
  }

  /** Every failed id occurs as often as it was requested; a successful one does not occur. */
  lemma {:induction false} UnsuccessfulCounts(ids: seq<string>, ok: set<string>, id: string)
    ensures multiset(Unsuccessful(ids, ok))[id] == if id in ok then 0 else multiset(ids)[id]
    decreases |ids|
  {
    if ids != [] {
      var init := ids[..|ids| - 1];
      assert ids == init + [ids[|ids| - 1]];
      UnsuccessfulCounts(init, ok, id);
    }
  }

  /** When nothing succeeded (the download was skipped or failed), every requested id failed. */
  lemma {:induction false} NothingSucceededAllFail(ids: seq<string>)
    ensures Unsuccessful(ids, {}) == ids
    decreases |ids|
  {
    if ids != [] {
      NothingSucceededAllFail(ids[..|ids| - 1]);
      assert ids == ids[..|ids| - 1] + [ids[|ids| - 1]];
    }
  }

  /**
   * calculateFailedIDs: a success table filled from both success lists, then the requested
   * playlists followed by the requested mods that are not in it.
   */
  method CalculateFailedIDs(requestedPlaylists: seq<string>, requestedMods: seq<string>,
                            successfulPlaylists: seq<string>, successfulMods: seq<string>)
    returns (failedIDs: seq<string>)
    ensures failedIDs == Unsuccessful(requestedPlaylists + requestedMods, Successes(successfulPlaylists, successfulMods))
  {
    ghost var ok := Successes(successfulPlaylists, successfulMods);
    failedIDs := [];
    var successMap: map<string, bool> := map[];
    for i := 0 to |successfulPlaylists|
      invariant forall id :: id in successMap <==> id in successfulPlaylists[..i]
      invariant forall id :: id in successMap ==> successMap[id]
    {
      assert successfulPlaylists[..i + 1] == successfulPlaylists[..i] + [successfulPlaylists[i]];
      successMap := successMap[successfulPlaylists[i] := true];
    }
    assert successfulPlaylists[..|successfulPlaylists|] == successfulPlaylists;
    for i := 0 to |successfulMods|
      invariant forall id :: id in successMap <==> id in successfulPlaylists || id in successfulMods[..i]
      invariant forall id :: id in successMap ==> successMap[id]
    {
      assert successfulMods[..i + 1] == successfulMods[..i] + [successfulMods[i]];
      successMap := successMap[successfulMods[i] := true];
    }
    assert successfulMods[..|successfulMods|] == successfulMods;
    assert forall id :: (id in successMap && successMap[id]) <==> id in ok;
    for i := 0 to |requestedPlaylists|
      invariant failedIDs == Unsuccessful(requestedPlaylists[..i], ok)
    {
      var id := requestedPlaylists[i];
      assert requestedPlaylists[..i + 1][..i] == requestedPlaylists[..i];
      if !(id in successMap && successMap[id]) {
        failedIDs := failedIDs + [id];
      }
    }
    assert requestedPlaylists[..|requestedPlaylists|] == requestedPlaylists;
    ghost var front := failedIDs;
    for i := 0 to |requestedMods|
      invariant failedIDs == front + Unsuccessful(requestedMods[..i], ok)
    {
      var id := requestedMods[i];
      assert requestedMods[..i + 1][..i] == requestedMods[..i];
      if !(id in successMap && successMap[id]) {
        failedIDs := failedIDs + [id];
      }
    }
    assert requestedMods[..|requestedMods|] == requestedMods;
    UnsuccessfulConcat(requestedPlaylists, requestedMods, ok);
  }

  // ---------------------------------------------------------------------------------------------
  // getEventType and the stop confirmation gate
  // ---------------------------------------------------------------------------------------------

  /** getEventType: the EventType field of the two event structs, "unknown" for anything else. */
  function GetEventType(payload: EventPayload): (t: string)
    ensures payload.OtherPayload? ==> t == "unknown"
    ensures payload.CrashDetected? ==> t == payload.crash.eventType
    ensures payload.RestartResult? ==> t == payload.restart.eventType
  {
    match payload
    case CrashDetected(crash) => crash.eventType
    case RestartResult(restart) => restart.eventType
    case OtherPayload => "unknown"
  }

  /** The crash event the watcher sends; a clean exit gives an empty error text. */
  function CrashEvent(name: string, pid: int, exitError: Option<string>): Message {
    ServerEvent(CrashDetected(CrashDetectedPayload(
      CrashDetectedEventType, name, pid, if exitError.Some? then exitError.value else "")))
  }

  /** The restart-result event the watcher sends after its one restart attempt. */
  function RestartEvent(name: string, success: bool): Message {
    ServerEvent(RestartResult(RestartResultPayload(RestartResultEventType, name, success)))
  }

  /** The watcher's two events name their own kind and the server they are about. */
  lemma WatcherEventTypes(name: string, pid: int, exitError: Option<string>, success: bool)
    ensures GetEventType(CrashEvent(name, pid, exitError).payload) == CrashDetectedEventType
    ensures GetEventType(RestartEvent(name, success).payload) == RestartResultEventType
    ensures CrashEvent(name, pid, exitError).payload.crash.serverName == name
    ensures RestartEvent(name, success).payload.restart.serverName == name
    ensures GetEventType(CrashEvent(name, pid, exitError).payload) != GetEventType(RestartEvent(name, success).payload)
  {
  }

  /** The player count the stop handler checks; it is a fixed placeholder. */
  const DummyPlayerCount := 0

  /** The stop confirmation gate: an unconfirmed stop with players online asks for confirmation. */
  function ConfirmationGate(confirmed: bool, players: int): (r: Option<Response>)
    ensures r.Some? <==> !confirmed && players > 0
    ensures r.Some? ==> !r.value.success && r.value.needsConfirmation && r.value.players == players
  {
    if !confirmed && players > 0 then Some(Response(false, PlayersConnected, [], 0, [], true, players))
    else None
  }

  /** With the placeholder count the gate never asks, whatever the confirmed flag says. */
  lemma GateNeverFires(confirmed: bool)
    ensures ConfirmationGate(confirmed, DummyPlayerCount) == None
  {
  }

  // ---------------------------------------------------------------------------------------------
  // The registry
  // ---------------------------------------------------------------------------------------------

  /** RunningProcessInfo: the process, identified by its pid, and the port it was given. */
  datatype ProcessInfo = ProcessInfo(pid: int, port: int)

  /** A watcher to start: the name, pid and port waitForProcessExit is called with. */
  datatype Watch = Watch(name: string, pid: int, port: int)

  /** What startServerProcess did: a started process with its pid, or an error. */
  datatype SpawnOutcome = Spawned(pid: int) | NotSpawned

  /** The ports the registered processes hold. */
  ghost function PortsOf(procs: map<string, ProcessInfo>): set<int> {
    set name | name in procs :: procs[name].port
  }

  /** No two registered processes hold the same port. */
  ghost predicate PortsDistinct(procs: map<string, ProcessInfo>) {
    forall a, b :: a in procs && b in procs && a != b ==> procs[a].port != procs[b].port
  }

  /** Removing a registration gives back exactly its port. */
  lemma PortsOfRemove(procs: map<string, ProcessInfo>, name: string)
    requires PortsDistinct(procs)
    ensures PortsDistinct(procs - {name})
    ensures name in procs ==> PortsOf(procs - {name}) == PortsOf(procs) - {procs[name].port}
    ensures name !in procs ==> PortsOf(procs - {name}) == PortsOf(procs)
  {
    if name in procs {
      var rest := procs - {name};
      forall p | p in PortsOf(procs) - {procs[name].port}
        ensures p in PortsOf(rest)
      {
        var n :| n in procs && procs[n].port == p;
        assert n in rest;
      }
    } else {
      assert procs - {name} == procs;
    }
  }

  /** Registering an unregistered name on an unheld port adds exactly that port. */
  lemma PortsOfAdd(procs: map<string, ProcessInfo>, name: string, info: ProcessInfo)
    requires PortsDistinct(procs)
    requires name !in procs && info.port !in PortsOf(procs)
    ensures PortsDistinct(procs[name := info])
    ensures PortsOf(procs[name := info]) == PortsOf(procs) + {info.port}
  {
    var next := procs[name := info];
    forall p | p in PortsOf(procs) + {info.port}
      ensures p in PortsOf(next)
    {
      if p == info.port {
        assert next[name].port == p;
      } else {
        var n :| n in procs && procs[n].port == p;
        assert n in next && next[n] == procs[n];
      }
    }
  }

  /** The status names sent while workshop items are fetched. */
  const DownloadStartStatus := "workshop_download_start"
  const DownloadErrorStatus := "workshop_download_error"
  const DownloadCompleteStatus := "workshop_download_complete"

  /** The configuration directory, relative to the working directory, after filepath.Clean. */
  const ConfigBaseDir := "config"

  /** filepath.Abs(filepath.Join(configBaseDir, name)) for a working directory. */
  function ConfigDirAbs(cwd: string, name: string): string {
    FilePath.Join([cwd, ConfigBaseDir, name])
  }

  /** The ids of one kind that the download reports as fetched, or none when it failed. */
  ghost function Downloaded(playlistIDs: seq<string>, modIDs: seq<string>, settings: Config.ServerConfig,
                            run: SteamCmdManager.ToolRun, fs: SteamCmdManager.FsOracle, kind: ItemKind): set<string>
  {
    if run.LaunchFailed? || run.readFailed then {}
    else
      SteamCmdManager.SucceededOfKind(
        SteamCmdManager.Kinds(playlistIDs, modIDs), SteamCmdManager.Reported(run.stdout), kind, fs,
        SteamCmdManager.ContentBase(settings.steamCmdPath, settings.gameAppID),
        settings.playlistsInstallDir, settings.modsInstallDir)
  }

  /** The status updates of one download: start, an error notice if it failed, completion. */
  function DownloadStatuses(run: SteamCmdManager.ToolRun): seq<Message> {
    [StatusUpdate(DownloadStartStatus)]
    + (if run.LaunchFailed? || run.readFailed then [StatusUpdate(DownloadErrorStatus)] else [])
    + [StatusUpdate(DownloadCompleteStatus)]
  }

  /**
   * The response to a stop of a registered server, given what reading its document back from
   * disk gave: success either way, with the document when it was read and none when it was not.
   */
  function StopResponse(readBack: Option<seq<Token>>): (r: Response)
    ensures r.success && r.assignedPort == 0 && r.failedItemIDs == [] && !r.needsConfirmation
    ensures r.reason == Stopped <==> readBack.Some?
    ensures r.reason == StoppedConfigUnreadable <==> readBack.None?
    ensures readBack.Some? ==> r.config == readBack.value
    ensures readBack.None? ==> r.config == []
  {
    match readBack
    case Some(doc) => Response(true, Stopped, doc, 0, [], false, 0)
    case None => Response(true, StoppedConfigUnreadable, [], 0, [], false, 0)
  }

  /** sendStartSuccessResponse: success with the port and the failed item ids. */
  function StartedResponse(port: int, failedItemIDs: seq<string>): Response {
    Response(true, Started, [], port, failedItemIDs, false, 0)
  }

  /**
   * What the first half of a start leaves for the second: the port found, the saved document,
   * the ids fetched and the ids that failed.
   */
  datatype Prepared = Prepared(
    name: string,
    port: int,
    config: seq<Token>,
    playlistIDs: seq<string>,
    modIDs: seq<string>,
    failedItemIDs: seq<string>)

  /**
   * The supervisor's state: the port allocator, runningProcs, the saved configuration
   * documents and the messages sent so far.
   */
  class Supervisor {
    const settings: Config.ServerConfig
    const ports: PortManager.PortAllocator
    var runningProcs: map<string, ProcessInfo>
    var configFiles: map<string, seq<Token>>
    var sent: seq<Message>

    /** The ports claimed but not held by a registered process. */
    ghost function Reserved(): set<int>
      reads this, ports
    {
      ports.usedPorts - PortsOf(runningProcs)
    }

    /** Every registered port is claimed, and no two registrations share one. */
    ghost predicate Consistent()
      reads this, ports
    {
      && ports.Valid()
      && PortsDistinct(runningProcs)
      && PortsOf(runningProcs) <= ports.usedPorts
      && 0 <= ports.MinPort
    }

    /** Between handler steps the claimed ports are exactly the registered ones. */
    ghost predicate Valid()
      reads this, ports
    {
      Consistent() && Reserved() == {}
    }

    /** InitializeProcessManager: an empty registry and a fresh allocator over the configured range. */
    constructor (settings: Config.ServerConfig, files: map<string, seq<Token>>)
      requires Config.LowestPort <= settings.minPort
      ensures Valid()
      ensures this.settings == settings && fresh(ports)
      ensures ports.MinPort == settings.minPort && ports.MaxPort == settings.maxPort && ports.usedPorts == {}
      ensures runningProcs == map[] && configFiles == files && sent == []
    {
      this.settings := settings;
      ports := new PortManager.PortAllocator(settings.minPort, settings.maxPort);
      runningProcs := map[];
      configFiles := files;
      sent := [];
    }

    /**
     * stopExistingProcess: a registered name is removed and its port released; an unregistered
     * name changes nothing.
     */
    method StopExistingProcess(name: string)
      requires Consistent()
      modifies this, ports
      ensures Consistent() && Reserved() == old(Reserved())
      ensures runningProcs == old(runningProcs) - {name}
      ensures name in old(runningProcs) ==> ports.usedPorts == old(ports.usedPorts) - {old(runningProcs)[name].port}
      ensures name !in old(runningProcs) ==> ports.usedPorts == old(ports.usedPorts)
      ensures configFiles == old(configFiles) && sent == old(sent)
    {
      PortsOfRemove(runningProcs, name);
      if name in runningProcs {
        var existing := runningProcs[name];
        runningProcs := runningProcs - {name};
        // A registered port lies in the range, which starts at a non-negative port, so it is never -1.
        if existing.port != -1 {
          ports.ReleasePort(existing.port);
        }
      }
    }

    /**
     * handleStopServerProcess: an unregistered name gets a failure response and nothing changes;
     * a registered one is removed, its port released, and the reply succeeds with the document
     * read back from disk (readBack), or without one when that read failed. The directory is
     * removed last.
     */
    method HandleStopServerProcess(name: string, confirmed: bool, readBack: Option<seq<Token>>)
      requires Valid()
      modifies this, ports
      ensures Valid()
      ensures runningProcs == old(runningProcs) - {name}
      ensures name !in old(runningProcs) ==>
        && ports.usedPorts == old(ports.usedPorts)
        && configFiles == old(configFiles)
        && sent == old(sent) + [Reply(Failure(NotRunning))]
      ensures name in old(runningProcs) ==>
        && ports.usedPorts == old(ports.usedPorts) - {old(runningProcs)[name].port}
        && configFiles == old(configFiles) - {name}
        && sent == old(sent) + [Reply(StopResponse(readBack))]
    {
      var gate := ConfirmationGate(confirmed, DummyPlayerCount);
      if gate.Some? {
        // The player count is the constant 0, so no confirmation is ever requested.
        assert false;
      }
      if name !in runningProcs {
        sent := sent + [Reply(Failure(NotRunning))];
        return;
      }
      StopExistingProcess(name);
      var response := StopResponse(readBack);
      sent := sent + [Reply(response)];
      configFiles := configFiles - {name};
    }

    /**
     * waitForProcessExit, after the process has exited: only when the registry still maps the
     * name to the same pid is it a crash. The entry is then removed, a crash event is sent and one
     * restart is tried on the same port: a new process is registered and watched, or the port is
     * released. A restart-result event follows. Otherwise nothing changes and nothing is sent.
     */
    method WaitForProcessExit(name: string, pid: int, assignedPort: int, exitError: Option<string>, restart: SpawnOutcome)
      returns (watch: Option<Watch>)
      requires Valid()
      requires name in runningProcs && runningProcs[name].pid == pid ==> runningProcs[name].port == assignedPort
      modifies this, ports
      ensures Valid()
      ensures configFiles == old(configFiles)
      ensures !(name in old(runningProcs) && old(runningProcs)[name].pid == pid) ==>
        && runningProcs == old(runningProcs)
        && ports.usedPorts == old(ports.usedPorts)
        && sent == old(sent)
        && watch == None
      ensures name in old(runningProcs) && old(runningProcs)[name].pid == pid ==>
        sent == old(sent) + [CrashEvent(name, pid, exitError), RestartEvent(name, restart.Spawned?)]
      ensures name in old(runningProcs) && old(runningProcs)[name].pid == pid && restart.Spawned? ==>
        && runningProcs == old(runningProcs)[name := ProcessInfo(restart.pid, assignedPort)]
        && ports.usedPorts == old(ports.usedPorts)
        && watch == Some(Watch(name, restart.pid, assignedPort))
      ensures name in old(runningProcs) && old(runningProcs)[name].pid == pid && restart.NotSpawned? ==>
        && runningProcs == old(runningProcs) - {name}
        && ports.usedPorts == old(ports.usedPorts) - {assignedPort}
        && watch == None
    {
      var shouldRestart := false;
      if name in runningProcs && runningProcs[name].pid == pid {
        PortsOfRemove(runningProcs, name);
        runningProcs := runningProcs - {name};
        shouldRestart := true;
      } else if name in runningProcs && runningProcs[name].pid != pid {
        shouldRestart := false;
      } else {
        shouldRestart := false;
      }
      watch := None;
      if shouldRestart {
        sent := sent + [CrashEvent(name, pid, exitError)];
        var restartSuccess := false;
        match restart {
          case Spawned(newPid) =>
            restartSuccess := true;
            PortsOfAdd(runningProcs, name, ProcessInfo(newPid, assignedPort));
            runningProcs := runningProcs[name := ProcessInfo(newPid, assignedPort)];
            watch := Some(Watch(name, newPid, assignedPort));
          case NotSpawned =>
            restartSuccess := false;
            ports.ReleasePort(assignedPort);
        }
        sent := sent + [RestartEvent(name, restartSuccess)];
      }
    }

    /**
     * The download block of handleStartServerProcess: status updates around one batch download,
     * then the failed ids. A download error leaves both success lists empty.
     */
    method FetchWorkshopItems(playlistIDs: seq<string>, modIDs: seq<string>,
                              run: SteamCmdManager.ToolRun, fs: SteamCmdManager.FsOracle)
      returns (okPlaylists: seq<string>, okMods: seq<string>, failedItemIDs: seq<string>)
      requires playlistIDs != [] || modIDs != []
      modifies this`sent
      ensures sent == old(sent) + DownloadStatuses(run)
      ensures forall id :: id in okPlaylists <==> id in Downloaded(playlistIDs, modIDs, settings, run, fs, Playlist)
      ensures forall id :: id in okMods <==> id in Downloaded(playlistIDs, modIDs, settings, run, fs, Mod)
      ensures failedItemIDs == Unsuccessful(playlistIDs + modIDs,
        Downloaded(playlistIDs, modIDs, settings, run, fs, Playlist) + Downloaded(playlistIDs, modIDs, settings, run, fs, Mod))
    {
      sent := sent + [StatusUpdate(DownloadStartStatus)];
      var fetched, invocation := SteamCmdManager.DownloadWorkshopItems(
        playlistIDs, modIDs, settings.playlistsInstallDir, settings.modsInstallDir,
        settings.gameAppID, settings.steamCmdPath, run, fs);
      okPlaylists, okMods := [], [];
      if fetched.Err? {
        sent := sent + [StatusUpdate(DownloadErrorStatus)];
      } else {
        okPlaylists, okMods := fetched.value.playlistIDs, fetched.value.modIDs;
      }
      failedItemIDs := CalculateFailedIDs(playlistIDs, modIDs, okPlaylists, okMods);
      assert Successes(okPlaylists, okMods)
          == Downloaded(playlistIDs, modIDs, settings, run, fs, Playlist) + Downloaded(playlistIDs, modIDs, settings, run, fs, Mod);
      sent := sent + [StatusUpdate(DownloadCompleteStatus)];
    }

    /**
     * The outcome of the steps after the port rewrite, from the ids taken out of the document
     * (ex): with workshop items, the download statuses, then a failure if the configuration
     * directory cannot be resolved; the save; and on success the document with the paths of the
     * fetched items, and the failed ids.
     */
    ghost predicate PreparedFrom(sent0: seq<Message>, files0: map<string, seq<Token>>, name: string, port: int,
                                 ex: XmlManager.Extraction, run: SteamCmdManager.ToolRun, fs: SteamCmdManager.FsOracle,
                                 cwd: Option<string>, saved: bool, r: Result<Prepared, Reason>)
      reads this
    {
      var requested := ex.playlistIDs != [] || ex.modIDs != [];
      var statuses := if requested then DownloadStatuses(run) else [];
      && (requested && cwd.None? ==>
            && r == Err(ConfigDirUnresolved)
            && sent == sent0 + statuses + [Reply(Failure(ConfigDirUnresolved))]
            && configFiles == files0)
      && (!(requested && cwd.None?) && !saved ==>
            && r == Err(SaveFailed)
            && sent == sent0 + statuses + [Reply(Failure(SaveFailed))]
            && configFiles == files0)
      && (!(requested && cwd.None?) && saved ==>
            && r.Ok? && r.value.name == name && r.value.port == port
            && sent == sent0 + statuses
            && configFiles == files0[name := r.value.config])
      && (r.Ok? && !requested ==>
            && r.value.config == ex.doc
            && r.value.playlistIDs == [] && r.value.modIDs == [] && r.value.failedItemIDs == [])
      && (r.Ok? && requested ==>
            var fetchedPlaylists := Downloaded(ex.playlistIDs, ex.modIDs, settings, run, fs, Playlist);
            var fetchedMods := Downloaded(ex.playlistIDs, ex.modIDs, settings, run, fs, Mod);
            && (forall id :: id in r.value.playlistIDs <==> id in fetchedPlaylists)
            && (forall id :: id in r.value.modIDs <==> id in fetchedMods)
            && r.value.failedItemIDs == Unsuccessful(ex.playlistIDs + ex.modIDs, fetchedPlaylists + fetchedMods)
            && r.value.config == XmlManager.WithPaths(ex.doc, r.value.playlistIDs, r.value.modIDs, ConfigDirAbs(cwd.value, name)))
    }

    /**
     * handleStartServerProcess from the extraction to the save: fetch the items, put the paths
     * of the fetched ones back and save the document.
     */
    method SaveWithWorkshopPaths(name: string, assignedPort: int, ex: XmlManager.Extraction,
                                 run: SteamCmdManager.ToolRun, fs: SteamCmdManager.FsOracle, cwd: Option<string>, saved: bool)
      returns (r: Result<Prepared, Reason>)
      modifies this`sent, this`configFiles
      ensures PreparedFrom(old(sent), old(configFiles), name, assignedPort, ex, run, fs, cwd, saved, r)
    {
      var okPlaylists: seq<string>, okMods: seq<string>, failedItemIDs: seq<string> := [], [], [];
      var xmlToSave := ex.doc;
      if |ex.playlistIDs| > 0 || |ex.modIDs| > 0 {
        okPlaylists, okMods, failedItemIDs := FetchWorkshopItems(ex.playlistIDs, ex.modIDs, run, fs);
        if cwd.None? {
          sent := sent + [Reply(Failure(ConfigDirUnresolved))];
          return Err(ConfigDirUnresolved);
        }
        var configDirAbs := ConfigDirAbs(cwd.value, name);
        // The document without the ids is passed on re-encoded; decoding it again does not fail.
        var finalXml := XmlManager.AddWorkshopPathsToXml(Decoded(ex.doc, false), okPlaylists, okMods, configDirAbs);
        xmlToSave := finalXml.value;
      }
      if !saved {
        sent := sent + [Reply(Failure(SaveFailed))];
        return Err(SaveFailed);
      }
      configFiles := configFiles[name := xmlToSave];
      r := Ok(Prepared(name, assignedPort, xmlToSave, okPlaylists, okMods, failedItemIDs));
    }

    /**
     * handleStartServerProcess up to the save: find the lowest free port (without marking it),
     * write it into the document, take the workshop ids out, then fetch and save as above. Each
     * failure sends one failure response and stops; nothing is registered and no port is claimed.
     */
    method StartPrepare(name: string, config: Decoded, run: SteamCmdManager.ToolRun, fs: SteamCmdManager.FsOracle,
                        cwd: Option<string>, saved: bool)
      returns (r: Result<Prepared, Reason>)
      requires Valid()
      modifies this`sent, this`configFiles
      ensures Valid()
      ensures var free := PortManager.LowestFree(ports.usedPorts, ports.MinPort, ports.MaxPort);
        free.None? ==>
          && r == Err(NoFreePort)
          && sent == old(sent) + [Reply(Failure(NoFreePort))]
          && configFiles == old(configFiles)
      ensures var free := PortManager.LowestFree(ports.usedPorts, ports.MinPort, ports.MaxPort);
        free.Some? && config.failed ==>
          && r == Err(PortUpdateFailed)
          && sent == old(sent) + [Reply(Failure(PortUpdateFailed))]
          && configFiles == old(configFiles)
      ensures var free := PortManager.LowestFree(ports.usedPorts, ports.MinPort, ports.MaxPort);
        free.Some? && !config.failed ==>
          PreparedFrom(old(sent), old(configFiles), name, free.value,
            XmlManager.Extracted(ConfigManager.RewriteTokens(config.tokens, Strconv.Itoa(free.value))),
            run, fs, cwd, saved, r)
    {
      var assignedPort, findErr := ports.FindAvailablePort(ports.MinPort, ports.MaxPort);
      if findErr.Some? {
        sent := sent + [Reply(Failure(NoFreePort))];
        return Err(NoFreePort);
      }
      var xmlWithPort := ConfigManager.UpdateXmlPort(config, assignedPort);
      if xmlWithPort.Err? {
        sent := sent + [Reply(Failure(PortUpdateFailed))];
        return Err(PortUpdateFailed);
      }
      // The rewritten document is passed on re-encoded; decoding it again does not fail.
      var extracted := XmlManager.ExtractWorkshopIDsAndModifyXml(Decoded(xmlWithPort.value, false));
      r := SaveWithWorkshopPaths(name, assignedPort, extracted.value, run, fs, cwd, saved);
    }

    /**
     * handleStartServerProcess from marking the port on: a port another start claimed first is a
     * conflict (the saved directory is removed); otherwise an older process of the same name is
     * stopped and the server is spawned. A failed spawn releases the port and removes the
     * directory; a started one is registered with the port and watched.
     */
    method StartCommit(p: Prepared, spawn: SpawnOutcome) returns (watch: Option<Watch>)
      requires Valid()
      modifies this, ports
      ensures Valid()
      ensures !PortManager.Claim(old(ports.usedPorts), ports.MinPort, ports.MaxPort, p.port).1 ==>
        && runningProcs == old(runningProcs)
        && ports.usedPorts == old(ports.usedPorts)
        && configFiles == old(configFiles) - {p.name}
        && sent == old(sent) + [Reply(Failure(PortConflict))]
        && watch == None
    // A conflict removes the document even when a server of the same name is still registered.
    ensures !PortManager.Claim(old(ports.usedPorts), ports.MinPort, ports.MaxPort, p.port).1 && p.name in old(runningProcs) ==>
      p.name in runningProcs && p.name !in configFiles
      ensures PortManager.Claim(old(ports.usedPorts), ports.MinPort, ports.MaxPort, p.port).1 && spawn.NotSpawned? ==>
        && runningProcs == old(runningProcs) - {p.name}
        && p.port !in ports.usedPorts
        && configFiles == old(configFiles) - {p.name}
        && sent == old(sent) + [Reply(Failure(SpawnFailed))]
        && watch == None
      ensures PortManager.Claim(old(ports.usedPorts), ports.MinPort, ports.MaxPort, p.port).1 && spawn.Spawned? ==>
        && runningProcs == old(runningProcs)[p.name := ProcessInfo(spawn.pid, p.port)]
        && p.port in ports.usedPorts
        && configFiles == old(configFiles)
        && sent == old(sent) + [Reply(StartedResponse(p.port, p.failedItemIDs))]
        && watch == Some(Watch(p.name, spawn.pid, p.port))
    {
      var ok := ports.AssignPort(p.port);
      if !ok {
        sent := sent + [Reply(Failure(PortConflict))];
        configFiles := configFiles - {p.name};
        return None;
      }
      StopExistingProcess(p.name);
      match spawn {
        case NotSpawned =>
          ports.ReleasePort(p.port);
          configFiles := configFiles - {p.name};
          sent := sent + [Reply(Failure(SpawnFailed))];
          watch := None;
        case Spawned(pid) =>
          PortsOfAdd(runningProcs, p.name, ProcessInfo(pid, p.port));
          runningProcs := runningProcs[p.name := ProcessInfo(pid, p.port)];
          sent := sent + [Reply(StartedResponse(p.port, p.failedItemIDs))];
          watch := Some(Watch(p.name, pid, p.port));
      }
    }

    /**
     * The whole start request when nothing runs between its two halves: the port found is then
     * always claimable, so a start never ends in a port conflict, and a started server is
     * registered on the lowest port that was free.
     */
    method HandleStartServerProcess(name: string, config: Decoded, run: SteamCmdManager.ToolRun,
                                    fs: SteamCmdManager.FsOracle, cwd: Option<string>, saved: bool, spawn: SpawnOutcome)
      returns (watch: Option<Watch>)
      requires Valid()
      modifies this, ports
      ensures Valid()
      ensures |sent| > |old(sent)|
      ensures sent[|sent| - 1] != Reply(Failure(PortConflict))
      ensures watch.Some? ==>
        && PortManager.LowestFree(old(ports.usedPorts), ports.MinPort, ports.MaxPort) == Some(watch.value.port)
        && watch.value.name == name
        && runningProcs == old(runningProcs)[name := ProcessInfo(watch.value.pid, watch.value.port)]
    {
      var prepared := StartPrepare(name, config, run, fs, cwd, saved);
      if prepared.Err? {
        return None;
      }
      watch := StartCommit(prepared.value, spawn);
    }
  }
}
