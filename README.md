# SWSC-GameServer supervisor core, in Dafny

SWSC-GameServer is a Go agent that runs Stormworks dedicated servers on behalf of a remote
controller. This project models its core:

- **The port allocator** (`port_manager.go`). It holds the set of ports in use inside
  `[MinPort, MaxPort]`. It finds the lowest free port, claims and releases ports, and lists
  the used ones.
- **The configuration-document pipeline** (`config_manager.go`, `xml_manager.go`). A server's
  XML document is a list of tokens `Start(name, attrs) | End(name) | Other(text)`, plus a
  flag for a decoder error after those tokens. The pipeline:
  - rewrites the `port` attribute of every `server_data` element;
  - takes the workshop ids (all-digit `path` values) out of `playlists` and `mods`, dropping
    the whole element that carried each one;
  - after the download, puts back one `path` element per fetched item before
    `</playlists>` and `</mods>`.
- **The workshop download accounting** (`steamcmd_manager.go`):
  - the SteamCMD argument list and the id-to-kind map;
  - the scan of the tool's output for `Success. Downloaded item <digits>`;
  - the source and target paths;
  - the remove-then-copy filter;
  - the split of the successes into playlists and mods.
- **The supervisor** (`process_manager.go`):
  - the registry of running servers (name to pid and port);
  - the start workflow with its compensation steps;
  - stopping;
  - the crash watcher's restart decision;
  - the failed-id list;
  - the event-type helper.
- **Configuration loading** (`config.go`). The environment is checked in a fixed order. The
  first failing check is the fatal error. Success guarantees `1024 <= MinPort <= MaxPort <= 65535`.

Modules follow the Go files: `PortManager`, `ConfigManager`, `XmlManager`, `SteamCmdManager`,
`ProcessManager` and `Config`. Some modules only support them:

| module | what it holds |
|---|---|
| `Strconv` | `strconv.Itoa` and `strconv.Atoi` |
| `FilePath` | `filepath.Join`, `filepath.Dir` and the `/`-to-`\` replacement |
| `XmlTokens` | the token type |
| `Types` | the response and event records of `types.go` |
| `Wrappers` | `Option` and `Result` |
| `Seqs` | one slice fact |

Some Go code holds state or loops, and that code stays imperative:

- **The port allocator** is a class whose `usedPorts` field is updated in place.
- **The supervisor** is a class holding:
  - the allocator;
  - `runningProcs`;
  - the saved configuration documents;
  - the messages sent to the controller.

  Its invariant `Valid` says the ports in use are exactly the ports of the registered servers,
  with no two servers sharing a port, and that the port range starts at a non-negative port.
  The constructor takes a range that starts at 1024 or above, as every configuration `LoadConfig`
  accepts does. So the source's `assignedPort != -1` guard before a release is modelled, and is
  proved always to hold.
- **Token loops.** Every loop over tokens, attributes, ids or output lines is a method with a
  loop. Each is proved equal to a function that specifies it, and the properties are proved as
  lemmas about that function.
- **Extraction.** It is specified per token. A left fold of the scan state (the two container
  flags, the skip flag and the depth) gives each token a fate: kept, dropped, or extracted with
  its kind and id.

Operating-system effects are inputs to the model. These are:

- the tool's run, given as its output lines, a read-error flag and a launch failure;
- the file system's answers to stat, remove and copy;
- whether a spawn succeeded, and its pid;
- whether the working directory resolves;
- whether a save succeeds;
- the document read back from disk when a server stops, or a failed read.

A stop and one wake-up of a watcher are one method call each. A start is one call, or its two
halves `StartPrepare` and `StartCommit` when another step runs between them.

## Model

| member | source | states |
|---|---|---|
| PortManager.LowestFree | port_manager.go:25-32 | the result is a free port of the range with every lower port of the range in use; it is None exactly when every port of the range is in use |
| PortManager.ClaimSpec | port_manager.go:36-51 | a claim succeeds exactly for an in-range port that is not in use; it adds that port and nothing else, and a refused claim leaves the set as it was |
| PortManager.ClaimReleaseKeepRange | port_manager.go:36-58 | claiming and releasing keep every used port inside [MinPort, MaxPort] |
| PortManager.ReleaseIdempotent | port_manager.go:54-68 | releasing twice is releasing once; releasing an unused port changes nothing; after a release the port is not in use |
| PortManager.FoundPortIsClaimable | port_manager.go:21-51 | if nothing changes the set in between, claiming the port that findAvailablePort found succeeds and adds exactly that port |
| PortManager.FoundPortLostToEarlierClaim | port_manager.go:44-47 | once another caller has claimed the port that was found, a second claim of it fails and changes nothing |
| PortManager.Claim | port_manager.go:36-51 | defines assignPort on the set: an out-of-range or used port is refused and the set kept, any other port is added and accepted; ClaimSpec states this |
| PortManager.Release | port_manager.go:54-68 | defines releasePort on the set: an in-range port is removed, and anything else leaves the set as it was; ReleaseIdempotent states its properties |
| PortManager.PortAllocator.constructor | port_manager.go:15-18 | the allocator starts with no port in use, over the configured range |
| PortManager.PortAllocator.FindAvailablePort | port_manager.go:21-33 | returns the lowest free port of the range, or -1 and the no-port error exactly when the whole range is in use; the set is not changed |
| PortManager.PortAllocator.AssignPort | port_manager.go:36-51 | the new set and the result are those of a claim: false for an out-of-range or used port, with the set unchanged; otherwise true with the port added; the range invariant is kept |
| PortManager.PortAllocator.ReleasePort | port_manager.go:54-68 | the port is removed when it is in range and in use, and otherwise nothing changes; the range invariant is kept |
| PortManager.PortAllocator.GetCurrentlyUsedPorts | port_manager.go:71-79 | the list holds exactly the ports in use, each once |
| ConfigManager.ReplacePortsAt | config_manager.go:68-78 | the attribute loop rewrites every port attribute where it stands and copies every other attribute |
| ConfigManager.AnyPortIsHasPort | config_manager.go:67-73 | the portAttrFound flag after the loop is true exactly when some attribute is named port |
| ConfigManager.UpdatePortAttrs | config_manager.go:64-83 | the rewritten attributes: port attributes replaced in place, and one port attribute appended when there was none |
| ConfigManager.RewriteTokens | config_manager.go:62-93 | the output has as many tokens as the input; each is its input token, except that a server_data start gets the rewritten attributes |
| ConfigManager.UpdateXmlPort | config_manager.go:44-112 | an error exactly when the decoder fails, with no partial output; otherwise the token-by-token rewrite with the decimal string of the new port |
| ConfigManager.Min | config_manager.go:115-120 | the result is one of the two arguments and no larger than either |
| ConfigManager.ReplacePorts | config_manager.go:68-78 | the attribute loop keeps the number of attributes; ReplacePortsAt gives each position |
| ConfigManager.WithPort | config_manager.go:64-83 | defines the attributes of a rewritten server_data element: the loop's output, then one port attribute when none was found |
| ConfigManager.RewriteToken | config_manager.go:62-93 | defines the token emitted for one input token: a server_data start with rewritten attributes, anything else unchanged |
| ConfigManager.PortValuesReplaced | config_manager.go:68-78 | with a port attribute present, the attribute count is unchanged, port attributes take the new value and the others are unchanged, position by position |
| ConfigManager.PortAppended | config_manager.go:80-83 | without a port attribute, exactly one port attribute with the new value is appended after the existing ones |
| ConfigManager.OtherAttrsKept | config_manager.go:74-77 | the attributes not named port keep their names, values and order |
| ConfigManager.NonPortOfReplaced | config_manager.go:68-78 | replacing port values in place leaves the non-port attributes as they were |
| ConfigManager.NonPortDropsPort | config_manager.go:80-83 | an appended port attribute adds nothing to the non-port attributes |
| ConfigManager.EveryPortIsNew | config_manager.go:64-83 | a rewritten server_data element has a port attribute, and every port attribute it has carries the new value |
| ConfigManager.WithPortIdempotent | config_manager.go:64-83 | rewriting a server_data element's attributes twice with the same port is rewriting once |
| ConfigManager.OtherTokensKept | config_manager.go:86-93 | every token other than a server_data start is emitted unchanged at its own position |
| ConfigManager.RewriteIdempotent | config_manager.go:44-93 | rewriting a document twice with the same port yields the same tokens as rewriting once |
| XmlManager.FirstWorkshopId | xml_manager.go:78-100 | some id exactly when some path attribute is all digits and non-empty; the id found is such a value |
| XmlManager.FirstWorkshopIdIsFirst | xml_manager.go:80-93 | the id is the value of the first path attribute that matches ^\d+$; earlier path attributes that do not match are passed over |
| XmlManager.FindWorkshopId | xml_manager.go:78-100 | the attribute loop finds the first workshop id, or none |
| XmlManager.Step | xml_manager.go:51-137 | defines one turn of the extraction loop on the scan state: dropping while skipping with the depth counted, the container flags, extraction of a workshop path, keeping otherwise; StepClassified states its cases |
| XmlManager.Actions | xml_manager.go:41-138 | one fate per input token, each the step from the state the earlier tokens leave |
| XmlManager.Extracted | xml_manager.go:29-151 | defines the result of extraction: the playlist ids, the mod ids and the kept tokens, in input order |
| XmlManager.ExtractToken | xml_manager.go:51-137 | one turn of the loop: the new flags, skip state and depth are those of the scan step; the token is emitted exactly when it is kept; an extracted id goes to the list of its container's kind |
| XmlManager.ExtractWorkshopIDsAndModifyXml | xml_manager.go:29-151 | an error exactly when the decoder fails, with no ids and no document; otherwise the ids and the document the per-token fates give |
| XmlManager.ActionsPrefix | xml_manager.go:41-138 | the fate of a token depends only on the tokens before it |
| XmlManager.ActionAt | xml_manager.go:41-138 | the fate of token i is the scan step applied to the state after the tokens before it |
| XmlManager.AfterConsistent | xml_manager.go:51-106 | never inside both containers at once; skipping exactly when the depth is positive |
| XmlManager.ActionClassified | xml_manager.go:51-113 | a token is dropped exactly while skipping; it is extracted exactly when not skipping and it is a path start with a workshop id inside a container, the id of its first matching attribute going to the container's kind; every other token is kept |
| XmlManager.StepClassified | xml_manager.go:51-113 | the same three-way classification for one step from any scan state |
| XmlManager.ContainerFlags | xml_manager.go:67-128 | opening playlists sets in-playlists and clears in-mods, and the reverse for mods; each container's end tag clears only its own flag |
| XmlManager.IdsAreExtracted | xml_manager.go:84-92 | every id in a result list comes from a token extracted with that kind |
| XmlManager.ExtractedIdsOrigin | xml_manager.go:78-92 | every extracted id is non-empty and all digits, and comes from a path start token met inside the container of its kind |
| XmlManager.ExtractionCounts | xml_manager.go:51-136 | kept tokens, dropped tokens and extracted ids together account for every input token |
| XmlManager.TokensAccounted | xml_manager.go:51-136 | the output document, the dropped tokens and the two id lists together account for every input token |
| XmlManager.NotExtractedIsKept | xml_manager.go:107-137 | outside a skipped element, a token that is not extracted is emitted and does not start skipping |
| XmlManager.NoIdsNoChange | xml_manager.go:94-137 | a document without workshop paths comes out unchanged |
| XmlManager.ExtractStartsSkip | xml_manager.go:102-106 | an extraction happens from an idle scan on a start tag and begins skipping at depth one |
| XmlManager.SkippedSubtree | xml_manager.go:51-64 | while the nesting balance since an extracted element stays positive, every token is dropped and the depth equals that balance |
| XmlManager.SkipEndsAtMatchingEnd | xml_manager.go:59-62 | at the end tag matching an extracted element the scan returns to the state it had before that element |
| XmlManager.KeptPrefix | xml_manager.go:107-137 | the output for a prefix of the tokens is a prefix of the whole output |
| XmlManager.KeptPosition | xml_manager.go:107-137 | every kept token appears in the output right after the output of the tokens before it |
| XmlManager.KeptInOrder | xml_manager.go:107-137 | two kept tokens appear in the output in their input order |
| XmlManager.PlaylistPaths | xml_manager.go:192-194 | one path value per id, in order, each the missions prefix followed by the id |
| XmlManager.ModPaths | xml_manager.go:214-219 | one path value per id, in order, each the joined mod directory with backslashes |
| XmlManager.PlaylistPath | xml_manager.go:194-194 | defines a playlist's path value: /rom/data/workshop_missions/ followed by the id |
| XmlManager.ModPath | xml_manager.go:217-219 | defines a mod's path value: the directory, rom, data, workshop_mods and the id joined, with / replaced by a backslash; ModPathShape gives its shape |
| XmlManager.Inserted | xml_manager.go:188-241 | defines what is emitted before a token: the playlist elements before </playlists>, the mod elements before </mods>, each only for a non-empty list; InsertedLength counts them |
| XmlManager.WithPaths | xml_manager.go:177-249 | defines the reinsertion output: each input token in order, preceded by what is inserted for it; WithPathsLength and InputKeptWithInsertions state its properties |
| XmlManager.ElementsAt | xml_manager.go:195-208 | the k-th path emitted is a path start element with that path attribute, followed by its end |
| XmlManager.EmitPlaylistPaths | xml_manager.go:192-210 | the playlist loop appends one path element per fetched playlist, in list order |
| XmlManager.EmitModPaths | xml_manager.go:214-240 | the mod loop appends one path element per fetched mod, in list order |
| XmlManager.EmitBefore | xml_manager.go:188-242 | before a token, the elements inserted for it: the playlist elements before a playlists end tag when there are fetched playlists, the mod elements before a mods end tag when there are fetched mods, nothing otherwise |
| XmlManager.AddWorkshopPathsToXml | xml_manager.go:165-261 | an error exactly when the decoder fails; otherwise every input token in order, each preceded by what is inserted for it |
| XmlManager.NothingInsertedNoChange | xml_manager.go:188-248 | a document with no insertion point comes out unchanged |
| XmlManager.NoSuccessesNoChange | xml_manager.go:188-211 | with both id lists empty the document comes out unchanged |
| XmlManager.InsertedLength | xml_manager.go:188-241 | a playlists end tag gets two tokens per fetched playlist, a mods end tag two per fetched mod, every other token none |
| XmlManager.WithPathsLength | xml_manager.go:177-249 | the output length is the input length plus two tokens per fetched id of a kind for each end tag of its container |
| XmlManager.WithPathsPrefix | xml_manager.go:177-249 | the output for a prefix of the tokens is a prefix of the whole output |
| XmlManager.InputKeptWithInsertions | xml_manager.go:188-248 | each input token is emitted, preceded by its insertions, in input order |
| XmlManager.PlaylistElementsInOrder | xml_manager.go:189-210 | before </playlists>, element k carries "/rom/data/workshop_missions/" + the k-th id |
| XmlManager.JoinModPath | xml_manager.go:217 | for non-empty parts the mod path joins the directory, rom, data, workshop_mods and the id with single separators |
| XmlManager.ModPathShape | xml_manager.go:217-219 | the mod path value is the configuration directory with backslashes, then \rom\data\workshop_mods\ and the id |
| XmlManager.InsertedPathsNotExtracted | xml_manager.go:194-219 | the inserted path values are not workshop ids, so a later extraction keeps them |
| SteamCmdManager.DownloadCommands | steamcmd_manager.go:66-74 | four arguments per requested id |
| SteamCmdManager.DownloadCommandsAt | steamcmd_manager.go:66-74 | the arguments for the k-th id are +workshop_download_item, the app id, the id and validate |
| SteamCmdManager.BatchArgs | steamcmd_manager.go:60-76 | defines the argument list: the login, the commands of the playlists and then the mods, and +quit; BatchArgsShape gives its shape |
| SteamCmdManager.Kinds | steamcmd_manager.go:63-74 | defines the kind map as the two loops write it, playlists first and mods after; KindsClassify states its contents |
| SteamCmdManager.AddPlaylistDownloads | steamcmd_manager.go:66-70 | the playlist loop produces the download arguments of the playlists and marks each as a playlist |
| SteamCmdManager.AddModDownloads | steamcmd_manager.go:71-74 | the mod loop appends the download arguments of the mods and marks each as a mod, over the playlist entries |
| SteamCmdManager.BuildBatch | steamcmd_manager.go:60-76 | the argument list is the login, the download commands of the playlists and then the mods, and +quit; the kind map is built as the two loops build it |
| SteamCmdManager.BatchArgsShape | steamcmd_manager.go:60-76 | the list has 3 + 4(n + m) arguments: +login anonymous first, +quit last, and one four-argument group per id in request order |
| SteamCmdManager.KindsClassify | steamcmd_manager.go:63-74 | an id is in the kind map exactly when it was requested, and it is a mod exactly when it is among the mods, so a mod write wins over a playlist |
| SteamCmdManager.DigitRun | steamcmd_manager.go:20 | the longest run of digits at a position: all digits, and followed by a non-digit or the end of the line |
| SteamCmdManager.MatchFrom | steamcmd_manager.go:110-112 | a captured id is non-empty and all digits |
| SteamCmdManager.MatchesAt | steamcmd_manager.go:20-20 | defines a match of Success. Downloaded item followed by a digit at a position, with . matching any character but a newline |
| SteamCmdManager.MarkerId | steamcmd_manager.go:110-112 | defines the id a line reports, the capture of the leftmost match; MarkerIdLeftmost states it |
| SteamCmdManager.Reported | steamcmd_manager.go:102-119 | defines the recorded set: the ids captured from all output lines |
| SteamCmdManager.MatchFromFound | steamcmd_manager.go:110-111 | the search finds a capture exactly when the pattern matches at some position from the start |
| SteamCmdManager.MatchFromLeftmost | steamcmd_manager.go:110-112 | the capture is the maximal digit run after the leftmost match |
| SteamCmdManager.MarkerIdLeftmost | steamcmd_manager.go:110-112 | a line yields an id exactly when the unanchored pattern matches it, and the id is the greedy capture of the leftmost match |
| SteamCmdManager.ReportedIgnoresRepeats | steamcmd_manager.go:114-117 | more lines, each of whose marker ids is already reported, leave the set of reported ids unchanged |
| SteamCmdManager.ScanToolOutput | steamcmd_manager.go:102-119 | the recorded set is exactly the ids captured from the output lines |
| SteamCmdManager.ContentBase | steamcmd_manager.go:171-172 | defines the content base: the tool's directory joined with steamapps, workshop, content and the app id; ContentBaseShape gives its shape |
| SteamCmdManager.SourcePath | steamcmd_manager.go:203-225 | defines where an item is copied from: <base>/<id>/playlist for a playlist, <base>/<id> for a mod |
| SteamCmdManager.TargetPath | steamcmd_manager.go:207-227 | defines where an item is copied to: its id under the install directory of its kind |
| SteamCmdManager.Materialized | steamcmd_manager.go:213-279 | defines a completed copy: the source exists, the target was removed or absent, and the copy succeeded |
| SteamCmdManager.SucceededOfKind | steamcmd_manager.go:186-301 | defines the successes of one kind: reported, requested with that kind, and materialised |
| SteamCmdManager.Succeeded | steamcmd_manager.go:186-281 | defines all successes, the finalSuccessMap; SucceededIff and ResultsPartition state its properties |
| SteamCmdManager.CopyReported | steamcmd_manager.go:182-284 | the final successes are the reported, requested ids whose source exists, whose target could be removed or was absent, and whose copy went through |
| SteamCmdManager.Partition | steamcmd_manager.go:290-301 | each success goes to the list of its kind, and each list has no repeats |
| SteamCmdManager.DownloadWorkshopItems | steamcmd_manager.go:41-311 | nothing requested gives two empty lists and no run; otherwise the tool is run with the batch arguments; an error exactly for a launch failure or an output read error; a non-zero exit still counts; on success each list holds exactly the materialised ids of its kind, without repeats |
| SteamCmdManager.ResultsPartition | steamcmd_manager.go:290-301 | the two result sets are disjoint, hold only requested ids of their kind, and together make up all successes |
| SteamCmdManager.SucceededIff | steamcmd_manager.go:186-281 | an id succeeds exactly when it is reported, requested, its source exists, its target is removed or absent and the copy succeeds |
| SteamCmdManager.ContentBaseShape | steamcmd_manager.go:171-172 | the content base is the tool's directory, then steamapps/workshop/content/ and the app id |
| SteamCmdManager.CopyPathsShape | steamcmd_manager.go:203-227 | a playlist is copied from <base>/<id>/playlist to <playlistDir>/<id>, a mod from <base>/<id> to <modDir>/<id> |
| ProcessManager.Unsuccessful | process_manager.go:278-287 | an id is listed exactly when it was requested and did not succeed |
| ProcessManager.UnsuccessfulConcat | process_manager.go:278-287 | the failures of the playlists are followed by the failures of the mods |
| ProcessManager.UnsuccessfulCounts | process_manager.go:278-287 | a failed id is listed as many times as it was requested, and a succeeded id not at all |
| ProcessManager.NothingSucceededAllFail | process_manager.go:265-289 | with no successes every requested id is failed, in order and with repeats |
| ProcessManager.CalculateFailedIDs | process_manager.go:265-289 | the requested playlists and then the requested mods that are in neither success list, in order and with repeats |
| ProcessManager.GetEventType | process_manager.go:646-659 | the event type of a crash or restart payload, and "unknown" for anything else |
| ProcessManager.WatcherEventTypes | process_manager.go:533-585 | the watcher's two events report serverCrashDetected and serverRestartResult, differ in type, and name the server |
| ProcessManager.ConfirmationGate | process_manager.go:309-318 | an unconfirmed stop with players present is refused, asking for confirmation with the player count; otherwise the gate passes |
| ProcessManager.GateNeverFires | process_manager.go:310-313 | with the constant player count 0 the gate never refuses |
| ProcessManager.PortsOfRemove | process_manager.go:338-360 | removing a registration releases exactly its port from the registered ports, and the ports stay distinct |
| ProcessManager.PortsOfAdd | process_manager.go:238-241 | registering a new name on a port no one holds adds exactly that port, and the ports stay distinct |
| ProcessManager.StopResponse | process_manager.go:367-386 | a stop succeeds whether or not the document is read back; the reason is `Stopped` exactly when the read succeeds, and the reply then carries the document read, otherwise `StoppedConfigUnreadable` and no document |
| ProcessManager.ConfigDirAbs | process_manager.go:156-157 | defines the absolute configuration directory: the working directory joined with config and the server name |
| ProcessManager.Supervisor.constructor | process_manager.go:34-38 | given a range starting at 1024 or above, as `LoadConfig` guarantees: an empty registry and an allocator over the configured range with no port in use |
| ProcessManager.Supervisor.StopExistingProcess | process_manager.go:402-436 | a registered name is removed and its port released (the `!= -1` guard always holds); an unregistered name changes nothing |
| ProcessManager.Supervisor.HandleStopServerProcess | process_manager.go:297-397 | an unknown name gives a failure with nothing changed; a known name is removed, its port released, the reply succeeds and carries the document read back from disk, or none when that read failed, and its directory is removed; the invariant is kept |
| ProcessManager.Supervisor.WaitForProcessExit | process_manager.go:490-590 | with the name gone or held by another pid nothing changes and nothing is sent; otherwise a crash event then a restart event, and either re-registration with the new pid on the same port or removal with the port released |
| ProcessManager.Supervisor.FetchWorkshopItems | process_manager.go:113-150 | the start, error and completion statuses are sent; each list holds exactly the fetched ids of its kind; the failed ids are those of the requests that were not fetched |
| ProcessManager.Supervisor.SaveWithWorkshopPaths | process_manager.go:113-193 | with ids, the statuses, then a failure if the directory cannot be resolved; a failed save is reported; a successful save stores the document with the paths of the fetched items |
| ProcessManager.Supervisor.StartPrepare | process_manager.go:58-193 | no free port gives that failure; a malformed document gives the port-update failure; otherwise the lowest free port is rewritten into the document, the ids are taken out and fetched, and the result is saved; no port is claimed yet |
| ProcessManager.Supervisor.StartCommit | process_manager.go:196-257 | a lost claim gives the conflict failure with the document removed and the port unmarked, even when a server of the same name stays registered; a failed spawn releases the port and removes the document; a spawn registers the name on the port and replies with the port and the failed ids |
| ProcessManager.Supervisor.HandleStartServerProcess | process_manager.go:58-257 | a start always sends a reply, never a port conflict when run alone; a watched server holds the lowest port that was free and is registered under its name |
| Config.FirstFailure | config.go:76-166 | no error exactly when every remaining check passes |
| Config.LoadConfig | config.go:61-179 | fails exactly when some check fails, with the error of the first failing check; otherwise the settings read from the environment, with 1024 <= MinPort <= MaxPort <= 65535 |
| Config.FirstFailureIsFirst | config.go:76-166 | the error reported is that of a failing check with every earlier check passing |
| Config.RequiredAndNumeric | config.go:76-155 | an empty required variable is fatal, and so is a MIN_PORT, MAX_PORT or GAME_APPID that does not parse as an integer |
| Config.LoadedRangeValid | config.go:159-166 | after a successful load, 1024 <= MinPort <= MaxPort <= 65535, the ports are the parsed values, and GAME_APPID parses |
| Config.CheckAt | config.go:76-166 | defines the fourteen checks in the order LoadConfig makes them: the required variables and integer parses in turn, then the ordering and the range of the ports |
| Config.Failure | config.go:76-166 | defines the fatal error of one check: a missing variable, a non-integer value, MinPort above MaxPort, or a range outside 1024..65535 |
| Config.Settings | config.go:76-155 | defines the configuration read from the environment after every check has passed |
| Strconv.NatToDecimal | config_manager.go:50 | the decimal string is non-empty and all digits, with no leading zero except for 0 |
| Strconv.Itoa | config_manager.go:50 | the string is non-empty and starts with a minus sign exactly for a negative number |
| Strconv.Atoi | config.go:102-116 | a parsed value is within the 64-bit range, and the empty string and a lone sign do not parse |
| Strconv.DecimalRoundTrip | config_manager.go:50 | reading back the decimal digits of n gives n |
| Strconv.AtoiItoa | config_manager.go:50 | parsing the formatted port gives the port back |
| Strconv.AtoiAccepts | config.go:102-116 | a string parses exactly when, after at most one sign, it is a non-empty run of ASCII digits whose signed value fits Go's int, and then the value is that signed value |
| Strconv.LeadingZeroIgnored | config.go:102-116 | a leading zero does not change the value of a digit string |
| Strconv.AtoiExamples | config.go:102-116 | 12a and " 1" are rejected, +007 reads as 7 and -0 as 0 |
| FilePath.Join | xml_manager.go:217 | the join is empty exactly when every part is empty |
| FilePath.JoinKeepsChars | xml_manager.go:217 | every character of a part appears in the join |
| FilePath.Dir | steamcmd_manager.go:171 | the directory is never empty; it is "." without a separator, and otherwise the path up to its last separator |
| FilePath.ToBackslashes | xml_manager.go:219 | same length; each / becomes \ and every other character stays; no / is left |
| FilePath.ToBackslashesConcat | xml_manager.go:219 | replacing separators distributes over concatenation |

## Left out

- **Transport** (websocket_client.go, main.go) is not part of this model: the dial, the authentication, pings, the read loop, the JSON send helpers and reconnection. A reply, a status update or a server event is appended to `sent` instead.
- **JSON decoding of request payloads** is left out, and so is the error reply for a malformed payload: the handlers receive the decoded name, document and confirmation flag.
- **Byte-level XML** is left out: the tokenizer, the encoder, indentation, namespaces and the flush. A document is the token list the decoder yields, plus a flag for a decoding error. Encoder errors are not modelled, and neither is the start handler's re-decoding of the documents the encoder wrote. Those re-decode error branches cannot fire on well-formed output.
- **Response and status text** is replaced by a `Reason` value or the status name. Log messages are left out.
- **Operating-system calls** are inputs:
  - the SteamCMD run, with its stdout lines, a read-error flag and a launch failure;
  - stat, remove and copy answers per path;
  - a spawn outcome and pid;
  - whether the working directory resolves;
  - whether a save succeeds;
  - the read-back of a stopped server's `server_config.xml`, as an optional document.
- **Internals behind those inputs** are not modelled: `copyDir`'s walk, `saveConfigFile`, `os.RemoveAll` on the configuration directory, the content-base stat (it only logs), `logProcessExit`, the stdout/stderr log goroutines of a spawned server and the stderr reader of SteamCMD.
- **Concurrency** is left out. Mutexes and goroutines become sequential calls. A start is split into `StartPrepare` (find a port .. save) and `StartCommit` (claim .. register), so a competing claim in between shows as a failed `AssignPort`.
- getRunningServerNames is left out: it only reports the registry's keys to the transport.
- **`.env` loading** is left out. A failure to load `.env` is ignored by the source, and the environment is an input map.
- **filepath.Join** is modelled as joining the non-empty parts with `/`. It does not apply `Clean` (`..`, `.` and duplicate separators), and `/` is the only separator.
- FilePath.Dir: does not apply `Clean` to its result as Go's `filepath.Dir` does. For a path with doubled separators or `.` elements before its last element (`a//b`, `a/./b`) the model gives `a/` or `a/.` where Go gives `a`. It is used on `STEAMCMD_PATH`, which is taken as given.
- **filepath.Abs** is modelled as a join under a given working directory.
- **Integer width.** Integers are unbounded. `Atoi` accepts the 64-bit range of Go's `int` on the target platform. No arithmetic in the core can overflow.
- ProcessManager.Supervisor.WaitForProcessExit: requires that a registry entry with the watched pid holds the watched port. The source can only reach this method that way; pid reuse across servers is not modelled.
- ProcessManager.Supervisor.HandleStartServerProcess: states what the two halves guarantee together when nothing runs between them; the detailed outcomes are the contracts of StartPrepare and StartCommit.
- **Loop bodies in separate methods.** `extractWorkshopIDsAndModifyXML`'s loop body is the method `ExtractToken`. The two loops of the argument construction are `AddPlaylistDownloads` and `AddModDownloads`. The insertion before each token is `EmitBefore`.
- **Map iteration order** is not modelled. `DownloadWorkshopItems` returns its lists in the order of Go's map iteration, which is unspecified. The model promises the membership of each list and no repeats, not an order.
- **Extraction failure.** If extraction failed in the start handler, no port would have to be released, because the port is only claimed after the save. The model follows the code on this.
