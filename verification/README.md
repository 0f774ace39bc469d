# Verification of the browser relay, the server lifecycle, companion addresses and atomic writes

This project models five parts of the repository in Dafny and proves what they promise.

- **Browser controller and relay** (`browser-extension/controller.js`, `browser-extension/relay.js`).
  An asynchronous protocol over a connection that can be lost at any await. The code between two awaits is one atomic
  step; browser answers, browser events, frames and losses arrive between steps, in any order. `Script` writes each
  action body as the sequence of its operations, `TabMachine` gives every operation its effect on a tab (including every
  way to fail), `Controller` puts tabs, session, attachments and running disconnects together, and `Relay` puts
  connections in front of them. `TabInvariants`, `SentLedger` and the second halves of `Controller` and `Relay` prove
  what holds in every reachable state; browser calls are kept in a log that only grows. `TabHistory` and `Attribution`
  follow one command from its frame to its result, and `LateDetach` builds the one run in which the code does less than
  it seems to promise. `ControllerObject` and `RelayObject` are the two classes themselves, their methods proved to make
  exactly the modelled steps and to keep the invariants.
- **Algorithms inside the controller.** The exclusion of foreign frames and the minting of references (`AxTree`), the
  DOM worklist (`DomTree`), the clipping of content quads and the click point (`Clipping`, `Convexity`, `ClickPoint`), and
  the download's parts with their decoding at the other end (`BlobParts`).
- **Owned server lifecycle** (`server_runtime.py`). Launchers under the launch lock interleaved with servers that exit
  by themselves (`LaunchProtocol`; `LaunchObject` has `start`, `stop` and the server's exit as methods on the files and
  processes, with the servers free to move between any two operations), the three computations of which processes
  survive (`ProcessTree`), and the listener watchdog (`Watchdog`).
- **Companion addresses** (`companion/pairing.py`): the accepted language and its agreement with the URL Standard
  (`Pairing`, with `Decimal`).
- **Atomic writes** (`core/atomic_io.py`): any number of writers, and a machine that may stop at any step (`AtomicWrite`).

`dafny verify dfyconfig.toml` checks everything.

## Where the code does not do what is said of it

- A detach can reach a tab that the controller no longer owns. With a file chooser intercepted, `detachOwned` first
  waits for the browser to close it (controller.js:158); when the browser detaches the tab in that wait, the detach
  still follows. `LateDetach.DetachMayOutliveOwnership` proves it of a run: a session, a snapshot, an upload as far as the
  interception of the chooser, a loss of the connection, a detach by the browser, and the browser's answer that the
  chooser is closed. `Controller.DetachesAccounted` is the exact condition over all runs: a detach goes to an owned tab
  if and only if the tab's lifetime is still the one `detachOwned` began with.
- The exclusion of foreign frames is exactly what foreign nodes lead to in every list whose foreign nodes have the
  children of the last node with their id, as when ids are unique (`AxTree.GraphsAgree`). When a foreign node shares its
  id with a later node that has other children, the lookup knows only the later one, and a child can escape:
  `AxTree.DisagreeingIdsEscape`. `AxTree.ExcludedExactly` says what is excluded of any list at all, and
  `AxTree.ExcludedIsReachable` exactly when that is what foreign nodes lead to: if and only if, wherever an id stands for
  another node's children than its last one's, the children of both are under foreign nodes (`AxTree.ChildrenAgree`).
- The comment at server_runtime.py:166 speaks of a growing pause. The pause after a failed rebuild is a constant
  (`Watchdog.PauseNeverGrows`).
- The misses of the watchdog stay within the allowance if and only if the allowance is at least one
  (`Watchdog.MissesWithinAllowance`).
- Normal exit and forced stop spare the same descendants unless the ledger proves the server itself, or an ancestor of
  it, to be detached: then the normal exit spares all of them (`ProcessTree.ExitAgainstForcedStop`).
  `ProcessTree.ServerInLedgerDisagrees` is a table and a ledger on which they differ, and `ProcessTree.SurvivorsAgree`
  the exact condition, in terms of table and ledger alone.
- A ledger value of a living process that is no dictionary, or whose creation time is an integer too large for a float,
  ends the normal exit and the emergency stopper with an uncaught exception. The forced stop skips what is no dictionary,
  but such an integer ends it too, before it has killed anything (`ProcessTree.ChildrenToTerminate`,
  `ProcessTree.Discover`, `ProcessTree.ForcedStop`).
- After a crash the directory may hold an earlier replacement than the last one, for nothing syncs the directory
  (core/atomic_io.py:57-87). The file is whole all the same, because every installed file was synced before: a crash
  leaves of any other file anything at all (`AtomicWrite.TargetAlwaysWhole`).

## Model

| member | source | states |
|---|---|---|
| `Script.EveryBodyDisciplined` | browser-extension/controller.js:207-353 | Every action, on its way through all its awaits: an effect is dispatched only after the phase became `outcome_unknown`, in the action's own order; a first input only after its reference was checked since the last await; a completed readback of a mutation only for a snapshot begun after the last effect; at the end the action's effects and phase. |
| `Script.HitDisciplined` | browser-extension/controller.js:216-220 | Mouse press and release, in that order, only under `outcome_unknown`, the press right after the generation check. |
| `Script.ChooseDisciplined` | browser-extension/controller.js:233-257 | An upload is confirmed after its click, becomes unknown again for the files, and is confirmed again. |
| `Script.VerifyThenInput` | browser-extension/controller.js:202-205 | After verification the input that follows in the same step aims at a fresh reference. |
| `Script.EveryBodyMintsOnce` | browser-extension/controller.js:175-191 | No action publishes references except at the end of a snapshot whose generation was just compared. |
| `TabInvariants.ExecKeeps` | browser-extension/controller.js:118-353 | Every operation of a running command, with every failure, keeps the tab's invariants. |
| `TabInvariants.ResumeKeeps` | browser-extension/controller.js:122-131 | Every end of an await, by answer, loss of the session or detach, keeps them. |
| `TabInvariants.ThrowKeeps` | browser-extension/controller.js:245-255 | An exception at any point, caught by a finally block or not, keeps the tab's invariants: the references are current, the log is confined, and the reply's phase is true. |
| `TabInvariants.FinallyKeeps` | browser-extension/controller.js:246-255 | So does the finally block of an upload or a download, with or without its cleanup call. |
| `TabInvariants.StartKeeps` | browser-extension/controller.js:364-370 | So does the start of the next queued command, or its failure when its session or lifetime is over. |
| `TabInvariants.AttachReplyKeeps` | browser-extension/controller.js:139-147 | So does an answered attachment, also one that comes after its lifetime or its session. |
| `TabInvariants.DetachReplyKeeps` | browser-extension/controller.js:151-163 | So does an answered detach, with everything that waits for it. |
| `TabInvariants.DetachedKeeps` | browser-extension/controller.js:102-105 | So does a detach by the browser. |
| `Controller.StepKeeps` | browser-extension/controller.js:81-371 | Every event of browser, commands and session keeps the invariants of all tabs, of the one running step and of every disconnect. |
| `Controller.ReachableSound` | browser-extension/controller.js:81-371 | They hold in every world of every run. |
| `Controller.ReferencesAlwaysCurrent` | browser-extension/controller.js:88-190 | Every stored reference has its tab's current generation and stored document. |
| `Controller.NamesNeverRepeat` | browser-extension/controller.js:186 | No two snapshots of a run mint the same reference name. |
| `Controller.EveryCallConfined` | browser-extension/controller.js:118-164 | A command calls the browser only in its own current session and lifetime, cleanup calls excepted, and the first input aimed at a reference only in that reference's generation. |
| `Controller.CommandsOneAtATime` | browser-extension/controller.js:364-370 | Per tab, commands end in order of arrival and call the browser one at a time. |
| `Controller.PhasesTellTheTruth` | browser-extension/controller.js:365-370 | `not_dispatched`: no effect was sent; `action_confirmed` and `readback_complete`: every effect sent was acknowledged; a mutation's `readback_complete`: its snapshot began after the last acknowledgement; success: all effects of the action, in order. |
| `Controller.DetachesAccounted` | browser-extension/controller.js:151-163 | Only attached tabs are owned, and a detach reaches a tab still owned exactly when its lifetime is the one in which the detach began. |
| `Controller.DetachesBeginOwned` | browser-extension/controller.js:151-155 | A detach is begun only for a tab that the controller attached and still owns, and never beside another. |
| `LateDetach.DetachMayOutliveOwnership` | browser-extension/controller.js:155-160 | Some run from the initial world sends a detach to a tab that the controller no longer owns. |
| `Controller.CleanDisconnectLeavesNothing` | browser-extension/controller.js:94-101 | A disconnect that no failed detach and no new session disturbs leaves no tab owned, also with attachments in flight when it began. |
| `Controller.BeginDisconnectKeeps` | browser-extension/controller.js:94-98 | From its first step on a disconnect accounts for every owned tab and every attachment in flight. |
| `Controller.AdvanceKeeps` | browser-extension/controller.js:98-100 | Passing each await of a disconnect loses none of them. |
| `Controller.HistoryOnlyGrows` | browser-extension/controller.js:81-371 | No event takes back a call, a reply, a minting or a detach, nor lets a generation or lifetime fall. |
| `SentLedger.RepliesAccountForTheLog` | browser-extension/controller.js:164-165 | The effects a reply accounts for are exactly the effects of its command in the log of calls. |
| `TabHistory.StepFollows` | browser-extension/controller.js:363-371 | Under every event a tab's record stays, grows by one call of the running command, ends that command, or starts the next in the queue; nothing else happens to it. |
| `Relay.StepKeeps` | browser-extension/relay.js:12-55 | Every connect, frame, resumption and loss keeps the invariants of relay and controller together. |
| `Relay.ReachableSound` | browser-extension/relay.js:12-55 | They hold in every system of every run. |
| `Relay.SessionIsReadiness` | browser-extension/relay.js:12-47 | The controller's session is open exactly while the current connection is ready, and is that connection's; then no earlier disconnect still runs. |
| `Relay.OpenSessionNeverFails` | browser-extension/relay.js:43-47 | When the handshake goes on after the cleanup, no session is open and every disconnect is over, so opening succeeds. |
| `Relay.OpeningIsSafe` | browser-extension/relay.js:45-46 | The same from the invariants alone, for any handshake that waited for the cleanup. |
| `Relay.AtMostOnce` | browser-extension/relay.js:51-53 | On one connection no command id reaches the controller twice. |
| `Relay.OneResultEachInOrder` | browser-extension/relay.js:24-55 | While a connection is current, its results carry the ids of its handled commands one by one in order of arrival; afterwards they are a prefix, and none goes out elsewhere. `Attribution.ResultsAreTheirOwn` says what they carry. |
| `Attribution.ResultsAreTheirOwn` | browser-extension/relay.js:38-55 | The k-th result of a connection answers its k-th command; when it reports an end, that is the end of a command for the same tab, with the arguments of that very frame, accepted under the session of that connection. |
| `Attribution.EachEndOnce` | browser-extension/relay.js:51-55 | No command's end is reported by two results, on the same connection or on two. |
| `Relay.OnlyFailedDetachesLeaveTabs` | browser-extension/relay.js:30-36 | Behind the relay a finished disconnect left tabs owned only if a detach failed meanwhile. |
| `Relay.CallsOnlyForTheCurrentConnection` | browser-extension/relay.js:38-55 | A command calls the browser only while the connection that brought it is current, cleanup calls excepted. |
| `Relay.WorldReachable` | browser-extension/relay.js:30-54 | The relay makes the controller do nothing but steps of its own, at most one a time, so every result about the controller's runs holds behind it. |
| `Relay.LoseKeeps` | browser-extension/relay.js:30-37 | A loss, first or repeated, keeps every invariant of relay and controller. |
| `Relay.HandleFrameKeeps` | browser-extension/relay.js:38-54 | Whatever a frame holds, handling it to its first await keeps them. |
| `ControllerObject.BrowserController.constructor` | browser-extension/controller.js:82 | A new controller has no session, no tabs and owns nothing; the invariants hold. |
| `ControllerObject.BrowserController.State` | browser-extension/controller.js:84-87 | The tab's record, made when first needed; nothing else changes. |
| `ControllerObject.BrowserController.Invalidate` | browser-extension/controller.js:88 | One tab's new generation without references or document, a waiting chooser refused; no other tab changes. |
| `ControllerObject.BrowserController.OpenSession` | browser-extension/controller.js:89-93 | Refused while a session is open; else the session opens and every tab is invalidated. |
| `ControllerObject.BrowserController.DetachOwned` | browser-extension/controller.js:151-163 | Joins a detach in flight, does nothing for a tab not owned, else begins the detach, with the chooser first if one is intercepted. |
| `ControllerObject.BrowserController.Disconnect` | browser-extension/controller.js:94-98 | The loops over all tabs and all owned tabs make exactly the modelled beginning of a disconnect. |
| `ControllerObject.BrowserController.OnDetach` | browser-extension/controller.js:102-105 | Ownership and lifetime end, references go; a source without a tab changes nothing. |
| `ControllerObject.BrowserController.OnEvent` | browser-extension/controller.js:106-114 | Child sessions are ignored; a shown chooser resolves a waiting one; a new document, a main-frame navigation or one within the stored frame invalidates. |
| `ControllerObject.BrowserController.OnTabUpdated` | browser-extension/controller.js:115 | Invalidates exactly when the URL changed or loading began. |
| `ControllerObject.BrowserController.OnTabRemoved` | browser-extension/controller.js:116 | A removed tab is detached. |
| `ControllerObject.BrowserController.Run` | browser-extension/controller.js:363-370 | The command joins its tab's queue last, under the session and lifetime of this moment. |
| `RelayObject.BrowserRelay.constructor` | browser-extension/relay.js:7-10 | A new relay has no connection and nothing to clean up. |
| `RelayObject.BrowserRelay.Connect` | browser-extension/relay.js:12-29 | Makes a connection only when there is none and the socket can be made. |
| `RelayObject.BrowserRelay.Lose` | browser-extension/relay.js:30-37 | Only the current connection is lost, once, and one disconnect begins. |
| `RelayObject.BrowserRelay.OnClose` | browser-extension/relay.js:27-28 | A closed socket is the loss of its connection. |
| `RelayObject.BrowserRelay.OnMessage` | browser-extension/relay.js:24-26 | A frame joins its connection's chain last. |
| `RelayObject.BrowserRelay.Message` | browser-extension/relay.js:38-55 | Handling a frame up to its first await is exactly the modelled step, and keeps the invariants. |
| `RelayObject.BrowserRelay.Handle` | browser-extension/relay.js:38-54 | The same for each kind of frame. |
| `RelayObject.BrowserRelay.Run` | browser-extension/relay.js:51-53 | A first command is marked as seen, then reaches the controller. |
| `RelayObject.BrowserRelay.Reply` | browser-extension/relay.js:54 | The result goes out only on the asking connection while it is current; a failed send loses it. |
| `RelayObject.BrowserRelay.Open` | browser-extension/relay.js:43-47 | After the cleanup the session opens and the connection is ready, if it still is the current one. |
| `AxTree.ById` | browser-extension/controller.js:180 | The lookup's keys are the nodes' ids, and every id has its last node. |
| `AxTree.ExcludedIsReachable` | browser-extension/controller.js:180-183 | On every list: excluded are exactly the ids that foreign nodes lead to, each id with its last node's children, if and only if, wherever an id stands for other children than those, both nodes' children are under foreign nodes. |
| `AxTree.ExcludedExactly` | browser-extension/controller.js:180-183 | On every list: excluded are exactly the ids that foreign nodes lead to, where an id stands for its last node, or for a foreign node with it to which no earlier foreign node leads. |
| `AxTree.GraphsAgree` | browser-extension/controller.js:180-183 | On any graph, cyclic or not, whose foreign nodes have the children of the last node with their id: excluded are exactly the ids reachable over child ids from a foreign node. |
| `AxTree.DisagreeingIdsEscape` | browser-extension/controller.js:180-183 | Nodes that share an id but not their children: a reachable id that is not excluded. |
| `AxTree.Exclusion.ExcludeNode` | browser-extension/controller.js:181 | The recursion that grows one shared set ends, with the result of the recursive function. |
| `AxTree.Exclusion.ExcludeForeignNodes` | browser-extension/controller.js:182 | The same for the loop over all nodes. |
| `AxTree.RefsExact` | browser-extension/controller.js:184-188 | A reference exists for exactly the kept nodes of the main frame with a backend id, with their own backend id; no excluded or foreign node has one. |
| `AxTree.AxRefsName` | browser-extension/controller.js:187-189 | What a node is shown under is a reference minted in the same snapshot. |
| `AxTree.SnapshotRefsAreShown` | browser-extension/controller.js:189 | On any list: no foreign node is kept, every reference belongs to a kept node that is not under a foreign one, and every child ref of a kept node is a reference of the same snapshot. |
| `AxTree.RefNameInjective` | browser-extension/controller.js:186 | Equal reference names mean equal session, tab, generation and index. |
| `Decimal.NumeralIsCanonical` | browser-extension/controller.js:186 | A printed number has no leading zero and reads back as itself. |
| `Decimal.CanonicalIsNumeral` | companion/pairing.py:107 | A canonical numeral is the printed form of its value. |
| `DomTree.SubtreeBackendIds` | browser-extension/controller.js:54-63 | The worklist ends and returns exactly the ids of the tree over all seven fields, which are exactly those that a chain of fields leads to. |
| `DomTree.IdsAreReachable` | browser-extension/controller.js:58-60 | The recursive meaning and the meaning by chains of fields are the same. |
| `Clipping.ClippingSplitsArea` | browser-extension/controller.js:39-48 | At each stage, over any polygon, the signed sums of the kept part and of the part cut off add up to the original's. |
| `Clipping.AreaOfPart` | browser-extension/controller.js:40-48 | The signed sum of a part is what the edges contribute to it, one by one. |
| `Clipping.CrossingOnLine` | browser-extension/controller.js:44 | The crossing point lies on the clipping line; nothing is divided by zero. |
| `Clipping.PartContained` | browser-extension/controller.js:40-46 | Every half-plane that contains the polygon contains what a stage makes of it. |
| `Clipping.InsideUnchanged` | browser-extension/controller.js:41-45 | A stage returns a polygon on the kept side unchanged. |
| `Convexity.PartsConvex` | browser-extension/controller.js:34-47 | Both parts of a convex polygon are convex and run the same way round. |
| `Convexity.ClippingShrinks` | browser-extension/controller.js:34-48 | Clipping a convex polygon never increases its area. |
| `ClickPoint.ClipStage` | browser-extension/controller.js:40-46 | The loop over the edges computes the stage. |
| `ClickPoint.Measure` | browser-extension/controller.js:48-49 | The reductions compute the signed sum and the sums of the coordinates. |
| `ClickPoint.VisiblePoint` | browser-extension/controller.js:35-52 | A point is returned if and only if some usable quad has a clipped part of positive area; it is the mean of the first such part, and lies in the viewport. |
| `ClickPoint.MeanVisible` | browser-extension/controller.js:38-49 | The mean lies in the viewport and in every half-plane that contains the quad's corners. |
| `ClickPoint.VisibleShrinks` | browser-extension/controller.js:34-48 | The visible part of a convex quad is convex and no larger than the quad. |
| `ClickPoint.WholeQuadVisible` | browser-extension/controller.js:38-47 | A quad wholly inside the viewport is its own visible part. |
| `ClickPoint.AreaNeedsThree` | browser-extension/controller.js:49 | Positive area implies three vertices, so the length test rejects nothing more. |
| `ClickPoint.Pixel` | browser-extension/controller.js:212 | The rounded and clamped coordinate is a pixel of the viewport, at most one from the point, and at most a half where the viewport has such a pixel. |
| `ClickPoint.ClickTarget` | browser-extension/controller.js:209-212 | Which of the two failures occurs, or else a pixel of the viewport next to the mean of the first visible quad. |
| `BlobParts.DecodeOfEncode` | browser-extension/controller.js:27 | Base64 decodes to what was encoded. |
| `BlobParts.ReadBlobPart` | browser-extension/controller.js:23-28 | The pieces of 8192 bytes make up the slice, whatever its length. |
| `BlobParts.ReadParts` | browser-extension/controller.js:287-293 | The parts are ceil(bytes/65536), none decodes to more than 65536 bytes, each to its own stretch of the blob, and the other end receives exactly the blob. |
| `BlobParts.MissingPartRefused` | src/browser_relay/server.py:90-93 | A transfer that lacks its last parts is refused. |
| `ProcessTree.GrowByParent` | server_runtime.py:226-236 | The loop ends with the least set that contains the roots and is closed under children. |
| `ProcessTree.ClosureIsUnderRoots` | server_runtime.py:224-236 | That set is the roots and everything listed below them. |
| `ProcessTree.ProtectedRoots` | server_runtime.py:212-222 | A ledger entry protects exactly a descendant, not the server, with a positive recorded time that matches; reading the ledger raises exactly on an integer time too large for a float. |
| `ProcessTree.ForcedStop` | server_runtime.py:206-239 | Spared is the closure of the protected roots; doomed are the other descendants in reverse order, then the server. When reading the ledger raises, nobody is doomed. |
| `ProcessTree.ForcedSpares` | server_runtime.py:193-205 | Spared are exactly the verified descendants and everything below them. |
| `ProcessTree.ForcedPartition` | server_runtime.py:238-239 | Spared and doomed part the server and its descendants between them, and the server is doomed. |
| `ProcessTree.ChildrenToTerminate` | server_runtime.py:573-587 | The normal exit ends exactly the descendants that are neither a verified root nor below one; it raises exactly on a ledger value of a living process that is no dictionary or holds an integer too large for a float. |
| `ProcessTree.ExitAgainstForcedStop` | server_runtime.py:206-259 | For every descendant: spared at exit if and only if spared by the forced stop, or the ledger proves the server or an ancestor of it. |
| `ProcessTree.SurvivorsAgree` | server_runtime.py:573-587 | Exit and forced stop agree on all descendants exactly when the ledger proves neither the server nor an ancestor of it, or every descendant is at or below a verified one of them. |
| `ProcessTree.ServerInLedgerDisagrees` | server_runtime.py:206-259 | A server with one child and a ledger that proves the server: kept at exit, ended by the forced stop. |
| `ProcessTree.VerifiedRoots` | server_runtime.py:406-415 | The ledger's verified processes, and exactly when reading it raises. |
| `ProcessTree.Discover` | server_runtime.py:375-423 | The emergency stopper returns the closure of the identified processes less the closure of the verified ones, never an excluded process; it raises exactly as the reading of the ledger does. |
| `ProcessTree.DiscoveryKeepsAlike` | server_runtime.py:403-422 | It keeps what the normal exit keeps, when it sees every process between a verified one and what is below it. |
| `LaunchProtocol.StepKeeps` | server_runtime.py:445-570 | Every step of a launcher and every step of a server keeps: each live server that has not passed its last delete is named by the record, or its launcher is about to write it. |
| `LaunchProtocol.ExitDeletesOnlyItsOwn` | server_runtime.py:570 | In every interleaving, the record a server's exit deletes is its own, although reading and deleting are two steps. |
| `LaunchProtocol.OneLiveServer` | server_runtime.py:489-536 | At most one live server has not passed its last delete. |
| `LaunchProtocol.LiveServerIsFound` | server_runtime.py:489-497 | With the lock free the record names such a server, so the next launcher finds it. |
| `LaunchProtocol.StopReachesOnlyItsTarget` | server_runtime.py:552-558 | A server obeys only a request written for its own token, and a stop with a token writes one only for that token. |
| `LaunchProtocol.StopTouchesNoOther` | server_runtime.py:445-469 | In every run, while a stop with a token holds the lock, neither its own next step, the forced kill included, nor the stop file, nor another launcher changes the status of another token's server. |
| `LaunchProtocol.StopKillsOnlyItsTarget` | server_runtime.py:463-466 | Over a whole run, every kill made for a stop with a token was of that token's server. |
| `LaunchProtocol.KillsAreRecorded` | server_runtime.py:463-466 | A launcher changes a server's status only by killing it while it lives, and each kill is in the record of kills with the request it was made for. |
| `LaunchProtocol.WrongTokenChangesNothing` | server_runtime.py:445-449 | With any steps of servers between its three own, a stop whose token is not the one it reads leaves the world that the servers alone would have made. |
| `LaunchProtocol.LaunchersDeleteTheDead` | server_runtime.py:467-535 | A launcher deletes a record only of a dead server. |
| `LaunchObject.Runtime.ServerStep` | server_runtime.py:552-570 | Each step of a server's watcher and of its exit is exactly the modelled one, whatever a launcher is doing. |
| `LaunchObject.Runtime.Others` | server_runtime.py:552-570 | Servers left to themselves touch neither the lock nor the stop file, only delete the record, never come back to life, and obey only the stop file's own token. |
| `LaunchObject.Runtime.Retire` | server_runtime.py:455-469 | With servers moving between any two operations, the retired server is dead in the end, and the record does not name it. |
| `LaunchObject.Runtime.Replace` | server_runtime.py:455-469 | A server that a start replaces is dead in the end, retired or found dead when looked at again, whatever servers did in between; at most one request to stop was written, for it. |
| `LaunchObject.Runtime.Stop` | server_runtime.py:445-452 | A stop that succeeds ended the server that the record named, and with a token only that one, leaving no record of it and no stop file: it killed no other server, and no other obeyed meanwhile. One that fails changed nothing: records, stop file and statuses are what steps of servers alone made of them. |
| `LaunchObject.Runtime.WaitForOther` | server_runtime.py:502-510 | Waiting for another window's server changes nothing, and goes on only to read the record again. |
| `LaunchObject.Runtime.Spawn` | server_runtime.py:518-526 | A new server gets a new token and then the record, while every other server may still be exiting. |
| `LaunchObject.Runtime.AwaitReady` | server_runtime.py:528-536 | A server that does not become ready is dead in the end and has no record. |
| `LaunchObject.Runtime.Launch` | server_runtime.py:489-536 | A start spawns at most one server, none beside an existing one or on a taken port, kills only the server that the record named or its own, keeps the protocol's invariants throughout and gives the lock back; when it reports a start, no other server lives that has not passed its last delete, and when it failed, none at all. |
| `Watchdog.StepKeeps` | server_runtime.py:141-168 | Every pass and every finished rebuild keeps the watchdog's invariants. |
| `Watchdog.AtMostOneRebuild` | server_runtime.py:143-147 | At most one rebuild is unfinished, and the watchdog remembers it. |
| `Watchdog.RebuildsJustified` | server_runtime.py:148-158 | A rebuild is handed over only by a pass that found the server running and not exiting, after enough failing probes in a row, with none unfinished. |
| `Watchdog.PauseNeverGrows` | server_runtime.py:166-168 | The pause is min(4 interval, 60) after a failed rebuild and the interval otherwise. |
| `Watchdog.MissesWithinAllowance` | server_runtime.py:152-167 | Misses never exceed the allowance, if and only if it is at least one. |
| `Watchdog.ListenerWatchdog.OnePass` | server_runtime.py:141-168 | The loop's body makes exactly the modelled pass. |
| `Watchdog.ListenerWatchdog.Rebuild` | server_runtime.py:154-168 | The attempt, with each of its results and exceptions. |
| `Pairing.AcceptedExactly` | companion/pairing.py:70-111 | Accepted are exactly `http://h` and `http://h:p` with an allowed host and a canonical port from 1 to 65535; the short form means port 80. |
| `Pairing.OnlyPortEightyTwice` | companion/pairing.py:107-111 | Only port 80 has two spellings. |
| `Pairing.PrivateByOctets` | companion/pairing.py:26-36 | An address is allowed exactly in 10/8, 100.64/10, 127/8, 169.254/16, 172.16/12 and 192.168/16, octet by octet. |
| `Pairing.ValidHostChars` | companion/pairing.py:40-67 | An allowed host holds only lower-case letters, digits, hyphens and dots, whatever the IPv6 parser says. |
| `Pairing.NamesAreNoNumbers` | companion/pairing.py:53-63 | No accepted name ends in a number under section 3.5 of the URL Standard. |
| `Pairing.QuadsAgree` | companion/pairing.py:45-67 | Every accepted dotted quad has the same 32-bit value under both parsers. |
| `Pairing.ParsersAgree` | companion/pairing.py:53-67 | Both parsers take an accepted host for an address in the same cases, and then for the same private one. |
| `AtomicWrite.Finish` | core/atomic_io.py:39-54 | At most six replacements, each retry after a sharing conflict, the sleeps 5 ms doubled each time and at most 155 ms in all. |
| `AtomicWrite.StepKeeps` | core/atomic_io.py:57-108 | Every step of every writer, and a crash, keeps the invariants of files and writers. |
| `AtomicWrite.TargetAlwaysWhole` | core/atomic_io.py:72-80 | At every moment the target holds what it held at first or the whole, synced data of a writer that replaced it: until a crash the last one, after a crash, which tears every file that was not synced, that or an earlier one. |
| `AtomicWrite.ReportIsTrue` | core/atomic_io.py:75-87 | A write that raised never installed its data, one that returned did. |
| `AtomicWrite.NothingLeftBehind` | core/atomic_io.py:81-87 | A write that returned before any crash leaves no temporary file, nor does one whose unlink worked; at most six replacements are tried. |
| `AtomicWrite.Directory.AtomicWriteText` | core/atomic_io.py:90-108 | One write alone, in place: the target has the text or what it had, and the temporary file is gone if the write succeeded or the unlink did. |

## Left out

- The awaits of a command are resumptions of a script kept as a value: a Dafny method cannot be suspended. The methods
  of the two classes are the parts of the code that run without a pause; what a command does after its first await is
  `TabMachine` on values, as are the steps of the interleaved writers of `AtomicWrite`.
- What a page, the browser or a socket answers is any value; Chrome, its debugger protocol and WebSocket are not modelled
  further. The texts of errors and replies, badges, alarms and the heartbeat of the relay are left out.
- `keyboard`, `tabInfo`, `textOf` and the shape of a snapshot's node texts: table lookups. Whether a key or a URL is
  acceptable is a boolean argument.
- Tab ids, generations and backend ids are integers without the precision limit of JavaScript numbers, and geometry is
  over the reals, so rounding errors of floating point are not captured.
- The tab query of the `tabs` action is one await without a tab; tab ids are natural numbers.
- Sessions are compared as objects; a serial number stands for the object.
- `psutil`'s listing of children is taken to succeed; a creation time may be unreadable.
- Processes: one snapshot of a table with true parents. Reuse of a pid between two reads, and psutil's comparison of
  creation times of parent and child, are not captured; the identity test of `_is_faustus_process`, and the set of the
  caller and its ancestors, are inputs.
- Launch protocol: a launcher does not die while it holds the lock, killing works (so the ledger does not make the forced
  stop raise), file operations succeed, tokens never repeat, and a process is owned exactly when it is alive. `stop_all`
  deletes the record outside the lock and without comparing tokens (server_runtime.py:476-479); it is not a step of the
  protocol.
- Sockets, health probes, logging, argument parsing, environment and the rebuilding of the listener itself are oracles
  or left out.
- Companion addresses: input of printable ASCII, as the function itself requires. What Python's check of bracketed hosts
  and its IPv6 parser decide are inputs, on which no result depends. Tokens, discovery of the local network and QR
  codes are left out.
- Atomic writes: making the parent directory, access control lists and file modes are left out, but for the step that
  restricts a private file and may fail; two random suffixes never collide.
- Script.EveryBodyDisciplined: the checks on what the browser answers are single outcomes, so which answers pass them
  is not modelled beyond the document stamp, the generation and the size of a download.
