# A verified model of the Ghostbusters lobby server

The repository is a game server: consoles log in over a small reliable transport (PRUDP), create and join
lobbies, and upload their statistics when a match ends. This project models its logic in Dafny and proves what
its handlers keep true over every run, what its byte formats give back, and what its store serves.

The model has two layers. `Machine` and `Transport` are step machines on values: a `World` (or `Net`) is all the
state the single-threaded handlers share, `Next` is one packet, request, close or timer expiry, and `Run` any
sequence of them, with a log of what happened and what was sent. All statements about runs are proved there.
`Server`, `Gatherings`, `Prudp`, `Kerberos`, `Career`, `SparkStats` and `Browse` hold the code in its own form:
classes whose methods change fields in place, loops over participants and bytes, a buffer patched in place. Each
such method is proved to do exactly what the machine, or a reference reading of the bytes, says; `Server.LobbyServer.RunAll`
ties whole runs of the objects to whole runs of the machine.

| file | what it covers |
|---|---|
| `Bytes`, `Option`, `Numbers`, `Floats`, `RmcTypes` | little-endian fields, float words, writers and cursor |
| `RmcCodec` | message framing |
| `SparkStats`, `Career`, `Leaderboard`, `MatchReply` | statistics lists, both upload parsers, tables and transactions, ranking and paging, the answer to a report |
| `SparkGame`, `Browse`, `Filters` | the lobby blob, its in-place rendering, search and the two-section reply, from a request's bytes to a reply's |
| `Kerberos`, `Connections`, `Transport`, `Prudp` | tickets and handshake, connection objects, reassembly, dispatch |
| `Packets`, `Dispatch`, `Handshakes` | the same told by packets and messages alone: bodies, answers, connections coming up and going |
| `Lobbies`, `Machine` | the registry and all lobby handlers as functions on values |
| `Gatherings`, `Server` | the same as mutable objects, proved equal step by step |
| `Requests`, `Rematch` | what each lobby request does, read off the states before and after; reports and the next match |
| `Invariants`, `Batch`, `Ending`, `Snapshots`, `Fires` | the invariant of every step; the end-of-match batch |
| `Orphans`, `Roster`, `RosterRuns` | connections and client rosters |
| `Seats`, `Party`, `Txns`, `Replies`, `Saves`, `MatchLog` | seats and hosts, runs that fill a lobby, transaction ids, store-and-serve |

Assumptions: RC4 is exclusive-or with a stream the key determines, HMAC (section 2 of RFC 2104) and MD5 are any
functions with 16-byte results, random bytes are parameters. Any database write may fail, and the ranking query; other
reads do not. A float is its 32-bit word. Handlers are any functions; `Transport.OneResponseEach` asks of their
responses to requests a frame can carry that a frame can carry them too, as it does if they repeat the request's call
id and method number (`Transport.OwnCallIdAnswers`). The 30 s and 90 s limits are steps that may happen at any time. Everything runs on one event loop,
so each handler is one step. Text is the bytes of its UTF-8 form, except station URLs in `Machine`, which are opaque.

## What does not hold, and when

- The m=12 replies of a player are numbered 1, 2, 3, ... without a gap if and only if no upload that raises late
  comes before one that is answered (`Replies.RepliesWithoutGaps`). Whether an upload raises late can be read off its
  bytes (`Replies.RaisesLate`): the handler takes the number, because it got past the rows of the upload, and then one
  of slots 14, 58, 59 and 84, which the log line converts to integers (protocols/game.py:943-955), is NaN or infinite.
  A map slot that is not finite raises earlier, before the number is taken, and leaves no gap.
  `Replies.LateRaiseLeavesGap` and `Replies.NanRaisesLate` give the run.
- What clients were told about a lobby does not always match the server's list: both ports serve the lobby protocols,
  and a membership request on the authentication port pushes to that port's table. `Roster.KeepsRostersIff` says for
  any step, and `RosterRuns.RostersAgreeIff` for whole runs, exactly when the two stay in agreement; while everybody is
  connected on the secure port, an admitted join keeps it if and only if it comes through the secure port, and a leave
  if and only if it does or nobody stays (`RosterRuns.JoinNeedsSecurePort`, `RosterRuns.LeaveNeedsSecurePort`).
  `RosterRuns.AuthPortJoinIsUntold` gives a run.
- A roster push is not made when a player is removed by a disconnect, although the module comment of
  state/gatherings.py:14-15 says the host learns of it by the next push: the player stays on every other client's
  roster (`RosterRuns.DroppedStayOnRosters`, for any run and any lobby; `RosterRuns.GuestDropIsUntold` gives the run).
- QuickMatch does not look at the cap of four players. An eligible lobby admits the caller if and only if it is not
  full (`Seats.EligibleAdmits`); from four public slots on, the run of `Seats.FullLobbyIsOffered` ends with a full
  lobby offered to a fifth player whom it refuses.

Where comments and code disagree, the code is modelled: the CONNECT acknowledgement is in the clear although
protocols/secure_connection.py:18-20 and server.py:78-80 say it is encrypted; the ticket is opened with the key of the
authentication service, not of `SERVER_PID`.

## Model

| member | source | states |
|---|---|---|
| Server.LobbyServer.RunAll | ghostbusters_server/server.py:56-79 | any sequence of steps taken by the mutable objects ends in the state the machine's run ends in, so every statement about runs holds of the objects |
| Server.LobbyServer.Step | ghostbusters_server/prudp/server.py:77-90 | one packet, request, close or expiry changes exactly what one machine step changes |
| Server.LobbyServer.Handle | ghostbusters_server/protocols/game.py:1153-1168 | each lobby request reaches its handler, whose whole effect is the machine's |
| Requests.StrangersDoNothing | ghostbusters_server/prudp/server.py:129-133 | a request over no established connection changes nothing |
| Server.LobbyServer.constructor | ghostbusters_server/state/gatherings.py:290-294 | the server starts with no connections, lobbies, timers or rows |
| Server.LobbyServer.HandleSyn | ghostbusters_server/prudp/server.py:92-99 | a SYN replaces the table entry by a new connection and runs no close hook |
| Server.LobbyServer.HandleConnect | ghostbusters_server/prudp/server.py:101-127 | only a fresh connection with the right signature is established; a pid is set on the secure port by a verified ticket only |
| Requests.SynStartsAnew | ghostbusters_server/prudp/server.py:92-99 | a SYN gives its remote a new connection, nobody's, and changes nothing else |
| Requests.ConnectIdentifies | ghostbusters_server/prudp/server.py:101-127 | a CONNECT changes a connection exactly if it has the right signature and comes first, and says whose it is on the secure port only |
| Server.LobbyServer.HandleDisconnect | ghostbusters_server/prudp/server.py:175-188 | both close hooks run in order for any remote, then the entry goes; nobody is pushed to |
| Requests.DisconnectDrops | ghostbusters_server/prudp/server.py:175-188 | the lobbies owned from the remote are gone, no list names it, no other place changes, its entry of that port is forgotten, nobody is told |
| Server.LobbyServer.ReapIdle | ghostbusters_server/prudp/server.py:190-202 | reaping is a disconnect of each stale remote in turn |
| Requests.ReapDisconnects | ghostbusters_server/prudp/server.py:190-202 | reaping ends in the state a run of those disconnects ends in |
| Server.LobbyServer.CreateGathering | ghostbusters_server/protocols/game.py:656-669 | the caller's old lobby goes, a new one under a fresh id has the caller as its only participant |
| Requests.CreateReplaces | ghostbusters_server/protocols/game.py:656-669 | the caller's lobbies are gone, every other is as it was, and the new one is written out field by field |
| Server.LobbyServer.Admits | ghostbusters_server/protocols/game.py:706-730 | a join is admitted exactly if the host has URLs, the lobby is under its cap and the caller is invited or a public slot is left; `closed` plays no part |
| Server.LobbyServer.JoinGathering | ghostbusters_server/protocols/game.py:690-784 | an admitted join changes the list (a re-join keeps the old entry) and sends probes, the joiner to the others and everybody to the joiner, in that order; anything else changes nothing |
| Requests.JoinAddsCaller | ghostbusters_server/protocols/game.py:690-784 | a join of any four-byte-headed request is admitted exactly if the host has URLs, fewer than four are in and the caller is invited or fewer uninvited players than public slots are in; then the list, the probes, the inserts and the backfill are given one by one; otherwise nothing changes |
| Server.LobbyServer.LeaveGathering | ghostbusters_server/protocols/game.py:787-813 | the caller leaves the list and those who stay are told, unless it was not there |
| Requests.LeaveRemovesCaller | ghostbusters_server/protocols/game.py:787-813 | the list loses exactly the caller's entries, order kept, and each player who stays and can be reached is sent one erase |
| Server.LobbyServer.DestroyGathering | ghostbusters_server/protocols/matchmaking.py:51-79 | only the owner's call notifies the others and then removes the lobby |
| Requests.DestroyTellsEverybody | ghostbusters_server/protocols/matchmaking.py:51-79 | the owner's call sends each other reachable player one erase and removes the lobby; nobody else's call does anything |
| Server.LobbyServer.Broadcast | ghostbusters_server/protocols/notification.py:115-167 | exactly the reachable participants other than the subject are sent the event, and their number is returned |
| Server.LobbyServer.Backfill | ghostbusters_server/protocols/notification.py:179-227 | the remote of the joiner's own entry is sent one insert per participant, the joiner included |
| Server.LobbyServer.PushStats | ghostbusters_server/protocols/notification.py:236-306 | every reachable participant is sent its own transaction id and stored cash |
| Server.LobbyServer.PushLeave | ghostbusters_server/protocols/notification.py:309-315 | exactly the reachable participants other than the leaver are sent the erase |
| Server.LobbyServer.Seed | ghostbusters_server/protocols/game.py:971-977 | a snapshot of the roster is taken only when there is none, and empties the received set |
| Server.LobbyServer.CloseParticipation | ghostbusters_server/protocols/game.py:1043-1064 | the lobby is closed and its snapshot taken if missing |
| Requests.CloseTakesSnapshot | ghostbusters_server/protocols/game.py:1043-1064 | the lobby is marked and, exactly if it expects nobody, its players are taken down; no other lobby is touched |
| Server.LobbyServer.OpenParticipation | ghostbusters_server/protocols/game.py:1142-1150 | only the closed flag changes |
| Requests.OpenClearsFlag | ghostbusters_server/protocols/game.py:1142-1150 | the flag of the named lobby is cleared and nothing else changes |
| Server.LobbyServer.Record | ghostbusters_server/protocols/game.py:978-1001 | a report is recorded; a complete batch fires, an incomplete one has a timer |
| Server.LobbyServer.Attribute | ghostbusters_server/protocols/game.py:962-977 | a report counts for the first lobby, in registry order, that has the player, and for no other |
| Rematch.ReportLands | ghostbusters_server/protocols/game.py:943-1001 | a report that gets past the log line counts for the oldest lobby with the caller and no other: that lobby's batch is over if nobody is missing, else one report further and has its timer; an id is taken exactly if the rows can be computed |
| Server.LobbyServer.Fire | ghostbusters_server/protocols/game.py:1071-1106 | the timer is cancelled, the pushes go out with the ids and cash of the moment, the batch is cleared |
| Server.LobbyServer.CancelBatch | ghostbusters_server/protocols/game.py:1109-1122 | timer, snapshot and reports are cleared without a push |
| Server.LobbyServer.EndGame | ghostbusters_server/protocols/game.py:1018-1036 | the named lobby's batch, or the caller's own, is cancelled if there is one |
| Requests.EndGameEnds | ghostbusters_server/protocols/game.py:1018-1036 | from every reachable state the live lobby named, else the oldest with the caller, expects nobody, has no reports and no timer afterwards; a cancellation is logged exactly if it expected somebody or had a timer; no other lobby is touched |
| Rematch.NextMatchStartsAnew | ghostbusters_server/protocols/game.py:1109-1121 | after that, whatever happens short of a snapshot, the next close takes down exactly who is in the lobby then |
| Server.LobbyServer.OnTimeout | ghostbusters_server/protocols/game.py:1125-1139 | an expiry fires an incomplete batch with reports and otherwise only forgets the handle |
| Server.LobbyServer.Count | ghostbusters_server/protocols/game.py:943-1016 | a transaction id is taken, then the report is attributed and answered with it, or lost if the log line raises |
| Server.LobbyServer.Store | ghostbusters_server/protocols/game.py:931-939 | an upload is stored in one transaction before the id is taken; a row that cannot be computed raises with nothing changed |
| Server.LobbyServer.ReportStats | ghostbusters_server/protocols/game.py:921-1016 | a report parses both vectors, stores, counts and attributes as the machine does, and its answer is the entry with the cash read before the write, the uploaded cash and the id taken, or none where the handler raises |
| MatchReply.ReplyShowsMatch | ghostbusters_server/protocols/game.py:1002-1016 | in every run a report with parameters is answered exactly if it can be, and the client that looks its pid up in the answer finds the id it was given, the cash of its last saved upload and the cash of this one |
| Server.LobbyServer.RegisterEx | ghostbusters_server/protocols/secure_connection.py:142 | the connection's station URLs become the LAN candidates followed by the observed WAN one |
| Requests.RegisterKeepsOrder | ghostbusters_server/protocols/secure_connection.py:142 | the LAN candidates come first in their order, the WAN one last, and no other connection changes |
| Gatherings.Gathering.PublicRemaining | ghostbusters_server/state/gatherings.py:142-152 | counting the uninvited non-owners in a loop gives the slots left, at least 0 |
| Gatherings.Gathering.Drop | ghostbusters_server/state/gatherings.py:347-352 | exactly the matching participants go, order kept |
| Gatherings.Gathering.Admit | ghostbusters_server/state/gatherings.py:331-340 | an entry with the pid is kept and only its connection refreshed, otherwise a new entry goes to the end |
| Gatherings.GatheringRegistry.Create | ghostbusters_server/state/gatherings.py:296-317 | both dictionaries get the new lobby under the next id and the owner's old one is gone |
| Gatherings.GatheringRegistry.AddParticipant | ghostbusters_server/state/gatherings.py:319-340 | only the named lobby's list changes |
| Gatherings.GatheringRegistry.RemoveParticipant | ghostbusters_server/state/gatherings.py:342-352 | only the named lobby's list changes, and the result says whether it did |
| Gatherings.GatheringRegistry.RemoveParticipantByRemote | ghostbusters_server/state/gatherings.py:354-373 | every lobby not owned from the remote loses exactly its participants behind it |
| Gatherings.GatheringRegistry.SetClosed | ghostbusters_server/state/gatherings.py:375-383 | only the flag of the named lobby changes |
| Gatherings.GatheringRegistry.Destroy | ghostbusters_server/state/gatherings.py:385-392 | the lobby leaves both dictionaries, the owner's entry only if it names this lobby |
| Gatherings.GatheringRegistry.DestroyByOwnerRemote | ghostbusters_server/state/gatherings.py:412-422 | exactly the lobbies owned from the remote leave both dictionaries |
| Gatherings.GatheringRegistry.FindContaining | ghostbusters_server/protocols/game.py:962-966 | the first lobby in insertion order that has the player, none if none has |
| Lobbies.CreateConsistent | ghostbusters_server/state/gatherings.py:296-317 | creating keeps the two dictionaries mutually inverse and the order exact |
| Lobbies.DestroyConsistent | ghostbusters_server/state/gatherings.py:385-392 | so does destroying |
| Lobbies.CloseConsistent | ghostbusters_server/state/gatherings.py:354-373 | so do both close hooks; the surviving lobbies are those not owned from the remote, minus its participants |
| Lobbies.CloseErases | ghostbusters_server/state/gatherings.py:354-373 | after the hooks the remote is neither an owner nor a participant anywhere |
| Invariants.InvNext | ghostbusters_server/protocols/game.py:902-1150 | one step keeps consistent dictionaries, distinct participants within cap and slots, batches with reports exactly while their timer is pending, and timers that name only their own lobby or a dead id |
| Invariants.InvRun | ghostbusters_server/protocols/game.py:902-1150 | every reachable state satisfies all of that |
| Batch.NeverStalls | ghostbusters_server/protocols/game.py:971-1001 | in every run a lobby has reports exactly while its timer is pending, and then somebody it expects is missing |
| Batch.ReportsConserved | ghostbusters_server/protocols/game.py:962-983 | reports held are exactly those attributed since the last fire or cancellation, and every fire in the log had the reports and the reason it should |
| Batch.TimersNeverCross | ghostbusters_server/protocols/game.py:1125-1139 | an expiry fires the one batch that armed it, with that batch's reports, or does nothing because the id is dead |
| Batch.OpenBatchProgress | ghostbusters_server/protocols/game.py:990-1001 | after any step an open batch is still the same with no report lost, or has just been fired or cancelled, or its lobby is gone |
| Ending.EveryBatchEnds | ghostbusters_server/protocols/game.py:990-997 | whatever happens before a batch's timer expires, afterwards the lobby is gone or one more batch has ended |
| Snapshots.SnapshotsAreMembers | ghostbusters_server/protocols/game.py:1056-1058 | a lobby's participants are who created or joined it and neither left nor was dropped, and every snapshot lists exactly the members of its time |
| Fires.FiresReachEveryone | ghostbusters_server/protocols/notification.py:290-306 | in every run a step that fires a batch sends each participant of the lobby exactly one stats push with its own id and cash if its remote is up on the firing port and none if not, and sends no other |
| Fires.OnlyFiresPush | ghostbusters_server/protocols/game.py:1071-1106 | a stats push is only ever sent by a fire of its lobby earlier in the same step |
| Orphans.EveryLobbyIsConnected | ghostbusters_server/prudp/server.py:175-202 | in every run each owner's and participant's remote is a key of a connection table |
| Orphans.LobbiesEndWithTheirHost | ghostbusters_server/state/gatherings.py:385-422 | a lobby disappears in a step exactly if its host creates another, destroys it, or its host's remote goes away |
| Orphans.IdsNeverReused | ghostbusters_server/state/registry.py:20-22 | an id that was handed out and is dead stays dead |
| Roster.KeepsRostersIff | ghostbusters_server/protocols/notification.py:115-227 | a step of any kind keeps what every participant was told in agreement with the server's list if and only if each participant concerned can be reached on the secure port |
| RosterRuns.RostersAgreeIff | ghostbusters_server/protocols/notification.py:115-227 | a whole run keeps that agreement in all its states if and only if each of its steps does |
| RosterRuns.JoinNeedsSecurePort | ghostbusters_server/server.py:58-64 | while everybody is connected on the secure port, an admitted join keeps the agreement if and only if it comes through the secure port |
| RosterRuns.LeaveNeedsSecurePort | ghostbusters_server/protocols/notification.py:309-315 | and a leave if and only if it does or nobody stays |
| RosterRuns.SecureRunsAreHeard | ghostbusters_server/server.py:58-64 | a run whose membership requests all come through the secure port keeps it throughout |
| RosterRuns.RostersReplicated | ghostbusters_server/protocols/notification.py:115-227 | after any such run, folding the inserts and erases a participant was sent gives the server's list plus exactly the players a disconnect dropped and who are not back |
| RosterRuns.DroppedStayOnRosters | ghostbusters_server/state/gatherings.py:354-373 | whenever a participant's remote goes away, it leaves the server's list and stays on the roster of every participant behind another remote |
| RosterRuns.GuestDropIsUntold | ghostbusters_server/prudp/server.py:175-188 | a host creates, a guest joins and disconnects: the host's roster still holds the guest |
| RosterRuns.AuthPortJoinIsUntold | ghostbusters_server/server.py:58-64 | a run in which a join on the authentication port is admitted and the host is never told |
| Seats.SlotsAreExact | ghostbusters_server/state/gatherings.py:142-156 | in every run the clamp of the slot count never acts, lobbies hold at most four distinct players, each host one lobby |
| Seats.OneLobbyPerHost | ghostbusters_server/state/gatherings.py:290-317 | in every run the owner map and the id map are mutually inverse |
| Seats.HostStaysFirst | ghostbusters_server/protocols/game.py:787-813 | in every run a host that has not left by request is participant 0, at the remote it created the lobby from |
| Seats.QuickMatch | ghostbusters_server/protocols/game.py:836-857 | the loop returns the oldest eligible lobby, none exactly if there is none |
| Seats.AnswerQuickMatch | ghostbusters_server/protocols/game.py:816-876 | the reply is the two-section list of the oldest eligible lobby, or of no lobby if none is eligible |
| Filters.QuickMatchOffers | ghostbusters_server/protocols/game.py:836-857 | in every reachable state the choice is the oldest lobby that is not the caller's, has host URLs, is open with a public slot left and has the wanted ranked byte |
| Seats.EligibleAdmits | ghostbusters_server/protocols/game.py:719-730 | an eligible lobby admits the caller exactly if it is not full, which it never is with at most three public slots |
| Seats.FullLobbyIsOffered | ghostbusters_server/protocols/game.py:838-857 | for every blob with four or more public slots: a host creates, three guests join, and the lobby is eligible for a fifth connected player and refuses it |
| Replies.RepliesWithoutGaps | ghostbusters_server/protocols/game.py:943-955 | in every run a player's replies are numbered 1, 2, 3, ... exactly if no upload of its that raises late, as its bytes tell, comes before one that is answered |
| Replies.RaisesLateIff | ghostbusters_server/protocols/game.py:946-954 | an upload raises late exactly if it takes an id and one of its slots 14, 58, 59, 84 is infinite or not a number |
| Replies.TakesIdIff | ghostbusters_server/protocols/game.py:931-944 | an upload takes an id exactly if it has parameters and is not an instant one with a map slot that is infinite or not a number |
| Replies.LateRaiseLeavesGap | ghostbusters_server/protocols/game.py:943-955 | a stored upload whose log line raises makes the next reply, the only one, carry id 2 |
| Replies.NanRaisesLate | ghostbusters_server/protocols/game.py:946-954 | a NaN in slot 14 makes such an upload |
| Txns.PushedIdsRise | ghostbusters_server/protocols/notification.py:265-288 | ids pushed to a player never go down below 2^32, and go up between two fires of a lobby if it reported in a batch between |
| Saves.ServedIsLastSaved | ghostbusters_server/db/career.py:28-70 | in every run slot i of a player's last stored upload is served at i+5 for cat 101 and i-56 for cat 102 |
| Saves.UploadComesBack | ghostbusters_server/protocols/game.py:395-427 | a client that finds its pid in the bytes of an m=9 reply reads its last stored upload there |
| Saves.ReportStoresOrNot | ghostbusters_server/protocols/game.py:271-291 | a report is stored whole in both tables or changes neither |
| Saves.OthersDoNotMatter | ghostbusters_server/db/career.py:63-70 | over any run in which a player does not report, both tables keep exactly the player's rows, and every category serves the player the same |
| Career.Database.Persist | ghostbusters_server/protocols/game.py:271-291 | whichever statement fails, or if a value is NaN or an integer beyond 64 bits, nothing is written; otherwise every row is |
| Career.UnpackPack | ghostbusters_server/db/career.py:28-37 | unpacking a packed vector gives it padded or cut to 122 slots |
| Career.BoardsLeaveCareer | ghostbusters_server/db/career.py:119-129 | board rows of one player touch no career and no other player's rows |
| Career.UserStats | ghostbusters_server/protocols/game.py:419-427 | the loop writes one entry per requested pid, each the served vector of that pid |
| Career.AnswerUserStats | ghostbusters_server/protocols/game.py:120-184 | any request is answered for the category and the pids it names |
| Career.AskedIsServed | ghostbusters_server/protocols/game.py:102-184 | a client that asks for some nonzero pids finds, in the answer to the bytes it sent, each of them with the vector the server keeps for it in that category |
| Career.ServedInOrder | ghostbusters_server/protocols/game.py:419-427 | the reply reads back as exactly one entry per pid in the order asked, and nothing behind them |
| Career.BoardIsServed | ghostbusters_server/protocols/game.py:254-268 | after an instant match is stored, the board of each mode-block serves the block's cash and statistic bit for bit and its map without a fraction, a whole map id bit for bit |
| Floats.TruncatedTwice | ghostbusters_server/db/career.py:84-85 | a slot kept as an integer and served as a float is the slot without its fraction, and storing it again changes nothing |
| Floats.FiniteIff | ghostbusters_server/protocols/game.py:254-268 | a float is finite, infinite or not a number by its word without the sign |
| Career.ParseRequestedPids | ghostbusters_server/protocols/game.py:102-117 | parsing undoes the client's spelling: a request spelled for some pids, whatever follows them, yields those pids in order without the zeros |
| Career.NonZerosAre | ghostbusters_server/protocols/game.py:117 | exactly the nonzero words, in their order |
| Career.ServedReadsBack | ghostbusters_server/protocols/game.py:395-427 | reading the reply finds each requested pid with the vector the server keeps for it |
| Career.ServedIsSaved | ghostbusters_server/protocols/game.py:395-416 | both frames serve the saved slots at their documented places |
| Career.CareerFrames | ghostbusters_server/protocols/game.py:395-416 | both frames of a stored career, slot by slot, zeros included |
| Career.NewcomerFrames | ghostbusters_server/protocols/game.py:215-242 | a player who never uploaded is served version 1002.0 and zeros |
| Career.BoardFrames | ghostbusters_server/protocols/game.py:153-184 | from category 201 on the stored row or zeros at slots 5 to 7, for any other category zeros; transaction id 0 |
| Career.RowsIff | ghostbusters_server/protocols/game.py:254-268 | the rows cannot be computed exactly if an instant upload has a map slot that is infinite or not a number |
| Career.InstantBoards | ghostbusters_server/protocols/game.py:254-268 | an instant upload writes the six blocks of vec1 to boards 303, 302, 304, 307, 305, 306 and the career cash to 301, and no other board |
| Career.CampaignBoards | ghostbusters_server/protocols/game.py:254-268 | a campaign upload writes slot 5 of vec1 to board 201 only, a shorter one no board |
| Career.WritesIff | ghostbusters_server/protocols/game.py:271-291 | an upload is written exactly if the write succeeds, no cash or statistic is not a number and every map id fits 64 bits |
| SparkStats.WriteEntry | ghostbusters_server/protocols/game.py:356-380 | appends exactly one entry whose sparse slots are made dense with zeros |
| SparkStats.ParseSenderVec0 | ghostbusters_server/protocols/game.py:303-325 | on every byte string the walker returns vec0 of the entry a fully checked reading finds |
| SparkStats.ParseSenderVec1 | ghostbusters_server/protocols/game.py:328-353 | so does the other for vec1, although it checks the other vector |
| SparkStats.ParseSenderVectors | ghostbusters_server/protocols/game.py:303-353 | on every byte string both succeed or neither does, on the same entry |
| SparkStats.EntryRoundTrip | ghostbusters_server/protocols/game.py:356-380 | a written entry reads back and the next one starts right after it |
| SparkStats.EntriesRoundTrip | ghostbusters_server/protocols/game.py:356-380 | a written list reads back entry by entry: pid, name, transaction id and both vectors |
| SparkStats.DecimalReads | ghostbusters_server/protocols/game.py:368 | the digits behind PID stand for the pid, without leading zeros |
| SparkStats.UploadRoundTrip | ghostbusters_server/protocols/game.py:303-353 | from any written upload the first entry with the sender's pid is found, none if none has it |
| Leaderboard.RankedForCategory | ghostbusters_server/db/career.py:88-102 | from any table the query computes a ranking: every row of the category with cash above 0 once, by descending cash, and no other |
| Leaderboard.RankingsAgree | ghostbusters_server/db/career.py:88-102 | two answers to the ranking query differ only in players of equal cash |
| Leaderboard.RowsAreNumbered | ghostbusters_server/protocols/game.py:458-461 | in both views the row numbered k is the k-th ranked player |
| Leaderboard.PagesCover | ghostbusters_server/protocols/game.py:502-503 | consecutive Global pages of any size put together are the whole ranking |
| Leaderboard.AroundSelfShowsSelf | ghostbusters_server/protocols/game.py:494-501 | the window shows a ranked requester exactly if count exceeds the rows before it, at most three |
| Leaderboard.LeaderboardQuery | ghostbusters_server/protocols/game.py:430-480 | the reply is the requested page, with absolute numbers, of a ranking of the requested category in the stored table, or of nothing if the query raises |
| Leaderboard.ReplyShowsRanks | ghostbusters_server/protocols/game.py:430-503 | in both views the client reads back exactly the rows asked for, each with its own number in the whole ranking at vec1[0] and as transaction id, its board's columns, the player's rank, its name, and zeros elsewhere |
| Leaderboard.PositiveIff | ghostbusters_server/db/career.py:100 | a row is ranked if its cash is above zero: not negative, not a NaN, not 0 |
| Browse.PutWord | ghostbusters_server/state/gatherings.py:228-229 | a four-byte store changes those four bytes only |
| Browse.Render | ghostbusters_server/state/gatherings.py:224-248 | the patched copy is the host's blob but for three windows, cut one byte before the end of its settings |
| Browse.RenderForBrowse | ghostbusters_server/state/gatherings.py:207-248 | the same with the number of joiners |
| Browse.RenderJoinEmbed | ghostbusters_server/state/gatherings.py:174-205 | the same with the number of participants |
| Browse.OverlayFields | ghostbusters_server/state/gatherings.py:227-248 | the windows are disjoint, read back id, owner and count, and spare the length of the display name |
| Browse.RenderUrlGroup | ghostbusters_server/state/gatherings.py:250-287 | id, count and qStrings, the blob's own URLs without registered ones, and an exception for a URL that is too long |
| Browse.SearchGatherings | ghostbusters_server/protocols/game.py:603-653 | the reply lists exactly the open lobbies that pass the filter, or raises where the filter does |
| Browse.SearchShows | ghostbusters_server/protocols/game.py:603-653 | from request to parsed reply: entry k is the k-th lobby, in registry order, that passes the criteria of the request, with its struct and its host's URLs under one id |
| Filters.SpelledParses | ghostbusters_server/protocols/game.py:506-543 | each text of a request comes out of the parser at its meaning, whatever follows |
| Filters.OtherCountsAskNothing | ghostbusters_server/protocols/game.py:530-532 | a request with a slot count other than 7 has no criteria |
| Filters.ClipIs | ghostbusters_server/protocols/game.py:516-525 | the lenient reader takes what there is of a slice |
| Filters.StripNulsIs | ghostbusters_server/protocols/game.py:518 | and drops exactly the NULs a text ends in |
| Filters.MatchIff | ghostbusters_server/protocols/game.py:554-600 | settings pass exactly if the bytes and words at 0x00, 0x01, 0x21, 0x25 and 0x29 have the wanted values, and raise exactly at the first text that is not a number with everything before it fitting |
| Filters.RaisesIff | ghostbusters_server/protocols/game.py:569-600 | a search raises exactly if it comes to a lobby on offer that does |
| Filters.SearchFinds | ghostbusters_server/protocols/game.py:603-653 | from the request's texts to the reply's lobbies: in registry order exactly those on offer whose settings meet every criterion spelled, each struct byte by byte |
| Filters.EmbedTells | ghostbusters_server/state/gatherings.py:174-205 | the struct in a join's reply counts everybody, owner and id written in, all other bytes the host's |
| Filters.TailGroup | ghostbusters_server/state/gatherings.py:250-287 | a host without registered URLs is shown with what follows the settings in its blob |
| Filters.GroupRaisesIff | ghostbusters_server/state/gatherings.py:250-287 | with registered URLs writing the group raises exactly if one of them or the id is too long for its prefix |
| Filters.ShortStructs | ghostbusters_server/state/gatherings.py:224-248 | a blob without readable settings is shown whole, with id and owner written in if they fit |
| Browse.ReplyRoundTrip | ghostbusters_server/protocols/game.py:637-646 | parsing the reply, with struct lengths taken from their display names, gives back every struct and URL group in order |
| Browse.ReplyAligned | ghostbusters_server/protocols/game.py:637-646 | struct i and group i are of lobby i and carry the same id |
| Browse.ListedStillMatch | ghostbusters_server/protocols/game.py:569-600 | a lobby is listed exactly if it is open and passes, and its returned struct still satisfies the filter |
| RmcTypes.QStringRoundTrip | ghostbusters_server/rmc/types.py:31-34 | a written qString that fits its prefix reads back, and the cursor lands after it |
| RmcTypes.Reader.ReadQString | ghostbusters_server/rmc/types.py:70-75 | the cursor reads what is there; on underflow it stays after the length if that could be read, else where it was |
| RmcTypes.ByteBuffer.WQString | ghostbusters_server/rmc/types.py:31-34 | appends length, text and NUL |
| RmcTypes.ByteBuffer.WQBuffer | ghostbusters_server/rmc/types.py:37-39 | appends length and bytes |
| RmcCodec.DecodeEncode | ghostbusters_server/rmc/codec.py:50-109 | decoding undoes encoding exactly for messages whose fields are in range |
| RmcCodec.EncodeDecode | ghostbusters_server/rmc/codec.py:50-109 | encoding undoes decoding exactly for canonical frames, which every decodable Request is |
| RmcCodec.EncodeInjective | ghostbusters_server/rmc/codec.py:88-109 | different messages in range have different frames, across all kinds |
| Kerberos.DeriveUserKey | ghostbusters_server/crypto/kerberos.py:55-61 | the loop hashes the password 65000 + pid mod 1024 times |
| Kerberos.Rc4Twice | ghostbusters_server/crypto/kerberos.py:82-87 | encryption is its own inverse |
| Kerberos.XorBits | ghostbusters_server/crypto/kerberos.py:82-87 | a bit of the result is set exactly if the two bits differ |
| Kerberos.UnsealIffSealed | ghostbusters_server/crypto/kerberos.py:66-79 | a box opens to a text exactly if it is that text sealed under the key |
| Kerberos.CipherOpens | ghostbusters_server/crypto/kerberos.py:92-125 | the client gets session key, target and ticket out of its cipher |
| Kerberos.TicketIff | ghostbusters_server/crypto/kerberos.py:134-144 | a ticket yields a key and pid exactly if it was sealed for the service around them |
| Kerberos.ReqdIff | ghostbusters_server/crypto/kerberos.py:147-152 | a request yields its fields exactly if it was sealed under the session key with them |
| Kerberos.SplitIff | ghostbusters_server/protocols/secure_connection.py:48-59 | the CONNECT payload splits exactly if it is two length-prefixed parts, the first not empty |
| Kerberos.HandleConnectAck | ghostbusters_server/protocols/secure_connection.py:42-72 | the connection gets key and pid only after both parts are verified, otherwise nothing changes |
| Kerberos.VerifyIff | ghostbusters_server/protocols/secure_connection.py:48-69 | the handshake succeeds exactly for a ticket and a request sealed accordingly |
| Kerberos.TicketToConnect | ghostbusters_server/crypto/kerberos.py:92-152 | any issued 98-byte cipher lets its client prove its session key, pid and check value |
| Handshakes.ConnectOnWire | ghostbusters_server/prudp/server.py:101-127 | a completing CONNECT establishes its connection in any case; a proven one gives it the ticket's key and pid and is answered [4][check + 1], any other leaves it anonymous and is answered with nothing |
| Handshakes.TicketToToken | ghostbusters_server/crypto/kerberos.py:92-165 | from an issued 98-byte cipher to the eight bytes on the wire: 4 and the client's check value plus one, and the connection carrying exactly its key and pid |
| Handshakes.EstablishedIff | ghostbusters_server/prudp/server.py:101-127 | a connection becomes established exactly by a CONNECT for it with its signature while it waits for one |
| Handshakes.TableIff | ghostbusters_server/prudp/server.py:92-99 | the table names a connection for a remote exactly from its SYN to its disconnect or reaping, and a SYN makes a new one |
| Handshakes.OtherPackets | ghostbusters_server/prudp/server.py:77-90 | a ping is answered exactly if it asks for it; an unfitting CONNECT, an unknown kind and an unknown remote do nothing |
| Handshakes.DisconnectEnds | ghostbusters_server/prudp/server.py:175-188 | a disconnect is acknowledged and closes a known connection; the hooks run and the entry goes in any case |
| Handshakes.ReapEnds | ghostbusters_server/prudp/server.py:190-202 | the hooks of each stale remote run in turn, its entry goes, nothing is sent |
| Transport.TextConserved | ghostbusters_server/prudp/server.py:129-166 | in every run delivered bodies and kept fragments are the accepted plaintexts in order, one delivery per final fragment, reliable ids 1, 2, ..., n |
| Packets.BodiesOfPackets | ghostbusters_server/prudp/server.py:129-166 | in every run the pieces taken for a connection are the readable payloads of exactly the DATA packets that came for it while established, the bodies are those pieces cut after each packet numbered 0, and every reliable one was acknowledged in order |
| Transport.OneResponseEach | ghostbusters_server/rmc/dispatcher.py:42-99 | in every run each delivered request has exactly one response, on its connection and with its call id, with only pushes in between, each response answers one request, and no two share one |
| Transport.OwnCallIdAnswers | ghostbusters_server/rmc/dispatcher.py:42-80 | handlers that answer with the request's own call id and method number can always be answered for |
| Dispatch.DeliveredIsAnswered | ghostbusters_server/rmc/dispatcher.py:42-99 | in every run each delivered request goes to the handler of its protocol and method, and the messages after it are that handler's pushes, numbered on, and its response, or the error for a failed push, an exception or an unknown method |
| Dispatch.TimerSends | ghostbusters_server/rmc/dispatcher.py:87-99 | a timer's pushes go out in order, numbered on, up to the first that cannot be sent |
| Dispatch.PushIdsStayHigh | ghostbusters_server/rmc/dispatcher.py:87-99 | the server's own call ids never leave the range above 16 bits |
| Prudp.PRUDPServer.HandleSyn | ghostbusters_server/prudp/server.py:92-99 | a new connection object replaces the old one in the table |
| Prudp.PRUDPServer.HandleConnect | ghostbusters_server/prudp/server.py:101-127 | established in any case, identified only by a proof, acknowledged with its token or nothing |
| Prudp.PRUDPServer.HandleData | ghostbusters_server/prudp/server.py:129-166 | acknowledges, keeps or completes fragments, and hands up at most one body |
| Prudp.PRUDPServer.HandlePing | ghostbusters_server/prudp/server.py:168-173 | answers a ping that asks for it and changes nothing else shown |
| Prudp.PRUDPServer.HandleDisconnect | ghostbusters_server/prudp/server.py:175-188 | acknowledges a known connection; the hooks run and the entry goes for any remote |
| Prudp.PRUDPServer.ReapIdle | ghostbusters_server/prudp/server.py:190-202 | exactly the connections whose last activity is longer ago than the timeout are stale; each one's hooks run and its entry goes |
| Prudp.PRUDPServer.SendReliableData | ghostbusters_server/prudp/server.py:258-269 | the next id is used and counted up |
| Prudp.RMCDispatcher.SendRequest | ghostbusters_server/rmc/dispatcher.py:87-99 | a push takes the next call id, also when it cannot be encoded |
| Prudp.RMCDispatcher.OnPayload | ghostbusters_server/rmc/dispatcher.py:42-80 | undecodable bodies and responses are dropped, a request gets its one response |
| Prudp.RMCDispatcher.HandlePacket | ghostbusters_server/prudp/server.py:77-90 | every packet takes the objects where the transport machine takes the values |
| Connections.Connection.constructor | ghostbusters_server/prudp/connection.py:67-72 | a connection starts unestablished, anonymous, without URLs, with id 1 next and no fragments |

## Left out

- Server.LobbyServer.JoinGathering: the bytes of the reply (URLs, names, embedded struct) are not part of it; `Browse.RenderJoinEmbed` covers the struct.
- Server.LobbyServer.RegisterEx: parsing the request and rewriting the URLs are not modelled; the resulting URLs are parameters.
- Server.LobbyServer.Broadcast: the `text` field of an event (which station URL a peer is given) is not modelled.
- Server.LobbyServer.HandleConnect: takes the pid of a verified ticket as a parameter; what verifies is `Kerberos.VerifyIff`.
- Server.LobbyServer.ReapIdle: which connections are stale is a parameter; `Prudp.PRUDPServer.ReapIdle` finds them by their last activity.
- Prudp.PRUDPServer.HandleData: returns the body instead of calling the dispatcher itself; `Prudp.RMCDispatcher.HandlePacket` makes the call where the source does.
- Gatherings.Gathering.Admit: a participant is a value in its lobby's list, so sharing of one participant object between callers is not captured.
- Leaderboard.LeaderboardQuery: account names and the conversion of a rank to a float are parameters.
- Seats.QuickMatch: returns the lobby; `Seats.AnswerQuickMatch` writes the reply.
- Server.LobbyServer.Backfill: the `text` field (the participant's station URL) is not modelled.
- Browse.SearchGatherings: Python's conversion of filter text to integers is any partial function.
- Connections in `Machine` and `Server` are values named by the order of their creation; the objects of `Prudp` are a separate model of the same connections.
- PRUDP packet encoding: packets are records, the payload layer (RC4 and zlib) is one partial function.
- Invitations, friends, account information, UpdateParticipantInfo: constant replies or not wired.
- NAT probe choice (protocols/nat.py), DNS, sockets, signals, logging, accounts, migrations.
