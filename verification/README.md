# A verified model of the match engine, its netcode and its replays

The repository's Rust half is a deterministic two-player game that an authoritative server runs,
clients predict, and recordings replay. This project models three layers of it and proves what
they promise over whole runs.

**The match engine.** `Engine` gives one player's game as a value and every step on it: spawn,
fall, slide, lock, clear, flush the waiting weapons, spawn again, together with `Boards`,
`Pieces`, `PieceStream`, `Rng`, `Arsenals` and `Keyframes`. `VersusMatch` joins two games through
the relay. Each of these has its object counterpart in the source's own form: `FieldObject`,
`PieceMoves`, `StreamObject`, `Rng.Generator`, `BankObject`, `CursorObject`, `GameObject` and
`VersusObject` update fields and arrays in place and loop where the source loops, and every
method is proved to leave exactly the state the value-level step computes.

**The protocol.** `BoutLog` is the server's match with its input log, `Prediction` the client's
predictor, `Sessions` the two channels between them with reconnects, `BotSync` the bot that
drives a predictor. Their objects are `BoutObject`, `PredictorObject` and `BotObject`.

**The laws.** What is proved about the value-level steps holds of the objects by those contracts.

- `ReplayLaws`: the exported log reproduces the bout. `MirrorLaws`: mirrored totals, joint bazaar
  entry. `ChannelLaws`: the event channel is complete, the bazaar barrier freezes a match.
- `ResultLaws`: who wins, by the two games' phases. `RelayLaws`: whom a launch hits, and that
  what it queues, an exchanged board included, arrives at the next lock.
- `PredictionLaws`: a client in step stays in step, raises no false alarm, and a keyframe
  reconciles it. `AlarmLaws`: two disagreements in a row raise the alarm. `HashLaws`: what the
  lock hash covers. `SessionLaws`: the input stream invariant, and exactly when a reconnect keeps it.
- `BazaarLiveness`, `BazaarEscape`, `BotPlays`: a bot always gets its side out of the bazaar, and
  keeps playing outside it, on every infinite fair run from the start of a match.
- `WeaponLaws`, `WallLaws`, `HealthLaws`, `RunLaws`: the state every reachable game is in.
- `LineLaws`, `PieceLaws`, `Rng`, `LockBound`, `LedgerLaws`, `TaxLaws`, `KeyframeLaws`: row
  clearing as a filter, the rotation group, the generator's single cycle, the bound on a piece's
  life, the funds ledger and its tax, the keyframe codec.
- `ClockLaws`, `EffectLaws`, `ForceLaws`, `DrawLaws`: the falling piece and the plain lock, each
  weapon's work on a board, clearing under Force and in the bottle, and what is drawn.
- `VisitLaws`, `ShopKeyframes`, `TailLaws`: a bazaar visit of the hosted match, keyframes during
  one, and which inputs move a game they are replayed on. `GameRuns`: one game by itself.
- `LimitRuns`: runs that reach the limits of reconnects, of the input channel and of keyframes.
- `Ratings`: the TrueSkill 2 update over the reals.

A game's lockstep state (`Engine.Sim`) holds every field that two copies must agree on. The
display mirrors of the opponent's score and funds and the event queue stand beside it
(`Inputs.Player`): the step functions do not take them, so they cannot influence a step.

Where the code and its documentation disagree, the model follows the code:

- The Mondale tax is documented as leaving the player floor(70%) of a clear
  (rust/bt-core/src/game.rs:461-463, 1233). The code multiplies by the double nearest
  0.7 and truncates, so a clear of 90 keeps 62. `TaxLaws.KeptShare` says exactly which clears
  fall short: the multiples of ten with a power of two strictly between seven and eight tenths
  of them. The product is computed exactly and rounded to 53 bits, ties to even.
- rust/bt-server/src/bout.rs:350-352 says a reconnecting player's old inputs are gone because the
  channel was drained. The loop at rust/bt-server/src/main.rs:1054-1083 does not drain it while a
  side is away, so inputs that had reached the server's channel are applied to the new client's
  numbering. `SessionLaws.ReattachKeeps` gives the exact condition, an empty channel,
  `LimitRuns.ReconnectBreaks` a run that fails it, and `SessionLaws.StaleInputsLockOut` what
  happens then.
- rust/bt-server/src/bout.rs:222-225 and rust/bt-server/src/main.rs:1026-1030 say that admin
  grants are not recorded; `debug_grant` records them, and `ReplayLaws.ReplayReproduces` covers
  runs with grants.
- Restoring a keyframe refuses more than 1024 pending weapons, while taking one writes any
  number: `KeyframeLaws.RoundTripExactly`, and `LimitRuns.LongQueueReached` a run that gets there.

Weights of the piece stream are kept as the bit patterns of their doubles and compared exactly
with the draw, a multiple of 2^-48.

## Model

| member | source | states |
|---|---|---|
| ReplayLaws.ReplayReproduces | rust/bt-replay/src/lib.rs:551-581 | For every run of a bout in which each batch of inputs and grants is followed by a tick of the fixed length, playing the exported log to its end from the seeds (truncated to 32 bits) gives both games and the result of the live bout, although the player throws away events the bout keeps for its next pass. |
| ReplayLaws.LeftoversAreSilent | rust/bt-replay/src/lib.rs:571-573 | The events playback drops would have changed nothing but the display mirrors when relayed. |
| ReplayLaws.RelayTwins | rust/bt-core/src/versus.rs:315-381 | One relay pass over two matches that differ only in display mirrors and such leftovers keeps them so. |
| ReplayLaws.PlaybackFollows | rust/bt-replay/src/lib.rs:558-576 | Playback of any batched log stays in step with the bout that recorded it, tick by tick. |
| MirrorLaws.MirrorAfterTick | rust/bt-core/src/versus.rs:292-381 | A tick keeps each side's mirrored line total equal to the other's and both countdowns at 20 less the combined total mod 20, and leaves only silent announcements queued. |
| MirrorLaws.RunSettled | rust/bt-core/src/game.rs:684-695 | The mirrors and countdowns are right in every state a hosted match reaches by inputs, grants, reconnects and ticks. |
| MirrorLaws.JointEntry | rust/bt-core/src/game.rs:1390-1398 | A tick that starts unfrozen, with no clear of 20 lines or more, puts both sides in the bazaar or neither, exactly when the combined total crosses a multiple of 20. |
| MirrorLaws.RelayAllLaw | rust/bt-core/src/versus.rs:315-381 | What draining any list of events does to totals, countdowns, bazaar flags and queues of both sides. |
| ResultLaws.TheOneToppedOutLoses | rust/bt-core/src/versus.rs:292-381 | Over every run of a hosted match the result is 0 while neither game is over, 2 exactly when A's is, and 1 exactly when B's is and A's is not; A loses when both top out in one tick. |
| ResultLaws.EachIsToldSo | rust/bt-server/src/bout.rs:476-538 | Over every run each side's client is told 0 while both games run, 1 when it won and 2 when it lost, by which of the two games is over. |
| ResultLaws.TickTops | rust/bt-core/src/game.rs:352-369 | A tick ends a game exactly when it announces the end, and an ended game stands still. |
| RelayLaws.BoardsChangeHands | rust/bt-core/src/versus.rs:153-163 | After a Swap Meet each side's board as it stood at the launch is on the other side after that side's next lock, whatever play, ticks and effects come in between and however many weapons are pending: square by square when neither Bottle nor Upbyside is about, and else turned over or without the bottle's wall squares, with both weapons ended. |
| RelayLaws.WeaponsArrive | rust/bt-core/src/game.rs:1374-1387 | A weapon in its target's queue is in force after that side's next lock, whatever comes in between, and the queue is then empty; with Bottle or an exchanged board in the same lock only the latter. |
| RelayLaws.QueueGoesOff | rust/bt-core/src/game.rs:1374-1387 | Flushing a queue without Bottle turns on exactly its weapons, each for as long as its copies last together. |
| RelayLaws.TickLocks | rust/bt-core/src/game.rs:375-412 | A tick without a lock leaves weapons and events alone; any other is exactly one lock of the same game with its piece somewhere. |
| RelayLaws.LaunchHits | rust/bt-core/src/versus.rs:77-191 | Which of the two queues, boards in waiting, arsenals and balances a launch changes, by the launcher's mirror curse and the weapon; all else stays. |
| RelayLaws.TotalsTell | rust/bt-core/src/versus.rs:336-376 | A side's totals reach the other game, and its client without the funds; a stolen tax is paid to the other side. |
| RelayLaws.GrantGives | rust/bt-server/src/bout.rs:308-343 | A grant gives its side the weapon when the bank has room, and the funds, leaves the other side alone and records each part it gave. |
| TallyLaws.TickKept | rust/bt-core/src/game.rs:375-522 | A tick announces its final totals last, keeps the countdown right, and opens the bazaar exactly when it queues the opening. |
| TallyLaws.ReceiveKept | rust/bt-core/src/game.rs:684-695 | A received total moves the mirror to it and opens the bazaar exactly when the count of completed rounds grows. |
| ChannelLaws.OutboxComplete | rust/bt-core/src/versus.rs:315-395 | In a pass without Swap or Susan, folding a side's outbox in order over its game before the pass gives its game after the pass, but for the withheld funds mirror and the queue. |
| ChannelLaws.RelayKeepsFlags | rust/bt-core/src/versus.rs:77-191 | A relayed event changes no active weapon flag, so one mirror curse governs a whole pass. |
| ChannelLaws.BarrierHolds | rust/bt-server/src/bout.rs:275-291 | From a bazaar's opening until both sides have left, no sequence of ticks and client inputs changes either board, falling piece, score, lines, generator, timer, duration or pending queue. |
| ChannelLaws.BarrierReady | rust/bt-core/src/versus.rs:292-302 | After every tick of a settled match the barrier's premise holds: what is still queued cannot move the sim. |
| PredictionLaws.TickLocksOnce | rust/bt-core/src/game.rs:375-522 | A tick makes at most one lock, and the hash changes only with the count. |
| PredictionLaws.InputNeverLocks | rust/bt-replay/src/lib.rs:119-155 | No input and no relayed effect locks a piece. |
| PredictionLaws.LockstepAndNoFalseAlarm | rust/bt-netcode/src/lib.rs:167-325 | Between keyframe triggers, a client that applies the same inputs, ticks and events equals the server's game, and judging any hash the server has shown never asks for a resync. |
| AlarmLaws.DivergenceFound | rust/bt-netcode/src/lib.rs:283-325 | A client that has made two more locks since its last keyframe, through any inputs, ticks and effects, and is shown another hash for each of the two asks for a resync exactly at the second. |
| AlarmLaws.TwoDisputesAlarm | rust/bt-netcode/src/lib.rs:306-325 | For any ring, two different locks in it judged in a row, neither judged before and both with another hash, raise the alarm at exactly one of the two: the second when no mismatch was counted, else the first. |
| AlarmLaws.AgreementRestarts | rust/bt-netcode/src/lib.rs:313-316 | A matching hash starts the count anew, so the next disagreement is a first one. |
| AlarmLaws.NothingToJudge | rust/bt-netcode/src/lib.rs:306-312 | A lock outside the ring, or judged last, changes nothing. |
| AlarmLaws.RemembersEight | rust/bt-netcode/src/lib.rs:283-292 | Through any inputs, ticks and effects a client holds its last eight locks since the keyframe, without gaps. |
| AlarmLaws.KeyframeStartsClean | rust/bt-netcode/src/lib.rs:207-250 | After a keyframe no mismatch is counted and the locks are in order, as these laws need. |
| AlarmLaws.VisitEnds | rust/bt-netcode/src/lib.rs:207-250 | A frame without a keyframe releases the client's own game from the bazaar exactly when it shows the visit's end, changes nothing else of it, and drops the acknowledged inputs. |
| HashLaws.HashCovers | rust/bt-core/src/game.rs:290-326 | Two games feed the lock hash the same bytes if and only if they agree on board, score, lines, arsenal, active flags, durations, pending weapons, waiting board and generator. |
| HashLaws.OneByteShows | rust/bt-core/src/game.rs:191-199 | Two games whose hashed bytes differ in one place only never share a hash: each FNV step is one to one in the hash so far and in the byte. |
| PredictionLaws.TailReaches | rust/bt-netcode/src/lib.rs:351-359 | Replaying an unacknowledged tail on a copy of the server's game reaches what the server reaches by taking the same inputs, and the acknowledgement grows by their number. |
| PredictionLaws.KeyframeReconciles | rust/bt-netcode/src/lib.rs:207-250 | After a keyframe at any acknowledgement of a match in which nobody shops, the queue is the rest of the tail, the client is what the server becomes once it takes that tail, and divergence detection starts clean. |
| ShopKeyframes.KeyframeInBazaar | rust/bt-netcode/src/lib.rs:351-359 | The same while somebody shops. With its own side shopping the client ends where the server will if and only if the tail holds no leave. With the other side alone shopping the server stands still; the client agrees when no input of the tail has its guard met in the keyframe's game, and, with at most one sideways move or turn in the tail, only then. |
| ShopKeyframes.DropsPart | rust/bt-netcode/src/lib.rs:351-359 | They do part: a keyframe with one hard drop unacknowledged, while the other side alone shops. |
| ShopKeyframes.ReachableReady | rust/bt-server/src/bout.rs:259-291 | Every game of every hosted match is sound as that needs. |
| TailLaws.OneMoves | rust/bt-core/src/game.rs:530-666 | A client's input moves a game out of the bazaar exactly when its own guard holds: a move or turn to another pose, a drop or launch to a state from which no input leads back. |
| TailLaws.TailMoves | rust/bt-netcode/src/lib.rs:351-359 | A replayed tail in which no guard is met changes nothing, and one with at most one move or turn changes nothing only then. |
| SessionLaws.StreamHolds | rust/bt-server/src/main.rs:959-1160 | In every interleaving of sends, arrivals, server turns, frames, drops and reconnects that find the server's queue empty, the acknowledgement and the inputs in flight together are the client's sequence number, and the unacknowledged list is exactly the inputs above the last acknowledgement seen. |
| SessionLaws.StepKeeps | rust/bt-netcode/src/lib.rs:167-250 | Each single step of the link keeps that invariant. |
| SessionLaws.ReattachKeeps | rust/bt-server/src/bout.rs:353-355 | A reattached client's stream is sound if and only if the server's input queue is empty. |
| LimitRuns.ReconnectBreaks | rust/bt-server/src/main.rs:1038-1083 | From the start of any match, one input that has reached the server's channel, a lost socket and a reconnect break the stream. |
| SessionLaws.StaleInputsLockOut | rust/bt-server/src/bout.rs:259-274 | One stale input left in the queue makes the server refuse every new input numbered up to its own. |
| SessionLaws.ArrivalKeeps | rust/bt-server/src/main.rs:1529-1541 | An arrival keeps the stream sound if and only if the server's channel, which holds 256 inputs of both seats, has room for it, or nothing arrives. |
| SessionLaws.RefusedArrival | rust/bt-server/src/main.rs:1529-1541 | An input that the full channel drops breaks the stream. |
| LimitRuns.FullChannelBreaks | rust/bt-server/src/main.rs:1529-1541 | From the start of any match, 257 inputs that arrive before the server takes one break the stream. |
| SessionLaws.NoSilentGap | rust/bt-bot/src/sync.rs:82-83 | With a sound stream and nothing in flight the server has acknowledged everything sent: a bot never waits for an acknowledgement that cannot come. |
| BazaarEscape.BotEscapesBazaar | rust/bt-bot/src/main.rs:716-789 | On every infinite fair run from the start of a match, from every moment on, the server leaves the bot's bazaar or the match ends. |
| BazaarEscape.MoveProgress | rust/bt-bot/src/sync.rs:79-91 | While the bot is stuck in its bazaar no move raises the rank, and the one helpful kind of move lowers it. |
| BazaarEscape.EscapeFrom | rust/bt-bot/src/main.rs:743-788 | From any state of the invariant a fair run leaves the bazaar, by induction over the rank. |
| BazaarEscape.EveryLeaveLands | rust/bt-bot/src/main.rs:855-872 | Whenever the server takes a leave from the bot, the bot's side is in its bazaar, leaves it, and nothing else is in flight. |
| BazaarEscape.MoveInv | rust/bt-server/src/main.rs:959-1160 | The protocol invariant survives every move of bot, channels, server and the other player. |
| BazaarLiveness.VTickAnnounces | rust/bt-core/src/versus.rs:292-381 | A side that enters its bazaar during a tick has a keyframe asked for now, or the opening queued for the next pass. |
| BotSync.Decide | rust/bt-bot/src/sync.rs:79-91 | Exactly when each decision is taken: it ends when told so or the server is silent, waits while an input is unacknowledged, shops once a visit when server and local game both have the bot in the bazaar, and plays when and only when nothing is unacknowledged and no bazaar flag is set. |
| BotPlays.BotKeepsPlaying | rust/bt-bot/src/main.rs:716-789 | On every infinite fair run from the start of a match, from the moment nobody shops any more while the match is on, every moment is followed by a drive that plays. |
| BotPlays.DrivePlays | rust/bt-bot/src/main.rs:790-836 | With everything acknowledged and no bazaar flag set, such a drive advances the bot's own game by one 16 ms tick and sends the plan; any other drive leaves its clock, board, piece and generator alone. |
| BotPlays.DriveShops | rust/bt-bot/src/main.rs:855-872 | A shopping drive sends exactly the purchases its game accepts one after the other, in order, then one leave, and is not repeated. |
| KeyframeLaws.RoundTripExactly | rust/bt-core/src/game.rs:902-1179 | Restoring a snapshot rebuilds every field if and only if at most 1024 weapons are pending; otherwise the keyframe is refused and nothing changes. |
| KeyframeLaws.RoundTrip | rust/bt-core/src/game.rs:998-1179 | A snapshot of a representable game is accepted over any game and rebuilds every field. |
| LimitRuns.LongQueueReached | rust/bt-core/src/game.rs:1094-1097 | From the start of any match, n grants, n launches and one tick leave n weapons waiting on the opponent; for n above 1024 that game's own keyframe is refused. |
| KeyframeLaws.PrefixFree | rust/bt-core/src/game.rs:1446-1465 | No proper prefix and no proper extension of an accepted keyframe is accepted. |
| KeyframeLaws.GridBack | rust/bt-core/src/game.rs:834-860 | Importing an exported board gives the board back, square by square. |
| Cells.DecodeEncode | rust/bt-core/src/cell.rs:153-177 | Decoding the four values of a cell or an empty square gives it back. |
| RunLaws.ReachableRoundTrip | rust/bt-core/src/game.rs:902-1179 | The same for every game a hosted match can reach whose counters fit their fields. |
| RunLaws.WeaponStateHolds | rust/bt-core/src/game.rs:1249-1387 | In every reachable state game and board flags agree, a lasting weapon is active exactly while lines of life remain, the movement frame is flipped exactly under Upbyside, both drop times follow Meadow and Speedy, and with all five stream weapons off the keep table is the default. |
| RunLaws.WallsHold | rust/bt-core/src/board.rs:491-636 | In every reachable state, while Bottle is active every wall square is a structure cell. |
| RunLaws.PieceStandsRight | rust/bt-core/src/game.rs:352-369 | In every reachable state there is a piece exactly while the game is not over, both copies of its position agree, its shape is one its kind has, and on runs in which no relay pass raises garbage, whether or not Lawyers are in force, it overlaps nothing. |
| RunLaws.NextPieceKnown | rust/bt-core/src/piece_manager.rs:120-161 | In every reachable state the next piece's id, Broken's repeats included, is one of the 18 kinds, so building it never fails. |
| RunLaws.LandingOverwritesNothing | rust/bt-core/src/piece.rs:732-741 | A piece that overlaps nothing adds exactly its in-bounds squares and changes no other. |
| HealthLaws.TickHealthy | rust/bt-core/src/game.rs:375-412 | A tick keeps weapons, bank, board, piece and swapped board sound, and a free piece free. |
| HealthLaws.LockHealthy | rust/bt-core/src/game.rs:439-522 | So does a lock, through clearing, expiries, the flushed weapons and the next spawn. |
| HealthLaws.InputHealthy | rust/bt-replay/src/lib.rs:119-155 | So does every input and every relayed effect, garbage lines included. |
| WeaponLaws.TickConsistent | rust/bt-core/src/game.rs:1249-1387 | A tick keeps the weapon state consistent, across relaunches, overlapping expiries and the bottle's nested clear. |
| WeaponLaws.InputConsistent | rust/bt-core/src/game.rs:765-770 | So does every input. |
| GameRuns.PlayIsConsistent | rust/bt-core/src/game.rs:1249-1387 | From a new game, no sequence of clock steps, actions and effects leaves the weapon state inconsistent. |
| GameRuns.PlayIsAnnounced | rust/bt-core/src/game.rs:1390-1398 | Over any sequence of clock steps and a player's own actions the last total announced is the player's, the mirror stays, the bazaar is open exactly when its opening is queued, and, with clears under 20 lines, exactly when the combined total has completed another 20. |
| WeaponLaws.NewConsistent | rust/bt-core/src/game.rs:204-244 | A new game's weapon state is consistent. |
| WeaponLaws.StreamRecovers | rust/bt-core/src/piece_manager.rs:165-229 | Once no stream weapon is active the keep table is exactly the default. |
| WallLaws.EffectSound | rust/bt-core/src/board.rs:491-614 | Every weapon's effect on a board leaves the bottle's walls standing, flipped or not, and puts only ordinary cells on it. |
| WallLaws.RevertSound | rust/bt-core/src/board.rs:617-636 | So does every weapon turning off. |
| WallLaws.CheckSound | rust/bt-core/src/board.rs:225-374 | So does clearing lines, with Force or Bottle or both. |
| WallLaws.InsertsSound | rust/bt-core/src/board.rs:379-427 | So does any number of inserted garbage lines. |
| WallLaws.LandSound | rust/bt-core/src/piece.rs:732-741 | So does a landing piece that fits where it stands. |
| EffectLaws.TurnsOverAndBack | rust/bt-core/src/board.rs:464-470 | Upbyside turns the board's rows over, and its end gives the board back. |
| EffectLaws.MirrorsTwice | rust/bt-core/src/board.rs:473-479 | Flip Out mirrors the columns; twice gives the board back. |
| EffectLaws.Gimps | rust/bt-core/src/board.rs:562-572 | Gimp makes each removable box a gimp of its value, and changes nothing else. |
| EffectLaws.Hides | rust/bt-core/src/board.rs:573-582 | Twilight hides every box, none added or lost. |
| EffectLaws.OneGoesMissing | rust/bt-core/src/board.rs:534-550 | Missing removes exactly one removable box, if there is one. |
| EffectLaws.BlindTakesBoxes | rust/bt-core/src/board.rs:551-561 | Blind draws once for each removable box, row by row, takes exactly those whose draw is even, and changes no other square. |
| EffectLaws.OneMoreBox | rust/bt-core/src/board.rs:501-533 | Piece It and Bug add exactly one box in an empty square of the middle rows, if there is one, Bug's unseen. |
| EffectLaws.MiddleFallsOut | rust/bt-core/src/board.rs:584-598 | Fall Out empties the six middle columns and leaves the ledges. |
| EffectLaws.LineRaises | rust/bt-core/src/board.rs:379-427 | A garbage line, with one hole drawn, pushes every column by one; beside the bottle's neck only the part on the line's side of it gives way. |
| EffectLaws.RisesByOne | rust/bt-core/src/board.rs:491-614 | Rise Up raises one such line. |
| EffectLaws.LawyersRaise | rust/bt-core/src/game.rs:684-695 | Under Lawyers as many garbage lines rise as the opponent has new lines; otherwise board and generator stay. |
| EffectLaws.WallsComeAndGo | rust/bt-core/src/board.rs:599-636 | Bottle builds its walls in eight rows of three on both sides, and its end takes exactly those squares away. |
| EffectLaws.LinesWear | rust/bt-core/src/game.rs:1356-1368 | Lines come off every duration, not below nothing, and exactly those that reach it turn off. |
| EffectLaws.LastsLonger | rust/bt-core/src/game.rs:1249-1328 | A weapon that turns on lasts its duration longer and no other weapon's flag or duration moves. |
| EffectLaws.FundsAt | rust/bt-core/src/game.rs:1249-1328 | Keating leaves no funds, Reagan turns them into a debt, and no other weapon but Bottle moves them. |
| LineLaws.CheckLinesFilters | rust/bt-core/src/board.rs:225-374 | With neither Force nor Bottle the result is the rows that are not full, in order, packed to the floor (to the ceiling on a flipped human board), un-landed smiles turned to frowns; the counts are the full rows and the sum of their cells, ten cells go per line, and no full row remains. |
| ForceLaws.ForceClears | rust/bt-core/src/board.rs:225-374 | Under Force, with or without Bottle, no row moves: a full row is emptied, in the bottle's band between the walls alone, but the row the board fills from is counted and stays; other rows keep their squares; lines and value are those of all full rows. |
| ForceLaws.BottleClears | rust/bt-core/src/board.rs:225-310 | In an upright bottle lines go one by one, the lowest first, each by its columns' drop, with one line and that row's value more; at the end no row is full. |
| ForceLaws.BottleDrops | rust/bt-core/src/board.rs:338-353 | A line removed in an upright bottle: above it every column drops; in the band only the neck's columns do; below it the columns beside the neck drop from row 18 on only. |
| ForceLaws.BottleRises | rust/bt-core/src/board.rs:362-374 | The same on a flipped board, where columns rise, those beside the neck from row 9 on. |
| ForceLaws.NoLineNoChange | rust/bt-core/src/board.rs:225-310 | With no full row clearing only turns smiles to frowns and pays nothing, under any flags. |
| ClockLaws.LockLands | rust/bt-core/src/game.rs:439-522 | A lock with no weapons about: the piece lands, the full rows are filtered out and pay their value once per line, the lines are counted and the rest stays. |
| ClockLaws.FallsWithTime | rust/bt-core/src/game.rs:375-425 | A falling piece comes down one row per drop interval as long as rows are free, keeps the rest of the time, and begins its slide, 150 long or none under No Slide, at the first row that is not. |
| ClockLaws.WayDown | rust/bt-core/src/game.rs:415-425 | That way is down the board, and up it under Upbyside. |
| ClockLaws.SlidesWithTime | rust/bt-core/src/game.rs:391-452 | A sliding piece stays until its time is up and then locks exactly when the row below is not free, else falls on. |
| ClockLaws.HatterSpins | rust/bt-core/src/game.rs:1401-1427 | The Hatter turns the piece once per 20 of the time and keeps the rest; without it and Slick nothing moves by itself. |
| ClockLaws.SlickGlides | rust/bt-core/src/game.rs:1430-1442 | A falling piece on a slick board moves one column per 20 and turns about where it cannot. |
| ClockLaws.SpawnStands | rust/bt-core/src/game.rs:352-369 | The next piece is of the kind chosen, fresh, centred in the row its board begins with and falling at its pace, or the game is over when it does not fit. |
| ClockLaws.KeysShove | rust/bt-core/src/game.rs:530-559 | Left moves the piece left and right moves it right, the other way about under Upbyside, exactly when it fits and the game runs. |
| ClockLaws.KeyDrops | rust/bt-core/src/game.rs:616-622 | A key drop takes one row or begins the slide, and starts the drop interval over. |
| ClockLaws.HardDropPays | rust/bt-core/src/game.rs:576-612 | A hard drop pays the rows above the floor once, the computer's 14, and both engage the fast interval. |
| ClockLaws.LaunchTakesOne | rust/bt-core/src/game.rs:658-666 | A launch takes one weapon from its slot and announces it, or does nothing. |
| PieceLaws.RotationLaw | rust/bt-core/src/piece.rs:313-715 | For every kind and reachable shape a blocked rotation changes nothing, the number of cells is conserved, and a successful rotation of a piece that overlaps nothing stays clear of filled squares and is undone exactly by the reverse one, which succeeds. |
| ClockLaws.QuarterTurn | rust/bt-core/src/piece.rs:350-389 | A turn that fits is a quarter turn against the clock in the piece's frame: the top row becomes the left column. |
| PieceLaws.CycleRestores | rust/bt-core/src/piece.rs:350-715 | A full cycle of rotations gives the piece back. |
| PieceLaws.BackUndoes | rust/bt-core/src/piece.rs:337-344 | Turning back undoes turning, in both directions. |
| PieceLaws.CountConserved | rust/bt-core/src/piece.rs:396-715 | Moving the arms of wall, star and weird pieces loses and adds no cell. |
| LockBound.BoundedLock | rust/bt-core/src/game.rs:375-522 | For every sequence of inputs, effects and ticks of at most `gap`, a freshly spawned piece has locked before a fixed amount of unfrozen, unpaused time has passed. |
| LockBound.TickTime | rust/bt-core/src/game.rs:1401-1440 | A tick takes its full length off the time left, or locks, with Hatter and Slick in any state. |
| LockBound.InputTime | rust/bt-core/src/game.rs:530-622 | No move, turn, drop, purchase, launch or incoming effect adds to the time left. |
| LedgerLaws.ReachableLedger | rust/bt-core/src/versus.rs:292-381 | At every tick of every hosted match, frozen ticks included, the two balances together change by the cleared funds, the activated seizures and the Keating credits, and by the cleared funds alone when no Keating or Reagan is waiting. |
| LedgerLaws.TickLedger | rust/bt-core/src/versus.rs:337-376 | The same for any match with no tax in a queue, which the tick keeps so: a Mondale tax is banked whole by the other side whatever its rounding. |
| LedgerLaws.CleanLedger | rust/bt-core/src/game.rs:1231-1245 | With no Keating or Reagan waiting and no Keating launched they change by the cleared funds alone. |
| LedgerLaws.RunStealsNothing | rust/bt-core/src/versus.rs:337-376 | No run of inputs, grants, reconnects and ticks leaves a tax in either queue between its acts. |
| VisitLaws.VisitIsFair | rust/bt-server/src/bout.rs:275-291 | In every reachable match, from any frozen state until both sides have left, with frozen ticks and both sides' inputs in any order, each side's funds plus its bank at the price in force stay what they were. |
| VisitLaws.BazaarIsStandstill | rust/bt-core/src/versus.rs:292-302 | In every reachable match nothing but arsenals, funds and bazaar flags changes until both sides have left. |
| LedgerLaws.VisitKeepsWorth | rust/bt-core/src/game.rs:715-750 | On one game, no sequence of purchases, sales and refused inputs within a visit changes funds plus the bank at the price in force. |
| TaxLaws.KeptShare | rust/bt-core/src/game.rs:1231-1245 | For every clear below 2^31 the taxed player keeps the floor of 70 percent, or one less; one less if and only if the clear is a multiple of ten and some power of two lies strictly between seven and eight tenths of it. |
| TaxLaws.TaxedClear | rust/bt-core/src/game.rs:1231-1245 | That share enters the balance and the rest, when there is one, is announced for the opponent. |
| TaxLaws.MondaleCanKeepLess | rust/bt-core/src/game.rs:461-463 | One such clear: 90 keeps 62 where the documented floor is 63. |
| Arsenals.BuyAddsPrice | rust/bt-core/src/arsenal.rs:35-48 | A purchase that lands adds one list price to the bank's value and keeps it tidy; a refused one changes nothing. |
| Arsenals.SellTakesPrice | rust/bt-core/src/arsenal.rs:52-72 | A sale takes the list price off again and keeps the bank tidy. |
| Rng.SingleCycle | rust/bt-core/src/rng.rs:64-70 | From every 48-bit state every state is reached after exactly one number of steps below 2^48. |
| Rng.NoEarlyReturn | rust/bt-core/src/rng.rs:64-70 | No state recurs within a cycle. |
| PieceStream.PickCloser | rust/bt-core/src/piece_manager.rs:123-130 | Every rejected roll brings the generator closer to a draw that any keep table of the game accepts, so the rejection loop ends. |
| DrawLaws.FirstKept | rust/bt-core/src/piece_manager.rs:123-130 | The piece chosen is that of the first roll its own weight keeps; every roll costs two draws. |
| DrawLaws.WeightsMean | rust/bt-core/src/piece_manager.rs:55-81 | The weights, compared as doubles with a 48-bit draw, mean 21 and 2 hundredths, always and never. |
| DrawLaws.StreamWeaponsBite | rust/bt-core/src/piece_manager.rs:165-197 | Under No Dice, So Long, Four By Four and Feared Weird the pieces they name are never chosen, from any state; after A Nice Day the smiley comes without a roll. |
| DrawLaws.RecordSticks | rust/bt-core/src/piece_manager.rs:133-148 | Broken repeats the last piece nine times in ten for one draw. |
| DrawLaws.KnownDraws | rust/bt-core/src/rng.rs:42-99 | The first three draws after seed 1 are those of the standard's lrand48. |
| DrawLaws.DrawsRemainder | rust/bt-core/src/rng.rs:81-83 | A draw below a bound is the remainder of the top 31 bits. |
| Boards.OpenRoundCloser | rust/bt-core/src/board.rs:517-526 | The same for the random empty square of PieceIt and Bug, whenever the band has one. |
| Draws.SquareWord | rust/bt-core/src/board.rs:517-526 | Every square of the band, in either parity class, is drawn from some state. |
| Ratings.VariancesStay | rust/bt-trueskill/src/ts2.rs:156-201 | Before the floor both posterior variances stay positive and at most the prior plus tau squared; after it they lie between the floor and the larger of the two. |
| Ratings.ShiftsCancel | rust/bt-trueskill/src/ts2.rs:156-201 | The two mean shifts, each over its inflated variance, cancel. |
| Ratings.WinnerRisesClassic | rust/bt-trueskill/src/lib.rs:137-161 | The classic update raises the winner's mean and lowers the loser's. |
| Ratings.WinnerRises | rust/bt-trueskill/src/ts2.rs:156-201 | So does the update with the line signal whenever the line margin is no smaller than the ratings made likely. |
| Ratings.MeansFollowTheMargin | rust/bt-trueskill/src/ts2.rs:156-201 | For any line margin the winner's mean rises, and the loser's falls, if and only if the margin's own mean moves up. |
| Ratings.MoreLinesMore | rust/bt-trueskill/src/ts2.rs:173-193 | With a positive signal weight a larger line margin lifts the winner strictly more and lowers the loser strictly more. |
| Ratings.DrawPullsTogether | rust/bt-trueskill/src/lib.rs:163-184 | A draw lowers the higher mean and raises the lower. |
| Ratings.NoSignalIsClassic | rust/bt-trueskill/src/lib.rs:137-201 | With no weight on the performance signal the update is exactly the classic one, before and after the floor. |
| Ratings.DrawIsFair | rust/bt-trueskill/src/lib.rs:168-184 | A draw rated from either side gives the same pair of ratings. |
| Rng.Generator.NextState | rust/bt-core/src/rng.rs:64-70 | The state becomes the recurrence's next one modulo 2^48. |
| Rng.Generator.RandBelow | rust/bt-core/src/rng.rs:81-83 | One draw below the bound, from the top 31 bits of the next state. |
| Rng.Generator.Drand48 | rust/bt-core/src/rng.rs:88-91 | One draw in [0, 1) as its 48-bit numerator. |
| StreamObject.PieceManager.Roll | rust/bt-core/src/piece_manager.rs:123-130 | The rejection loop ends from every state and returns the accepted id with the generator where it stopped. |
| StreamObject.PieceManager.Make | rust/bt-core/src/piece_manager.rs:120-161 | The next piece: the forced smile, Broken's repeats, the roll, the die's pips, and every draw they make. |
| StreamObject.PieceManager.WeaponOn | rust/bt-core/src/piece_manager.rs:165-197 | The keep entries a weapon rewrites, and no others. |
| StreamObject.PieceManager.WeaponOff | rust/bt-core/src/piece_manager.rs:200-229 | The entries it restores. |
| BankObject.Bank.BuyOne | rust/bt-core/src/arsenal.rs:35-48 | The first matching or empty slot takes it; a full bank refuses. |
| BankObject.Bank.SellOne | rust/bt-core/src/arsenal.rs:52-60 | The first slot that holds some gives one up. |
| BankObject.Bank.Use | rust/bt-core/src/arsenal.rs:64-72 | One of a slot is consumed; the last empties it. |
| BankObject.Bank.SetSlot | rust/bt-core/src/arsenal.rs:77-88 | An exact slot is written; none of it, or no weapon, empties it. |
| BankObject.Bank.Swap | rust/bt-core/src/game.rs:786-788 | Two banks trade contents, nothing lost. |
| PieceMoves.FitsAt | rust/bt-core/src/piece.rs:287-296 | Whether every filled square lands on a free one. |
| PieceMoves.TurnSquare | rust/bt-core/src/piece.rs:350-389 | The quarter turn of a square-framed piece, or the piece unchanged at the first blocked square. |
| PieceMoves.TurnByArms | rust/bt-core/src/piece.rs:396-715 | The arm moves of wall, star and weird, all or none. |
| PieceMoves.TurnPiece | rust/bt-core/src/piece.rs:337-344 | The turn of any piece by its kind. |
| FieldObject.PlayField.Set | rust/bt-core/src/board.rs:89-94 | One square written; outside the board nothing. |
| FieldObject.PlayField.RemoveLine | rust/bt-core/src/board.rs:315-374 | Which square every square moves to when a line, or a span of one, goes, under Force, Bottle and either orientation. |
| FieldObject.PlayField.ClearLines | rust/bt-core/src/board.rs:225-310 | The clearing scan ends under every flag combination and leaves the specified board, counts and gauge. |
| FieldObject.PlayField.InsertGarbage | rust/bt-core/src/board.rs:379-427 | A garbage line pushes up or down between the walls and takes its hole and colours from the generator. |
| FieldObject.PlayField.MirrorHoriz | rust/bt-core/src/board.rs:464-470 | The rows reversed in place. |
| FieldObject.PlayField.MirrorVert | rust/bt-core/src/board.rs:473-479 | The columns reversed in place. |
| FieldObject.PlayField.PlaceBlock | rust/bt-core/src/board.rs:501-533 | A box on a random empty square of the middle band, with the draws rejected before it; none when the band is full. |
| FieldObject.PlayField.RemoveOne | rust/bt-core/src/board.rs:534-550 | The first removable box from a random origin goes. |
| FieldObject.PlayField.BlindRandomly | rust/bt-core/src/board.rs:551-561 | Each removable box is drawn for, and only those. |
| FieldObject.PlayField.GimpAll | rust/bt-core/src/board.rs:562-572 | Every removable box becomes a gimp of the same value. |
| FieldObject.PlayField.HideAll | rust/bt-core/src/board.rs:573-582 | Every box is hidden. |
| FieldObject.PlayField.FallOutMiddle | rust/bt-core/src/board.rs:584-598 | The columns between the ledges fall out, from the edge the orientation names. |
| FieldObject.PlayField.BuildWalls | rust/bt-core/src/board.rs:599-606 | Exactly the wall squares are written. |
| FieldObject.PlayField.ApplyWeapon | rust/bt-core/src/board.rs:491-614 | The whole effect of any weapon on the board and the generator, and the bottle's clear. |
| FieldObject.PlayField.RevertWeapon | rust/bt-core/src/board.rs:617-636 | The whole effect of any weapon turning off. |
| FieldObject.PlayField.Judge | rust/bt-core/src/board.rs:181-221 | A placement is a bad move exactly when it boxes in an empty square with a box of its own. |
| FieldObject.PlayField.LandPiece | rust/bt-core/src/piece.rs:732-741 | The piece's squares become board squares and the placement is judged. |
| CursorObject.Cursor.Next | rust/bt-core/src/game.rs:1453-1464 | A read past the end yields 0 and spoils the keyframe. |
| CursorObject.Cursor.TakeTokens | rust/bt-core/src/game.rs:1094-1104 | A list of weapon tokens behind its length, refused at the first value that is none. |
| GameObject.Game.Start | rust/bt-core/src/game.rs:204-244 | A new game is the defaults and the first piece. |
| GameObject.Game.SpawnNext | rust/bt-core/src/game.rs:352-369 | The next piece in place, or the game over with nothing falling. |
| GameObject.Game.DropOne | rust/bt-core/src/game.rs:415-425 | One row down, or the slide begins. |
| GameObject.Game.PlaceNow | rust/bt-core/src/game.rs:439-522 | Lock or fall on after the slide: the airslide, landing, clear, funds, announcements, bazaar, expiries, flush, next piece and lock hash, in this order. |
| GameObject.Game.TickBy | rust/bt-core/src/game.rs:375-412 | One step of the clock, with the Hatter and Slick clocks and as many drops as it has time for. |
| GameObject.Game.MoveSideways | rust/bt-core/src/game.rs:530-559 | A sideways move, when it fits. |
| GameObject.Game.RotatePressed | rust/bt-core/src/game.rs:563-571 | A rotation under the player's hand. |
| GameObject.Game.HardDrop | rust/bt-core/src/game.rs:576-580 | The fast drop engaged. |
| GameObject.Game.ComputerDrop | rust/bt-core/src/game.rs:588-592 | The computer's drop. |
| GameObject.Game.SoftDropPressed | rust/bt-core/src/game.rs:616-622 | One row by hand. |
| GameObject.Game.Launch | rust/bt-core/src/game.rs:658-666 | A weapon leaves its slot and is announced. |
| GameObject.Game.ReceiveScore | rust/bt-core/src/game.rs:684-695 | The opponent's totals, the garbage Lawyers raise for new lines, the bazaar trigger. |
| GameObject.Game.Bank | rust/bt-core/src/game.rs:701-711 | Funds arrive and the balance is announced; nothing for zero. |
| GameObject.Game.BuyNow | rust/bt-core/src/game.rs:715-732 | A purchase in the bazaar at the price in force, if funds and bank allow; otherwise nothing changes. |
| GameObject.Game.SellNow | rust/bt-core/src/game.rs:740-750 | A sale at the price in force; otherwise nothing changes. |
| GameObject.Game.ForceWeaponOff | rust/bt-core/src/game.rs:765-770 | An active weapon turned off at once. |
| GameObject.Game.ExportCellsNow | rust/bt-core/src/game.rs:834-842 | The board as 1120 values, row by row. |
| GameObject.Game.ImportCells | rust/bt-core/src/game.rs:847-860 | Such a list taken over; one of the wrong length is ignored. |
| GameObject.Game.CreditFunds | rust/bt-core/src/game.rs:1231-1245 | A clear's funds, less the tax, which is announced when there is one. |
| GameObject.Game.WeaponOn | rust/bt-core/src/game.rs:1249-1328 | Everything a weapon does to its victim on activation. |
| GameObject.Game.WeaponOff | rust/bt-core/src/game.rs:1331-1352 | Everything undone when it expires. |
| GameObject.Game.WearDown | rust/bt-core/src/game.rs:1356-1368 | Cleared lines come off every duration; those that reach zero turn off, in index order. |
| GameObject.Game.Flush | rust/bt-core/src/game.rs:1374-1387 | The pending weapons go off in order, then a waiting board is installed, which turns Bottle and Upbyside off. |
| GameObject.Game.RefreshBazaar | rust/bt-core/src/game.rs:1390-1398 | The countdown, and the bazaar when it wraps. |
| GameObject.Game.ApplyInput | rust/bt-replay/src/lib.rs:119-155 | One recorded action on a game; an unknown weapon index does nothing. |
| GameObject.Game.TakeSnapshot | rust/bt-core/src/game.rs:902-992 | The keyframe of the present state. |
| GameObject.Game.Restore | rust/bt-core/src/game.rs:998-1179 | A keyframe is taken over whole with the events dropped, or refused with the game, events included, unchanged. |
| VersusObject.ApplyWeapon | rust/bt-core/src/versus.rs:133-191 | Swap, Susan and Keating act at once on both games, any other weapon queues on its target, and what each client is owed is returned. |
| VersusObject.DeliverWeapon | rust/bt-core/src/versus.rs:77-87 | A mirror-cursed launcher is hit by its own weapon, or the weapon fizzles. |
| VersusObject.Match.RelayBoth | rust/bt-core/src/versus.rs:315-381 | A's events act, then B's with what A's caused, into both games, outboxes, spy lists, the keyframe flag and the latched result. |
| VersusObject.Match.RecordDelivery | rust/bt-core/src/versus.rs:385-395 | The delivery's events enter the right outboxes. |
| VersusObject.Match.TickBy | rust/bt-core/src/versus.rs:292-306 | Both boards advance unless either side shops; the relay runs regardless, until the match is decided. |
| BoutObject.HostedMatch.SubmitInput | rust/bt-server/src/bout.rs:259-291 | An illegal or stale input changes nothing; a fresh one is acknowledged, and applied and recorded unless the barrier bars it. |
| BoutObject.HostedMatch.Grant | rust/bt-server/src/bout.rs:308-343 | Weapon and funds land as they can, and each part that lands is recorded in that order. |
| BoutObject.HostedMatch.Rebase | rust/bt-server/src/bout.rs:353-355 | One side's acknowledgement restarts at 0. |
| BoutObject.HostedMatch.TickBy | rust/bt-server/src/bout.rs:361-363 | The match and the tick counter advance together. |
| BoutObject.HostedMatch.Export | rust/bt-server/src/bout.rs:234-245 | The seeds and the tick count cut to 32 bits, and the whole log. |
| BoutObject.VersusReplayPlayer.Step | rust/bt-replay/src/lib.rs:558-576 | The frames of this tick, the tick, both queues emptied; false exactly at the end. |
| BoutObject.VersusReplayPlayer.RunToEnd | rust/bt-replay/src/lib.rs:579-581 | Steps until the recording is exhausted. |
| BoutObject.VersusReplayPlayer.Seek | rust/bt-replay/src/lib.rs:584-590 | Wherever playback stood, forward or backward, the match shown is the one played from the start for that many ticks. |
| PredictorObject.ServerKeyframesServe | rust/bt-core/src/game.rs:1189-1200 | The keyframe the server sends of any reachable game meets what a client's predictor asks of one, and read back it is that game with the opponent's funds withheld. |
| PredictorObject.Client.PredictInput | rust/bt-netcode/src/lib.rs:167-190 | What is sent, and the local game and queue after it; a barred gameplay input or a refused trade leaves everything as it was. |
| PredictorObject.Client.TakeSnapshot | rust/bt-netcode/src/lib.rs:207-250 | Acknowledged inputs go; a keyframe replaces the game and the tail is replayed; without one the bazaar's end releases the game. |
| PredictorObject.Client.ReplayUnacked | rust/bt-netcode/src/lib.rs:227-232 | The whole unacknowledged tail is replayed in order. |
| PredictorObject.Client.TakeEvent | rust/bt-netcode/src/lib.rs:259-262 | A server effect enters the local game and no queue. |
| PredictorObject.Client.NoteNewLock | rust/bt-netcode/src/lib.rs:283-292 | A new lock enters the ring of eight. |
| PredictorObject.Client.Judge | rust/bt-netcode/src/lib.rs:306-325 | A lock still in the ring is judged once; two disagreements in a row ask for a resync. |
| BotObject.MatchState.Drive | rust/bt-bot/src/main.rs:716-789 | One decision and its effects on predictor, socket and flags, with the idle count. |
| BotObject.MatchState.ShopNow | rust/bt-bot/src/main.rs:855-872 | The accepted purchases are forwarded, then the leave. |
| BotObject.MatchState.HearSnapshot | rust/bt-bot/src/main.rs:605-663 | A frame updates acknowledgement, result and bazaar flags, reconciles, is judged, and says whether a fresh keyframe is wanted. |

## Left out

- Websocket, HTTP and JSON text, metrics, storage, the lobby, identities and spectators: the protocol is modelled on messages and queues.
- Browser TypeScript, wasm wrappers, rendering and sound; the legacy C++ programs.
- Placement search, shopping plans and launch timing of the computer players: the moves and purchases they choose are arbitrary inputs of the model.
- Spy bookkeeping and noise (rust/bt-server/src/bout.rs:364-386, snapshot contents beyond what clients reconcile): the launched spies are listed, their reveals are not modelled.
- The single-player recorder and player of rust/bt-replay/src/lib.rs:282-474: they repeat the two-sided ones with the computer opponent.
- The experience offset, quality of match and the dispatch of `rate_match` (rust/bt-trueskill/src/ts2.rs:132-150, 208-254): easy wrappers around the update proved here.
- Ratings.VariancesStay: over the reals; the rounding of doubles is not modelled, and the truncated-Gaussian corrections enter by their bounds and signs and, for MoreLinesMore, by t plus the win correction growing with t, without the code's fallback for a vanishing win probability.
- ForceLaws.BottleClears: on a flipped board, where a row behind the pass can be completed by the columns that rise into it and is then cleared at the next lock only, each single removal is stated (BottleRises), not the whole pass.
- BotPlays.BotKeepsPlaying: nobody shops means neither side at the server nor the bot's own copy of the game, which a prediction can put in the bazaar before the server does.
- Integer widths: 32- and 64-bit counters are unbounded except where a keyframe, a replay header, a log stamp or the generator cuts them. Slot quantities do not wrap at 65535, and a restored quantity is clamped there as in the code.
- ReplayLaws.ReplayReproduces: for bouts of fewer than 2^32 ticks, because the log stamps and the exported tick count are 32 bits wide.
- MirrorLaws.JointEntry: for clears of fewer than 20 lines; a larger one can carry a total past two multiples at once.
- RunLaws.ReachableRoundTrip: for counters that fit their 32- and 64-bit fields.
- TaxLaws.KeptShare: for clears below 2^31, the 32-bit amounts of the original, none of them negative.
- PredictorObject.Client.TakeSnapshot: keyframes are ones a server sends (ServerKeyframesServe); a malformed keyframe is refused by the restore and is covered by GameObject.Game.Restore alone.
- PredictionLaws.LockstepAndNoFalseAlarm: the client applies inputs, ticks and events at the server's points; other timings are the business of SessionLaws and of keyframes.
- SessionLaws.StreamHolds: for runs in which the server's bounded input channel refuses nothing (ArrivalKeeps); the channel is one queue per seat here, the other seat's share of it a parameter.
- ShopKeyframes.KeyframeInBazaar: with two or more sideways moves or turns in the tail a met guard need not part the two, because a later move can undo an earlier one; that case is stated one way.
- BazaarEscape.BotEscapesBazaar: for runs in which the server is never silent for 875 bot ticks on end, after which the bot gives up; a full input channel and a dropped bot socket, on which the server ends the match, are excluded.
- Timing of resync requests and grants: a grant may happen at any time, as may a refusal.
- Sessions carry a keyframe as the state it decodes to, which KeyframeLaws.RoundTrip justifies.
- Game: the flat fields of the original are grouped into records; active flags, cells of one row and the falling piece are values in fields, so aliasing of those is not modelled.
- FieldObject.PlayField: the flat cell vector is a sequence of rows, and the board has the standard 10 by 28 size.
- StreamObject.PieceManager.Make: a previous piece id outside the table, which only a forged keyframe can bring (RunLaws.NextPieceKnown), gives the first kind here and aborts the original.
- HashLaws.OneByteShows: nothing is claimed about collisions of byte strings that differ in several places.
- HashLaws.HashCovers: for values within their 32- and 64-bit fields and fewer than 1120 pending weapons, beyond which a queue could be mistaken for a waiting board.
- Out-of-band mutators (`board_mut`, `swap_board_with`, a board imported from outside).
