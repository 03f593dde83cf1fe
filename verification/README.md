# Local PetKit server: verified models

Dafny models of the parts of the PetKit local add-on that decide what a user sees, keeps or loses:
how stored events become Timeline cards, how video chunks become one clip and are deleted, how the
registry survives crashes, how weights are judged, what retention deletes, and the parsers and
small protocols around them. `dafny verify dfyconfig.toml` checks the whole project.

How the files fit together:

- **Timeline** (`SessionSpec`, `SessionSteps`, `SessionPasses`, `SessionMedia`, `Sessions`,
  `SessionConservation`, `SessionJustified`, `SessionHeads`, `SessionRuns`, `SessionNewest`, `SessionOrder`,
  `SessionPets`, `SessionTies`). `SessionSpec` says for
  each event, without any passes, which card it belongs to and by which rule. The class
  `Sessions.Timeline` runs the program's passes over its shared set of used ids and its cards and is
  proved to compute exactly that. What a Timeline shows is then said from the outside, from the
  stored rows and the finished cards alone: that nothing is lost, why each line is where it is, what
  heads each card, in which order steps and cards run, whose pet a card shows, where media go, and
  when the order of the rows matters.
- **Stitching** (`ConcatList`, `Filters`, `MediaTable`, `StitchSpec`, `Stitch`,
  `StitchConservation`, `StitchOutcomes`, `StitchProgress`, `StitchFailures`). A disk is a map from
  paths to footage, the media table a list of rows. ffmpeg is given the *text* of the list file; the one assumption, `Honest`, is that a
  clip that passes its checks holds the files that text lists. The round trip of the list file is
  what connects that text with the chunks.
- **Registry** (`RegistryProtocol`, `Registry`, `RegistryRecords`). A step relation over memory, the dirty mark, the
  file, the write in flight and writes that outlived a cancelled flusher; the class's methods are
  proved to be its steps.
- **Statistics and retention** (`Sorting`, `Weight`, `WeightLaws`, `Retention`).
- **Wire formats and small protocols** (`Bytes`, `Dns`, `Jpeg`, `Repair`, `Text`, `Topics`, `MqttSessions`,
  `MqttHooks`, `Pending`, `PendingSteps`).

Inputs that the program takes from outside are parameters: clocks, what ffmpeg and ffprobe report
for each file, whether a disk or a directory accepts an operation, the layout of the friendly media
tree, the idna encoder, the JSON parser, which devices are stale, whether a signature matches.

## What turned out different from the documentation

- `sessions.py:504` says the order of the rows does not matter. It does when timestamps coincide,
  when an episode names two parents, when a tail lies half-way between two cleanings, and when the
  follow-ups of one card name different pets (the four `SessionTies.OrderMatters...` lemmas).
  `SessionPets.OrderIndependent` states exactly when it does not, given the first three.
- `stitch.py:343-345` says None always means the chunks are still there. That is false when the
  move fails after the sources were unlinked (`UnmovedUnlinks`); `NothingWrittenKeepsChunks` states
  exactly when it holds.
- `stitch.py:323-330` names the clip after the episode's first chunk even when that chunk was left
  out of the join, in which case its file is overwritten (`ExcludedOverwritten`, exactly `ExcludedSurvives`).
- `store.py:668-695` relies on the caller keeping files until the rows are swapped, but the caller
  has already unlinked them when a duplicate file id makes the swap fail (`TakenRaises`, exactly
  `RaisedExactly`).
- `registry.py:288-297` says nothing but blanks and firmware is overwritten. The broker name is
  rewritten when a serial number first arrives (`NameKept`).
- `registry.py` keeps an update through any disciplined run, but a save that overlaps a write in
  flight, a write orphaned by `stop`, or a snapshot that cannot be encoded can lose one
  (`RegistrationOverwritten`, `OrphanFailureLost`, `UnencodableLost`); `SaveIsFinal`, `StopIsFinal` and `StopFlushes` state exactly when none is lost.
- A device renamed by a sign-up while it is connected keeps its mark after its session ended, because
  the hook looks it up under the old name (`RenamedWhileLive`); `ConnectedExactly` states when the
  mark can be trusted.
- `pending.py` calls itself latest-value-only, but Home Assistant and the time zone page queue
  property writes without remembering them (`command_router.py:264`, `devices.py:414`), so an older
  remembered value can win (`HomeAssistantOvertaken`). `QueueIsLatestOnly` states exactly when the
  queue stays in order, `PollHandsNewest` what a remembered write guarantees, and `PollAfterStray`
  exactly when an unremembered one prevails at the next poll.
- `dns.py:56-63` accepts names with empty parts, and parts that encode to 192 bytes or more, and then
  builds a query whose name ends early or reads as a pointer (`EmptyPartEndsName`,
  `LongPartIsPointer`, exactly `SkipOverBuiltQuery`).
- `normalize.py:143-157` promises to quote only malformed values; inside a quoted string a colon,
  a word and a comma look like one (`WordInString`), and `ObjectRestored` states exactly when an
  object is restored. It is reached only after a strict parse failed.

## Model

| member | source | states |
|---|---|---|
| Sessions.GroupSessions | addon/petkit_local/events/sessions.py:491-524 | The six passes over shared used ids and mutable cards, the final sort, the media placement and the standalone rows compute exactly the declarative grouping `Grouped`, which has no passes |
| SessionConservation.Conservation | addon/petkit_local/events/sessions.py:491-524 | For any rows with distinct ids, each id occurs exactly once on the Timeline, as a card's head or as one line, and nothing else occurs |
| SessionConservation.AllShown | addon/petkit_local/events/sessions.py:268-300 | Taken together, the events behind the cards of the Timeline are the stored rows, each exactly as often as it is stored, whichever pass placed it |
| SessionJustified.EveryLineJustified | addon/petkit_local/events/sessions.py:348-459 | Every line shows id, code, time, episode and detail mark of a stored event, on the card the strongest applicable rule gives it: one that may head an episode is on its own episode's card; else on the card its parent link leads to on the same device; else, where no card is linked, on the closest same-device visit 0 to 600 s before; else, where no such visit is either, on the cleaning card of its own episode; else, where there is none of those either, on the closest same-device cleaning within 120 s |
| SessionJustified.EveryRowUnplaced | addon/petkit_local/events/sessions.py:462-488 | Every row of its own stands for a stored event that may not head a visit or episode and has no linked card, no visit before it, no cleaning card of its own episode and no cleaning nearby |
| SessionJustified.MediaOnTimeline | addon/petkit_local/events/sessions.py:518-520 | On every finished card, each foreign sub-episode's media is on exactly one line and whole, and all other lines carry none |
| SessionHeads.EveryHead | addon/petkit_local/events/sessions.py:303-345 | Every card shows id, episode, device, time and media of its head, which is: for an episode the earliest of its events with a head code, or its latest event when none has one, and the card is a visit's if any of them is a visit; for a cleaning the earliest completion among the steps of its episode that nothing else on the Timeline claims; otherwise the one visit or unplaced event the card stands for. Of one time, the row stored first counts as earlier |
| SessionHeads.EpisodeCardsExactly | addon/petkit_local/events/sessions.py:303-335 | An episode has a card if and only if some stored event of it is a visit, feeding or drinking, or a sighting, motion or error that is no detail |
| SessionHeads.CleaningCardsExactly | addon/petkit_local/events/sessions.py:393-428 | An episode has a cleaning's card if and only if a cleaning step of it that no link and no visit claims reports a completion |
| SessionRuns.PetNamedFirst | addon/petkit_local/events/sessions.py:268-300 | A card shows a pet if and only if some event on it names one, and it is the one named first: by the head, then by the card's own events in order of time, then by the linked, the nearby and the tail events in the order they are stored |
| SessionRuns.StepsRun | addon/petkit_local/events/sessions.py:517-519 | The steps on a card run oldest first, and those of one time in the order in which the passes brought them |
| SessionNewest.CardsRun | addon/petkit_local/events/sessions.py:521-523 | Cards come newest first; of one time, episodes before visits without one before cleanings before rows, and within each sort the one founded by the row stored first |
| SessionNewest.OneCardEach | addon/petkit_local/events/sessions.py:303-335 | No episode has two cards, or two cleaning's cards |
| SessionMedia.OneCarrier | addon/petkit_local/events/sessions.py:184-223 | After the placement each foreign episode has exactly one carrier line: its first completion line, else its last line |
| SessionMedia.MediaUnion | addon/petkit_local/events/sessions.py:184-223 | An episode's media is the duplicate-free union over all of its events, eligible or not |
| SessionMedia.MediaInOrder | addon/petkit_local/events/sessions.py:196-204 | That union stands in the order in which the media first occur among the episode's events |
| SessionMedia.CarrierBeats | addon/petkit_local/events/sessions.py:205-223 | The carrier beats every line of its episode: it is the first to report a completion, or none does and it is the last |
| SessionMedia.AssignEpisodeMedia | addon/petkit_local/events/sessions.py:184-223 | The two dictionaries and the loop over episodes give exactly the reference placement of media |
| SessionMedia.LinesByEpisode | addon/petkit_local/events/sessions.py:196-204 | The dictionary holds exactly the foreign episodes of a card, each with the positions of all its lines |
| SessionMedia.MediaByEpisode | addon/petkit_local/events/sessions.py:196-204 | The second dictionary holds each episode's media union in order of first appearance |
| SessionPets.OrderIndependent | addon/petkit_local/events/sessions.py:491-524 | With distinct timestamps, one parent named per episode, no tail equidistant from two cards and one media list per episode (which the query guarantees), every permutation of the rows gives the same Timeline, card for card with pets and media, if and only if each card's pet is named by its own events or agreed on by the first attaching rule that names any |
| SessionPets.PetIndependent | addon/petkit_local/events/sessions.py:286-288 | Card by card: under the first three of those conditions the pet is the same for every permutation of the rows if and only if the head or another event of the card's own names one, or all pets named in the first of its linked, nearby and tail events that name any agree |
| SessionPets.MediaSame | addon/petkit_local/events/store.py:720-736 | An episode's media does not depend on the order of the rows when its rows carry one list |
| SessionOrder.PlacesIndependent | addon/petkit_local/events/sessions.py:491-524 | With distinct timestamps, one parent named per episode and no tail equidistant from two cards, every event has the same card and rule for every permutation of the rows, and the cards come in the same order with the same lines in the same order |
| SessionOrder.HomeSame | addon/petkit_local/events/sessions.py:170-459 | Under the same conditions the decision for a single event, with the tables built from each order, is the same |
| SessionTies.OrderMattersOnTies | addon/petkit_local/events/sessions.py:491-524 | Any two visits of one time that name no episode swap places when they are stored in the other order, although nothing else about them is ambiguous, so the documented claim that order does not matter (line 504) needs distinct timestamps |
| SessionTies.OrderMattersOnParents | addon/petkit_local/events/sessions.py:170-181 | Why one parent per episode is needed: four rows, two cards and two follow-ups of one episode of which each names another card, hang on different cards in two orders, though nothing else is ambiguous |
| SessionTies.OrderMattersOnTails | addon/petkit_local/events/sessions.py:444-459 | Why ties in distance are excluded: a step half-way between two cleanings hangs on the one stored first |
| SessionTies.OrderMattersOnPets | addon/petkit_local/events/sessions.py:286-288 | Why the pets must agree: of two follow-ups of one card that name different pets the one stored first gives the card its pet, though every other condition holds |
| SessionTies.OnOneCard | addon/petkit_local/events/sessions.py:268-300 | Two cards of a Timeline that show one event are the same card |
| Sessions.Timeline.Attach | addon/petkit_local/events/sessions.py:268-300 | Hanging an event changes one card: the line is appended, the pet is taken over only when the card has none, and the id becomes used |
| Sessions.Timeline.EpisodesOf | addon/petkit_local/events/sessions.py:254-265 | Eligible events split into their episodes in order of appearance and the visits that name none |
| Sessions.Timeline.CardsFromEpisodes | addon/petkit_local/events/sessions.py:303-335 | One card per episode, headed by its first head code or else its last event, all other members as lines; the index maps each episode to its card |
| Sessions.Timeline.CardsFromLooseVisits | addon/petkit_local/events/sessions.py:338-345 | One card per visit without an episode |
| Sessions.Timeline.EpisodeParents | addon/petkit_local/events/sessions.py:170-181 | The table holds, for each episode, the first parent any of its events names, and no episode for itself |
| Sessions.Timeline.AttachLinkedFollowups | addon/petkit_local/events/sessions.py:348-363 | After the pass every card shows exactly the events linked to it, in row order, and exactly the placed ids are used |
| Sessions.Timeline.AttachNearbyCleanings | addon/petkit_local/events/sessions.py:366-390 | After the pass every visit card shows exactly the cleanings closest to it after it |
| Sessions.Timeline.CardsFromOrphanCleanings | addon/petkit_local/events/sessions.py:393-428 | One card per orphan cleaning episode that reports a completion, headed by the first completion; none otherwise |
| Sessions.Timeline.AttachCycleTails | addon/petkit_local/events/sessions.py:431-459 | After the pass every cleaning card shows exactly the tails closest to it |
| Sessions.Timeline.StandaloneRows | addon/petkit_local/events/sessions.py:462-488 | Exactly the rows no pass placed become standalone cards, in row order |
| ConcatList.RoundTrip | addon/petkit_local/media/stitch.py:75-106 | A list is written exactly when every path is free of NUL, CR and LF, and reading it with the quote and backslash tokenizer gives back exactly the paths, in order |
| ConcatList.SafeExactly | addon/petkit_local/media/stitch.py:67-75 | The characters that make a path unlistable are NUL, CR and LF and no others |
| ConcatList.LineEndsUnreadable | addon/petkit_local/media/stitch.py:70-75 | No list text whatever reads back as a path with a line end, so refusing such paths loses nothing |
| ConcatList.QuotesEscaped | addon/petkit_local/media/stitch.py:98-106 | In a listed path each quote becomes quote, backslash, quote, quote, and every other character stays |
| ConcatList.LinesWritten | addon/petkit_local/media/stitch.py:98-106 | The list has one line per path, in order: the word file, a space, the escaped path in quotes, a line end |
| MediaTable.CandidatesExactly | addon/petkit_local/events/store.py:601-652 | An episode is offered exactly when at least two ready, unmarked rows of one device, event and wanted category have a path and all of those are older than the quiet time; it comes with every unmarked row of its key |
| MediaTable.OfferedExactly | addon/petkit_local/events/store.py:601-652 | The same with every column spelled out, and which rows come with an episode: all ready unmarked ones of its device, event and category, even without a path |
| MediaTable.ChunksAreRows | addon/petkit_local/events/store.py:632-651 | The chunks offered are the unmarked rows of the key, each as often as it is stored |
| MediaTable.ChunksInPlayOrder | addon/petkit_local/events/store.py:640-642 | Chunks come by start time, falling back to insertion time, then by insertion time |
| MediaTable.PlayOrderExactly | addon/petkit_local/events/store.py:640-642 | The same in terms of the two columns: by start where there is one and else by insertion, then by insertion |
| MediaTable.Table.StitchCandidates | addon/petkit_local/events/store.py:601-652 | The grouping query and the query per group return exactly the candidates |
| MediaTable.Table.MarkStitchFailed | addon/petkit_local/events/store.py:654-666 | Exactly the rows with the given ids get the reason; nothing else changes |
| MediaTable.Table.ReplaceChunksWithStitched | addon/petkit_local/events/store.py:668-695 | Either the chunk rows are gone and the merged row is there under a new id, or, when another row carries its file id, nothing at all changed |
| Stitch.SplitByStream | addon/petkit_local/media/stitch.py:142-165 | The dictionary of stream shapes and its maximum split the paths into those of the main shape and the others, both in order |
| StitchConservation.MainShapeWins | addon/petkit_local/media/stitch.py:142-165 | No stream shape is shared by more chunks than the chosen one, and one is chosen exactly when some chunk can be probed |
| StitchConservation.LeadingWins | addon/petkit_local/media/stitch.py:161-165 | Among equally frequent shapes the first to appear is chosen |
| Stitch.ExistingChunkPaths | addon/petkit_local/media/stitch.py:271-274 | The paths of the chunks on disk, in order |
| Stitch.JoinChunks | addon/petkit_local/media/stitch.py:385-410 | The first attempt and, where allowed, the second without the undecodable chunks: which rows went into the last one, whether it passed, and what is at the work path |
| Stitch.Disk.ConcatVideos | addon/petkit_local/media/stitch.py:182-225 | One attempt: the list is written and handed to ffmpeg; a path that cannot be listed fails it with nothing written |
| Stitch.Disk.Discard | addon/petkit_local/media/stitch.py:411-416 | The half-made clip is gone if it could be removed |
| Stitch.Disk.RemoveFiles | addon/petkit_local/media/stitch.py:277-283 | Exactly the listed files that can be removed are gone |
| Stitch.Disk.MoveIntoPlace | addon/petkit_local/media/stitch.py:286-298 | The clip is at its final path and no longer at the work path, or nothing moved |
| Stitch.StitchEpisode | addon/petkit_local/media/stitch.py:333-462 | The call, with its reassigned paths, rows and excluded ids, does to disk and table exactly what the specification by stream shape and decodability says |
| Stitch.ExcludedSame | addon/petkit_local/media/stitch.py:370-372 | Left out by path in two steps, or not joined by row in one: the same ids are flagged |
| Stitch.RunOnce | addon/petkit_local/media/stitch.py:495-524 | A pass makes one call per candidate found at its start, each on the world the previous one left, and counts the clips |
| StitchConservation.FootageConserved | addon/petkit_local/media/stitch.py:347-462 | On success the final file holds exactly the joined chunks' contents in play order, removable joined sources are gone, the work file is gone, and every other file is as it was |
| StitchConservation.ExcludedSurvives | addon/petkit_local/media/stitch.py:323-330 | A chunk left out of the join keeps its file if and only if its path is not the clip's final path (or its content equals the clip): the final path derives from the first chunk even when that one was left out |
| StitchConservation.NothingWrittenKeepsChunks | addon/petkit_local/media/stitch.py:343-345 | A call that returns nothing has kept every chunk file if and only if the join was never verified or no source could be unlinked; when the move fails after the unlinking the footage is in the work file, so the documented "None always means the chunks are still there" fails on that path only |
| StitchConservation.NothingLostBeforeVerified | addon/petkit_local/media/stitch.py:350-423 | Until a join is verified no file but the work file changes |
| StitchConservation.OnlyOverwrittenFootageIsLost | addon/petkit_local/media/stitch.py:425-434 | Whatever the outcome, every file's footage is at its path or inside a clip at the final or work path, except a file that lay where the clip went and was not part of it |
| StitchConservation.RaisedExactly | addon/petkit_local/events/store.py:668-695 | Past the work directory a call raises if and only if a verified join was moved into place while another row already carries its file id; the chunk rows are then untouched though their files are gone |
| StitchConservation.IdsPartition | addon/petkit_local/media/stitch.py:370-372 | The deleted ids and the flagged ids are together the episode's ids, each once |
| StitchConservation.RowsAfterStitch | addon/petkit_local/media/stitch.py:438-460 | On success the table holds exactly the rows outside the episode unchanged, the excluded rows flagged, and one merged row from the first joined start to the last joined end |
| StitchOutcomes.PickedExactly | addon/petkit_local/media/stitch.py:142-165 | The chunks picked are those on disk of one shape that none outnumbers, in order, and none are picked exactly when no chunk on disk can be probed |
| StitchOutcomes.StitchedExactly | addon/petkit_local/media/stitch.py:385-434 | With a work directory a call makes a clip if and only if at least two chunks are picked, the clip can be moved, its file id is free of other rows, and either the list of all picked paths passes, or it fails, more than two are picked, some but not all of them decode, at least two do, and the list of those passes; the clip holds the contents of the listed chunks in order |
| StitchOutcomes.OthersFlagged | addon/petkit_local/media/stitch.py:370-372 | After that the rows of the chunks in the clip are gone, every other row of the episode is flagged excluded-stream-mismatch, undecodable ones included, and all other rows stay |
| StitchOutcomes.ReasonsExactly | addon/petkit_local/media/stitch.py:350-423 | Why a call made no clip and what it wrote: missing-files or inconsistent-streams on all chunks, nothing where the work directory cannot be made, failed or move-failed on those of the last attempt, with no half-made clip left that could be removed |
| StitchOutcomes.ReportedExactly | addon/petkit_local/media/stitch.py:495-524 | Whatever becomes of each call, a pass makes all of them, and the number it reports is the number of clips: exactly that many new ids are in the table, each on a row marked stitched |
| StitchProgress.CallOutcome | addon/petkit_local/media/stitch.py:350-462 | A call on a current candidate with a work directory either raises and leaves every row as it was, or strictly lowers the number of unsettled rows without touching other episodes |
| StitchProgress.ProgressExactly | addon/petkit_local/media/stitch.py:350-462 | It makes that progress if and only if no verified join was moved into place while another row carries the clip's file id |
| StitchProgress.CallSettles | addon/petkit_local/media/stitch.py:350-462 | Where no row carries the file id a clip of an offered episode would get, it never raises and always makes progress |
| StitchFailures.ExcludedOverwritten | addon/petkit_local/media/stitch.py:323-330 | Three chunks of which the first has another stream shape: it is left out of the join and overwritten by the clip, which goes where it lay |
| StitchFailures.UnmovedUnlinks | addon/petkit_local/media/stitch.py:343-345 | The same three with a clip that cannot be moved: the call returns nothing and a joined chunk is gone |
| StitchFailures.TakenRaises | addon/petkit_local/events/store.py:668-695 | The same three beside a row with the clip's file id: the call raises, and the rows still name a chunk whose file is gone |
| StitchFailures.RetrySaves | addon/petkit_local/media/stitch.py:389-410 | Three chunks of one shape of which one does not decode and spoils the first list: the second attempt makes the clip of the other two and flags the third |
| StitchProgress.FileIdNames | addon/petkit_local/media/stitch.py:440 | With colon-free categories the clip's file id names its event and category |
| StitchProgress.PassSettles | addon/petkit_local/media/stitch.py:495-524 | A pass lowers the number of unsettled rows by at least the number of episodes it was offered, and leaves no unsettled episode's file id taken |
| StitchProgress.SweepsRunOutOfWork | addon/petkit_local/media/stitch.py:526-538 | However many passes run, and whatever happens outside to each call, at most as many find work as there were unsettled rows |
| RegistryProtocol.NoLostUpdate | addon/petkit_local/devices/registry.py:109-202 | In every run of changes, saves, flushes with success or failure in which no save overlaps a write in flight and snapshots encode, the current snapshot is on disk, or is the write in flight, or is marked dirty |
| RegistryProtocol.StepCovered | addon/petkit_local/devices/registry.py:109-181 | Every disciplined step keeps that invariant |
| RegistryProtocol.FlushSettles | addon/petkit_local/devices/registry.py:151-181 | From any covered state, whatever becomes of the write under way, the next flush on a working disk leaves the file equal to memory |
| RegistryProtocol.StopIsFinal | addon/petkit_local/devices/registry.py:187-247 | From any state, what stop leaves on disk is the newest memory and stays so, in whatever order the writes in flight finish, if and only if the file already was memory or a marked change got written, and every write in flight carries the newest memory |
| RegistryProtocol.StopFlushes | addon/petkit_local/devices/registry.py:187-247 | After every disciplined run, stop on a working disk loses nothing if and only if no write is in flight, or the one in flight carries the newest memory and that is marked or already on disk; with nothing in flight, if and only if nothing was marked, an attempt works, or the file happens to be memory |
| RegistryProtocol.SaveIsFinal | addon/petkit_local/devices/registry.py:109-137 | In any state the file is memory and stays so however the writes in flight finish, if and only if the file is memory and each of those writes carries it |
| RegistryProtocol.RegistrationOverwritten | addon/petkit_local/devices/registry.py:340-344 | The excluded interleaving: a registration saved while an older snapshot is being written ends with the older file, unmarked, and no number of later flushes repairs it |
| RegistryProtocol.OrphanFailureLost | addon/petkit_local/devices/registry.py:187-202 | A run on which stop loses an update: it cancels a flush in mid-write and the orphaned write fails, leaving an old file and nothing marked |
| RegistryProtocol.UnencodableLost | addon/petkit_local/devices/registry.py:169-174 | A run on which a flush gives an update up: its snapshot cannot be encoded, and however many flushes follow the file stays as it was with nothing marked |
| RegistryProtocol.RegistrationDurable | addon/petkit_local/devices/registry.py:109-137 | A fact that every later snapshot keeps, once saved with nothing in flight, is on disk for good through failures, cancellations and overlapping saves alike |
| Registry.CredentialsDurable | addon/petkit_local/devices/registry.py:288-344 | A device registered on a working disk while no write is in flight stays on disk with its key and secret through every run of sign-ups of any devices, other changes, saves, flushes, failures, cancellations and orphaned writes |
| Registry.SignUpKeepsCredentials | addon/petkit_local/devices/registry.py:288-344 | No sign-up of any device rewrites a product key or secret that was issued |
| Registry.NameKept | addon/petkit_local/devices/registry.py:288-312 | A known device's broker name survives a sign-up if and only if its serial was known, none is given, or it spells the same name: the documented "nothing else is overwritten" does not cover the name |
| RegistryRecords.FilledExactly | addon/petkit_local/devices/registry.py:298-311 | Field by field: a blank serial number or MAC is filled and a known one kept, the firmware is the one given unless none is, the name follows a serial number that fills a blank, and nothing else changes |
| RegistryRecords.RecordExactly | addon/petkit_local/devices/registry.py:288-344 | After every run of sign-ups of any devices, a device that was unknown is known if and only if it signed up, with type, key and secret of its first call, the first serial number and MAC that any of its calls gave, the last firmware given, and the name these spell |
| Registry.SignUpIdempotent | addon/petkit_local/devices/registry.py:298-315 | Signing up twice with the same details is signing up once |
| RegistryRecords.SignUpWrites | addon/petkit_local/devices/registry.py:298-344 | A first contact is on disk at once, or marked where the disk fails; a known device that tells nothing new changes nothing; news are marked, or written where no loop runs; no other record is touched |
| RegistryRecords.NamesDiffer | addon/petkit_local/devices/base.py:189-193 | Devices of one type that gave no serial number never share a broker name |
| Registry.DeviceRegistry.Save | addon/petkit_local/devices/registry.py:109-137 | The method is the protocol's save step; without a path it only clears the mark |
| Registry.DeviceRegistry.MarkDirty | addon/petkit_local/devices/registry.py:139-149 | The protocol's change step, followed by a save when no event loop runs |
| Registry.DeviceRegistry.FlushBegin | addon/petkit_local/devices/registry.py:169-176 | The first half of a flush is the protocol's start step, or its failed encoding |
| Registry.DeviceRegistry.FlushFinish | addon/petkit_local/devices/registry.py:176-181 | The second half is the protocol's end step |
| Registry.DeviceRegistry.Stop | addon/petkit_local/devices/registry.py:187-247 | With a flusher running, the protocol's cancellation and up to two saves; without one, at most one; without a path only the mark is cleared |
| Registry.DeviceRegistry.Start | addon/petkit_local/devices/registry.py:183-185 | Afterwards a flusher is running |
| Registry.DeviceRegistry.GetOrCreate | addon/petkit_local/devices/registry.py:288-344 | A sign-up changes exactly one record and is exactly that action of the runs above; a first contact is saved at once, a changed known device is marked, an unchanged one writes nothing |
| Weight.TrimKeepsMajority | addon/petkit_local/ai/weight.py:248-273 | The trimming pass always keeps more than half of the sample |
| Weight.GuardNeverFails | addon/petkit_local/ai/weight.py:226-273 | From four samples on the guard against too few survivors never fails, so the reported statistics are those of the trimmed sample |
| Weight.MedianInMajority | addon/petkit_local/ai/weight.py:238-245 | The median lies in every interval that holds more than half of the sample |
| Weight.ReportedInMajority | addon/petkit_local/ai/weight.py:248-273 | If more than half of the sample lies in an interval no wider than 300 g, the median does too, before trimming and after |
| Weight.MajorityDecides | addon/petkit_local/ai/weight.py:276-288 | Such a majority inside the band of a weight forces it to count as corroborated if and only if there are five samples, and outside the band forces it not to |
| Weight.StatsIgnoreOrder | addon/petkit_local/ai/weight.py:248-273 | The statistics depend on the observations, not on their order |
| WeightLaws.MedianHalves | addon/petkit_local/ai/weight.py:238-245 | For an odd count the median, and no other number, is the observation with equally many in a half below and in a half above it; for an even count it is the number half-way between the largest of a lower half and the smallest of the upper half |
| WeightLaws.StatsMove | addon/petkit_local/ai/weight.py:248-273 | Shifting every observation shifts the reported median, and reflecting them all reflects it; the spread and the count stay |
| WeightLaws.StatsExactly | addon/petkit_local/ai/weight.py:226-273 | What is reported, in full and without sorting: nothing for no observations, up to three the median and median deviation of all, from four on those of the observations within 300 g or four median deviations of the median, whichever is wider, always with the count of all |
| WeightLaws.CorroboratedExactly | addon/petkit_local/ai/weight.py:276-288 | A weight is corroborated if and only if there are at least five observations and their reported median differs from it by at most 100 g or 8 percent of the weight, whichever is wider |
| Retention.SelectExpired | addon/petkit_local/media/retention.py:220-247 | The reverse loop returns the items the rule expires, oldest first, and the bytes between the first and the last total |
| Retention.OptimalEviction | addon/petkit_local/media/retention.py:220-247 | On newest-first dated input exactly the shortest oldest part whose removal meets both caps expires, and the freed bytes are its size |
| Retention.ExpiresBeyondCut | addon/petkit_local/media/retention.py:235-246 | Entry by entry: an entry expires exactly when it lies beyond the longest newest part that meets both caps |
| Retention.UndatedBreakCut | addon/petkit_local/media/retention.py:235-246 | When the dated entries are newest first, what expires is the oldest part if and only if no undated entry that still fits stands behind a dated one that is over age |
| Retention.SweepDirectory | addon/petkit_local/media/retention.py:289-305 | The sweep deletes the expired files the age floor does not protect, oldest first, and reports their size |
| Retention.SweepPartitions | addon/petkit_local/media/retention.py:289-305 | Every file is deleted or left, and none both |
| Retention.SweepHolds | addon/petkit_local/media/retention.py:289-305 | After a sweep either both caps hold of the files left or every file left is younger than the floor, and no protected file is ever deleted |
| Dns.ReadResponse | addon/petkit_local/http/dns.py:84-112 | The parser's loops, offsets and errors compute the recursive reading of a packet |
| Dns.SkipNameFrom | addon/petkit_local/http/dns.py:66-81 | The loop over labels computes the recursive skip |
| Dns.ReadsResponse | addon/petkit_local/http/dns.py:84-112 | For every response whose counts match its records and whose names are labels ended by zero or a compression pointer, the parser returns exactly the four-byte type-A data in order, or the server's error code (sections 4.1.1 to 4.1.4 of RFC 1035) |
| Dns.SkipsName | addon/petkit_local/http/dns.py:66-81 | A well-formed name is skipped to its very end |
| Dns.SkipAdvances | addon/petkit_local/http/dns.py:66-81 | On any bytes a skip that succeeds moves forward and ends at most one past the data |
| Dns.CutReadsSame | addon/petkit_local/http/dns.py:84-112 | A packet cut anywhere gives an error or exactly the addresses of the whole packet |
| Dns.StrangersRefused | addon/petkit_local/http/dns.py:92-96 | What is too short for a header, or carries another transaction id, is an error |
| Dns.QueryHeader | addon/petkit_local/http/dns.py:56-63 | A built query reads back as its id, the recursion flag alone, one question and no records (section 4.1.1 of RFC 1035) |
| Dns.QueryAsks | addon/petkit_local/http/dns.py:56-63 | What a name is asked with: the name up to its final dots is split at dots and encoded part by part, and for parts of 1 to 63 bytes the query from byte 12 is the wire form of exactly one question with those labels in order, type 1 and class 1 (sections 4.1.2, 3.2.2 and 3.2.4 of RFC 1035) |
| Dns.SkipOverQuery | addon/petkit_local/http/dns.py:56-63 | Over a built query the skip lands exactly four bytes before the end if and only if every encoded label has between 1 and 191 bytes |
| Dns.SkipOverBuiltQuery | addon/petkit_local/http/dns.py:56-63 | In terms of the name: if and only if no part between its dots is empty and none encodes to 192 bytes or more, which the encoder allows since it bounds only the pieces of a part |
| Dns.EmptyPartEndsName | addon/petkit_local/http/dns.py:56-63 | Where it fails: a name that begins with a dot is built into a query, and its name is taken to end at once |
| Dns.LongPartIsPointer | addon/petkit_local/http/dns.py:56-63 | And a part that encodes to 192 bytes or more is built into a query, and is taken for a pointer |
| Jpeg.JpegDimensions | addon/petkit_local/media/transcode.py:156-195 | The scanning loop, which stays in bounds on any bytes, computes the recursive scan from the start-of-image marker |
| Jpeg.FindsFrame | addon/petkit_local/media/transcode.py:156-195 | After any number of well-formed segments and stray bytes, each segment with any fill bytes, the frame header's own width and height are returned, whatever the payloads hold (sections B.1.1 and B.2.2 of ITU-T T.81) |
| Jpeg.EndsBeforeFrame | addon/petkit_local/media/transcode.py:185-186 | An image that ends before any frame header has no dimensions |
| Jpeg.BadLengthEnds | addon/petkit_local/media/transcode.py:191-193 | A segment whose length does not cover its own two bytes ends the scan without a size |
| Jpeg.CutFrameEnds | addon/petkit_local/media/transcode.py:179-181 | A frame header cut short has no size |
| Jpeg.OnlyFromFrame | addon/petkit_local/media/transcode.py:179-184 | On any bytes a result is what a whole frame header inside the data spells, under one of the thirteen frame markers |
| Repair.RepairIdempotent | addon/petkit_local/events/normalize.py:143-157 | Repairing twice is repairing once, on every text |
| Repair.OnlyQuotesInserted | addon/petkit_local/events/normalize.py:143-157 | The text is a subsequence of its repair, which differs from it in added quote characters only |
| Repair.Untouched | addon/petkit_local/events/normalize.py:143-157 | A text is left alone if and only if no colon is followed by a bare value other than a literal or strict number |
| Repair.QuoteSeparates | addon/petkit_local/events/normalize.py:136 | What stands before a quote and what stands behind it are repaired apart |
| Repair.BareFound | addon/petkit_local/events/normalize.py:136 | What the pattern finds is well formed and at the front |
| Repair.BareIsFound | addon/petkit_local/events/normalize.py:136 | A well-formed bare value at the front is found whatever follows |
| Repair.BareQuoted | addon/petkit_local/events/normalize.py:143-157 | A bare value comes out in quotes unless it is true, false, null or a number; the space around it and what closes it stay |
| Repair.ClassesByCode | addon/petkit_local/events/normalize.py:136 | The pattern's character classes by code point: word characters, dot and hyphen, the three closers, white space |
| Repair.NumberIsGrammar | addon/petkit_local/events/normalize.py:137-140 | Every text taken for a number has a sign, an integer part without leading zero, a fraction and an exponent (section 6 of RFC 8259) |
| Repair.GrammarIsNumber | addon/petkit_local/events/normalize.py:137-140 | Every text of that grammar is taken for a number |
| Repair.ObjectRepaired | addon/petkit_local/events/normalize.py:143-157 | A flat object with any strings left bare comes out strictly printed, up to what the repair makes of its keys and quoted strings |
| Repair.ObjectRestored | addon/petkit_local/events/normalize.py:143-157 | A flat object with any strings left bare comes out exactly as it should have been printed if and only if there is nothing to quote inside its keys and quoted strings |
| Repair.ColonlessRestored | addon/petkit_local/events/normalize.py:143-157 | In particular when no key or string holds a colon |
| Repair.WordInString | addon/petkit_local/events/normalize.py:136 | What is changed inside a string otherwise: a colon, a word and a comma |
| Repair.DecodesBare | addon/petkit_local/events/normalize.py:160-178 | An object printed with bare strings, which does not parse, decodes to what its strict print decodes to |
| Repair.ParsedIsUnaltered | addon/petkit_local/events/normalize.py:160-169 | A text that parses strictly is decoded as it is, unrepaired |
| MqttSessions.LiveExactly | addon/petkit_local/mqtt/auth.py:249-402 | In every interleaving of connects, packets, session ends, renamings, sweeps and reports, the recorded session of a device is exactly the one accepted last of which no end was noticed, that is reported under a client id that still led to the device |
| MqttSessions.RecordedTruth | addon/petkit_local/mqtt/auth.py:360-402 | The session accepted last that has not ended is always recorded; a recorded session has ended if and only if all reports of its end went unnoticed |
| MqttSessions.ConnectedMeansCurrent | addon/petkit_local/mqtt/auth.py:315-329 | In every run a device marked connected has a session that was accepted last and has not ended, if and only if it has none whose end went unnoticed |
| MqttSessions.ConnectedExactly | addon/petkit_local/mqtt/auth.py:249-402 | Without watchdog sweeps and heartbeat reports the mark is truthful, connected exactly while such a session exists, if and only if no end went unnoticed |
| MqttSessions.RenamedWhileLive | addon/petkit_local/devices/registry.py:303-306 | How an end goes unnoticed: a device renamed by a sign-up while its session is live stays marked connected after that session ended |
| MqttSessions.LiveOnOne | addon/petkit_local/mqtt/auth.py:292-313 | No session is live on two devices, so the scan over live sessions finds the device of a packet |
| MqttSessions.TakeOver | addon/petkit_local/mqtt/auth.py:382-398 | The teardown of a superseded session changes nothing at all, and the next packet of the open live session restores a cleared mark |
| MqttHooks.AdmittedExactly | addon/petkit_local/mqtt/auth.py:418-496 | Clients that are no device are admitted, and without strict mode everybody is; under strict mode a device's CONNECT is admitted if and only if its signature matches, and a session not yet live exactly when it is live and the device connected by it afterwards; whoever is refused changed nothing, and an unknown device is refused |
| MqttHooks.ConnectTakes | addon/petkit_local/mqtt/auth.py:249-276 | An accepted CONNECT, field by field: online, connected by this session from now on, no filters yet |
| MqttHooks.StrangerChangesNothing | addon/petkit_local/mqtt/auth.py:448-455 | A client nobody knows changes nothing, admitted or not |
| MqttHooks.PacketTouches | addon/petkit_local/mqtt/auth.py:292-358 | A packet of the live session, field by field: last heard now, connected if it was or if the connection is open and the packet no DISCONNECT, and the filters it asks for that were not held added in order |
| MqttHooks.StrangePacket | addon/petkit_local/mqtt/auth.py:292-313 | A packet of a session that is live on no device changes nothing |
| MqttHooks.EndClears | addon/petkit_local/mqtt/auth.py:360-402 | A session end clears the record and the mark of the first device of that name, unless another session is live there |
| MqttHooks.ReportClears | addon/petkit_local/http/handlers/heartbeat.py:199-212 | A report of no session clears the mark if and only if the connect is at least 15 s old and the live session was not heard within 15 s or one and a half keep-alives, whichever is longer |
| MqttHooks.ContactAndName | addon/petkit_local/http/middleware/logging.py:125-131 | A device heard over HTTP counts as online, and a renamed one answers to its new name, with everything else and every other device as it was |
| MqttHooks.SweepTakes | addon/petkit_local/ha/publisher.py:222-231 | A sweep takes online and connected marks from exactly the stale devices that are online, and nothing else from any |
| MqttSessions.AuthPlugin.ByMqttName | addon/petkit_local/devices/registry.py:350-355 | The scan of the registry returns the first device that bears the name |
| MqttSessions.AuthPlugin.OwnerOf | addon/petkit_local/mqtt/auth.py:292-313 | The scan of the live sessions returns the first device on which the session is live |
| MqttSessions.AuthPlugin.Authenticate | addon/petkit_local/mqtt/auth.py:418-496 | Who is admitted under which mode, and that only an accepted device changes the state |
| MqttSessions.AuthPlugin.MarkMqttConnected | addon/petkit_local/mqtt/auth.py:249-276 | The new session replaces the old one, the mark goes up and the subscriptions start empty |
| MqttSessions.AuthPlugin.PacketReceived | addon/petkit_local/mqtt/auth.py:292-358 | Exactly the device whose live session the packet came on is touched: liveness, the mark unless it is a DISCONNECT, and its new filters |
| MqttSessions.AuthPlugin.ClientDisconnected | addon/petkit_local/mqtt/auth.py:360-402 | Record and mark are cleared unless a newer session is live |
| MqttSessions.AuthPlugin.SweepStale | addon/petkit_local/ha/publisher.py:222-231 | Exactly the stale online devices go offline and lose the mark |
| MqttSessions.AuthPlugin.NoteIotStatus | addon/petkit_local/http/handlers/heartbeat.py:199-212 | A report of no session clears the mark unless broker traffic of the live session is recent or the connect is younger than the grace |
| Topics.ShapesDisjoint | addon/petkit_local/mqtt/topics.py:29-47 | On every text at most one of the five patterns matches, and the parser recognises it exactly then |
| Topics.ParseOfBuilt | addon/petkit_local/mqtt/topics.py:124-211 | Parsing a built topic returns its parts |
| Topics.BuiltOfParse | addon/petkit_local/mqtt/topics.py:124-175 | Building a parsed topic restores the text, but for one final line end the patterns let through |
| Topics.ParseExactly | addon/petkit_local/mqtt/topics.py:29-47 | A text parses to a topic if and only if it is that topic as built, or, the OTA patterns aside, that with one line end behind |
| Topics.RepliesUnparsed | addon/petkit_local/mqtt/topics.py:178-180 | An event acknowledgement is not recognised |
| Topics.RewriteRoundTrip | addon/petkit_local/mqtt/topics.py:214-243 | A rewritten topic has the same category and detail under the new identity, and rewriting it back restores it |
| Topics.RewriteOnlyParsed | addon/petkit_local/mqtt/topics.py:214-243 | Exactly the recognised topics are rewritten; rewriting one to its own identity is the identity |
| Topics.SubscribedExactly | addon/petkit_local/mqtt/topics.py:99-121 | Exactly which topics the filters of a device match: everything under its service level, acknowledgements of its events, its configuration push (section 4.7 of MQTT 3.1.1) |
| Topics.FiltersReachOwnDownstream | addon/petkit_local/mqtt/topics.py:99-121 | Of all topics the program builds they match those three kinds of their own device, none of another device, no event post and no OTA topic |
| Topics.DownstreamIsOurs | addon/petkit_local/mqtt/topics.py:70-96 | A recognised topic that reaches a device carries its identity and is server-published unless it is an acknowledgement of a command |
| Topics.PublishedKinds | addon/petkit_local/mqtt/topics.py:65-96 | Of the topics the program builds, exactly commands other than acknowledgements, configuration pushes and OTA upgrades count as published by the server |
| Pending.DeviceSettings.Remember | addon/petkit_local/devices/pending.py:9-21 | The values become pending and their keys are struck from every queued property write, empty ones dropped |
| Pending.DeviceSettings.Completed | addon/petkit_local/devices/pending.py:24-38 | Exactly the pending values that equal those sent are confirmed, and exactly the queued writes that say no more than what was sent are dropped |
| Pending.DeviceSettings.BeginWrite | addon/petkit_local/web/api/_common.py:104-121 | A panel write takes the lock and remembers those of its values that are settings of the device |
| Pending.DeviceSettings.EndWrite | addon/petkit_local/web/api/_common.py:122-145 | When its publish has ended the remembered values are confirmed, or the whole envelope is queued |
| Pending.DeviceSettings.Poll | addon/petkit_local/http/handlers/heartbeat.py:249-261 | A poll hands over the queue with superseded writes replaced by one with everything pending, and leaves nothing queued or pending |
| Pending.DeviceSettings.WriteDirect | addon/petkit_local/ha/command_router.py:250-269 | A write by Home Assistant is sent or queued and never remembered |
| PendingSteps.BeginExactly | addon/petkit_local/devices/pending.py:9-21 | The effect of a panel write's start, value by value and command by command: its settings become the pending values and are struck from every queued write, of which those left without any are dropped; nothing while one is under way |
| PendingSteps.SentExactly | addon/petkit_local/devices/pending.py:24-38 | What was sent is pending no longer unless another value was asked meanwhile, and exactly the queued writes that say no more than what was sent are gone, all others in order |
| PendingSteps.EndExactly | addon/petkit_local/web/api/_common.py:122-145 | A write whose publish succeeded counts as sent in its settings of the device; any other is queued whole |
| PendingSteps.PollExactly | addon/petkit_local/http/handlers/heartbeat.py:249-261 | With nothing pending a poll hands over the queue as it is; else exactly the commands that are not writes of pending settings alone, in order, and one write of all that is pending; it leaves nothing behind |
| Pending.QueueIsLatestOnly | addon/petkit_local/devices/pending.py:9-38 | In every run, polls and other writes between the start and the end of a panel write included, from the start or from any remembered write of a setting or poll on, the setting is at all times in at most one write queued or under way and has no value but the newest one asked for, if and only if no unremembered write of it goes past another value or into a queue beside another write of it |
| Pending.Restored | addon/petkit_local/devices/pending.py:9-21 | A remembered write of a setting, and a poll while none of it is under way, bring it back to that order from any state whatever |
| Pending.NothingStale | addon/petkit_local/devices/pending.py:9-38 | In particular that order holds whenever the setting had no unremembered write since its last remembered write or poll |
| Pending.HomeAssistantOvertaken | addon/petkit_local/ha/command_router.py:250-269 | Where it fails: the panel queues one value, Home Assistant queues another, and the poll hands over the panel's alone, so the newer value is lost |
| Pending.PendingExactly | addon/petkit_local/devices/pending.py:9-38 | In every run a value is pending if and only if it is the latest remembered for its key and was not confirmed with that exact value since |
| Pending.HandedAreLatest | addon/petkit_local/http/handlers/heartbeat.py:249-261 | A poll hands over every pending setting, and of a setting in order no value but the newest |
| Pending.HandedLast | addon/petkit_local/http/handlers/heartbeat.py:249-261 | In any state the last write of a setting that a poll hands over has the pending value, or when none is pending the value queued last |
| Pending.PollHandsNewest | addon/petkit_local/http/handlers/heartbeat.py:249-261 | In every run, when the last write of a setting was remembered, a poll hands over no value of it but the newest |
| Pending.PollAfterStray | addon/petkit_local/http/handlers/heartbeat.py:249-261 | In every run, when the last write of a setting was an unremembered one and nothing has touched the setting since, a poll hands over the newest value or none if and only if the value pending before that write was the same or none and, where the write went straight out and none was pending, the value queued last was the same or none |
| Pending.UnrememberedDue | addon/petkit_local/ha/command_router.py:250-269 | A step that does not remember a setting, report it sent or poll leaves what a poll would hand over as it was, except that an unremembered write queued while none is pending is handed over |
| Pending.RememberedLast | addon/petkit_local/devices/pending.py:9-21 | In every run a setting whose last write was remembered is in that order, whatever came before |
| Pending.ActionsConserved | addon/petkit_local/devices/pending.py:31-38 | In every run the actions handed over and those still queued are exactly the actions queued, in order and as often |

## Left out

- Cards are records in a list addressed by position, not heap objects: the model does not capture aliasing between a card held in two Python lists.
- Card fields that grouping takes from the head event (weight, content, state) or computes from the events of one group (display time, duration), and the filters over finished cards.
- Times and weights are real numbers: floating-point rounding is not modelled.
- Device confinement inside one episode is not checked by the program and not claimed; one foreign episode may be split over two cards, so the media claims are per card.
- Sessions.GroupSessions: requires distinct ids, which the table's primary key guarantees.
- ffmpeg, ffprobe, SQLite and the file system are parameters; `os.replace`, the atomic writes and one transaction are single steps, and database errors other than a duplicate file id are not modelled.
- MediaTable.ChunksInPlayOrder: ties in both times keep insertion order here; SQL leaves them open.
- The list file itself, which is written, read and removed inside one attempt, is not on the modelled disk; neither are leftovers of a crashed process.
- Row fields the stitcher only copies (module type, file type, duration, size, encryption) and the size probe after the move.
- SessionPets.OrderIndependent: distinct timestamps, one parent per episode and no tail half-way between two cards are assumed; each is needed on a family of inputs (the `SessionTies` rows), but an input that breaks one of them need not show it.
- StitchProgress.SweepsRunOutOfWork: assumes the work directory can be made, no uploads between passes, no earlier clip row for an open episode, colon-free categories and one device per event; without the free file id a call raises as `RaisedExactly` states.
- The registry's restore and merge of default settings, its other device fields, removals, and the BLE and pet registries built on the same base; a flusher that died of an exception of its own.
- RegistryProtocol.NoLostUpdate: a run with a save during a write in flight, a cancelled write or a snapshot that cannot be encoded is excluded, because the claim is false there (`RegistrationOverwritten`, `OrphanFailureLost`, `SaveIsFinal`).
- Weight attribution and the building of profiles: matching one observation against stored profiles is a single comparison per profile.
- Retention of media rows in the database, device-log and thumbnail settings: they call the two functions modelled here.
- Retention.SweepHolds: assumes the unlinks succeed; a file that cannot be removed is reconsidered by the next sweep.
- Addresses are four bytes, not dotted text; sockets, caching and the query's retransmission are not part of the model.
- The JSON parser is a parameter: nested values, escapes and numbers in strings are its business.
- Repair.ObjectRestored: for flat objects, whose keys and bare words are as `AllSound` says; `RepairIdempotent`, `OnlyQuotesInserted` and `Untouched` cover every text.
- MqttSessions.LiveExactly: a broker name stands for the pair of product key and name; signature computation and client-id parsing are parameters, and devices removed from the registry are not modelled.
- MqttSessions.LiveOnOne: assumes a connection connects once, as `TakeOver` does.
- Pending.QueueIsLatestOnly: an unremembered write counts from when it was sent or queued, not from when its publish began.
- Restarts between writes, and the mapping of commands to heartbeat content.
- Servers, clients, Home Assistant discovery, patchers, the panel, event code tables and decoders: plumbing and tables that would add only one-branch claims.
