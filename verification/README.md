# Velvet: verified models of its protocols and codecs

Velvet is a work tracker: a Go API over PostgreSQL, a worker that keeps it in step with GitHub, and a native
desktop client in Rust. This project models the parts of it that are hard to get right by reading and proves
what they promise.

- **Uploaded images** (`Bytes`, `Tiff`, `Png`, `Jpeg`, `WebP`, `Upload`, `Formats`). Each container filter is
  a loop over a buffer, proved against a specification that parses the whole file, filters its parts and
  writes them again. About the specification it is proved that parsing and writing are inverse in both
  directions, that filtering twice is filtering once, that every kept part survives byte for byte and in
  order, exactly which files are accepted, that no metadata chunk or segment is left but an orientation, and
  that a file never grows. `Formats` states the layouts on plain bytes: what stands where, which names and
  markers count, and that a canvas of a width and a height admits only a frame of that width and height.
  Payloads that are copied (pixels, profiles, unlisted JPEG segments, padding, whatever stands in IEND) are
  not looked into. The layouts are those of sections 3.2 and 3.3 of RFC 2083, Annex B of ITU-T T.81, sections
  2.3 and 2.7 of RFC 9649 and section 2 of TIFF 6.0.
- **The calendar** (`Civil`, `Rfc3339`). The closed forms between day numbers and dates are inverse over all
  integers and agree with a calendar that counts one day at a time. Printing and reading a timestamp (section
  5.6 of RFC 3339) is a round trip exactly for years -999 to 9999.
- **Order keys** (`Fracdex`, `Positions`). A key lies strictly between its neighbours; when one exists, how
  long it gets, and how many items a list can take are stated exactly. Over runs of appends, moves with one or
  two neighbours, changes of list and issues carried over, it is proved which edits keep every list in strict
  order.
- **The job queue** (`JobQueue`). Whole runs of enqueue, claim, complete, fail and purge in any order, with
  workers that report late, twice or never. Every row is shown to be what the events say of it.
- **Installations** (`Handshake`, `Installations`, `Effects`, `Listing`). The life of a GitHub installation
  under late workers, retries, suspension, deletion and organisations that disappear, together with the
  two-row authorisation handshake that binds it and the paged reading of its repositories. `Effects` says,
  field by field, what each transaction makes of each row, and what a suspension stops until it is lifted.
- **Identity and credentials** (`Identity`, `DeviceFlow`, `Invites`). Which GitHub account attributes whose
  work; device sign-in and capped keys; invitations, sign-in links and their limits. Over every run, each
  table is what the log of events says, and each operation succeeds exactly when the log warrants it.
- **The desktop client** (`Desktop`, `Screen`, `Boards`, `Window`). Requests capture revision counters,
  replies arrive in any order, one flag admits one write at a time, and a raised flag always has the request
  that lowers it. `Screen` says what each action and reply makes of everything shown: a further page keeps
  every loaded row, and no row goes but by a first page, a change of organisation or a sign-out. Exactly when
  milestones can be shown without a sprint is stated over single replies and over runs.
- **Comments** (`Comments`). Nesting loses no comment and repeats none, and puts each in its place.

Where the program keeps rows, the model keeps maps in the fields of a class, and each transaction is one
method. Each method is proved against a function on the whole table, and runs are folds of those functions, so
that a statement about a run covers every interleaving of transactions. The functions themselves are held to
laws that do not mention them: what an event does to each field, in terms of the state before it, or what a
whole run leaves, in terms of its events.

Findings about the code, each with the input that shows it and the condition under which it does well:

- Positions: a move that names only the issue to follow ignores the one behind it. In a list that only grew at
  its end it takes exactly the position of the next issue, for every list and place
  (`Positions.AfterOnlyCollides`); naming only the issue to precede puts the moved one in front of the whole
  list (`Positions.BeforeOnlyGoesFirst`); and unfinished issues carried into another sprint collide with the
  ones that grew there (`Positions.CarryCollides`). Two issues with one position can have nothing moved
  between them again (`Positions.NothingBetweenEquals`). A move keeps the order exactly when no other issue
  has the key it computes (`Positions.MoveKeepsOrderExactly`); a caller is safe when nothing else lies between
  the named neighbours, an absent one being the end of the list (`Positions.ClearMoveKeepsOrder`,
  `Positions.RunKeepsOrder`), and no weaker test of what lies between them would do
  (`Positions.ClearIsNeeded`).
- Repository listings: the generation fences a late worker only against what raises it. Two deliveries of one
  job that overlap after a lease expired hold the same generation, so the older listing, if it arrives last,
  replaces the newer (`Installations.OlderListingWins`). A listing commits exactly when nothing raised the
  generation since, its organisation was not deleted, and no row is foreign
  (`Installations.ApplyCommitsExactly`); the last to commit decides (`Installations.LastListingDecides`); and
  a redelivery with no other listing in between changes nothing (`Installations.RedeliveryChangesNothing`).
- Timestamps: a year past 9999 prints in five columns and does not read back (`Rfc3339.RoundTripFails`);
  `Rfc3339.RoundTrip` gives the exact range.
- The queue's bound on waiting has a second term: jobs enqueued by the very instant a waiting job fell due can
  be claimed before it without limit. `JobQueue.NoStarvation` is the bound with that term, for every run, and
  `JobQueue.TiesCanStarve` attains it for every number of jobs ahead and of ties.
- Giving up a sprint in the desktop client does not retire its request, so milestones can stay behind with no
  sprint selected (`Desktop.MilestonesCanOutliveSprint`). They can exactly if a current request for milestones
  was under way at that moment (`Boards.GivingUpExactly` for the next reply, `Boards.GivingUpOverRuns` for
  runs). In every run in which no sprint is given up at such a moment, no milestones are shown without a
  sprint (`Boards.NoSprintNoMilestones`), and no other step endangers that (`Boards.StepSettles`).

## Assumptions

- A transaction is atomic and commits in full or not at all; unique indexes, foreign keys with their
  cascades, and column defaults (`run_after` is the time of insertion, `attempts` and `sync_generation`
  start at 0) hold as the schema declares them.
- `now()` and `clock_timestamp()` are parameters. Statements about time assume a clock that does not go
  back; a transaction has one time, except that binding an installation reads it twice.
- Random tokens and new row ids are new. A stored hash identifies its secret, so a table is keyed by the
  secret itself.
- A caller's role in an organisation and the life of a browser session are parameters; `Forbidden` and
  `NotFound` are told apart only where the code's later behaviour depends on it.
- CRC-32 and the image library are parameters, and every result holds for any choice of them.
- Text is compared byte by byte, also by the database. Case folding is that of ASCII.
- Microseconds, byte positions and counters are unbounded integers, except where the code truncates: sizes
  in containers are reduced to 16 or 32 bits where they are written.
- A server that answers the desktop client answers the question: rows belong to the organisation, issue,
  sprint or milestone that was asked for, and a page holds no issue twice.

## Model

| member | source | states |
|---|---|---|
| Tiff.ReadOrientation | api/internal/imageupload/image.go:87-129 | the reader's loop over the primary directory returns what the specification says, and rejects what it rejects |
| Tiff.OrientationMeaning | api/internal/imageupload/image.go:114-128 | an orientation is reported exactly when one well-formed entry carries it and no other entry has that tag; none is reported exactly when no entry has it |
| Tiff.OrientationRange | api/internal/imageupload/image.go:122-126 | an accepted block reports 0 or a value from 1 to 8 |
| Tiff.OrientationRoundTrip | api/internal/imageupload/image.go:130-134 | the rewritten block reads back as the orientation it was written for, with or without the Exif header |
| Tiff.OrientationNeeds26 | api/internal/imageupload/image.go:106-113 | a block that reports an orientation has at least the 26 bytes of the rewritten one |
| Png.ParseSerialize | api/internal/imageupload/image.go:135-142 | reading back written chunks gives the same chunks, for any checksum |
| Png.SerializeParse | api/internal/imageupload/image.go:149-162 | an accepted stream is exactly what its chunks write |
| Png.StripPng | api/internal/imageupload/image.go:143-194 | the one-pass filter with its index into the buffer returns what parsing, filtering and writing give, errors included |
| Png.StripChunk | api/internal/imageupload/image.go:163-184 | what one chunk adds to the output, or that it rejects the file |
| Png.FilterPreserves | api/internal/imageupload/image.go:143-194 | the output parses as chunks ending exactly at IEND; allowed chunks are unchanged and in order; only an orientation block is left of the metadata, and it reads as the input's orientation |
| Png.FilterKeeps | api/internal/imageupload/image.go:163-184 | the allowed chunks and the orientation of a chunk sequence are those of its filtered form |
| Png.FilteredIsClean | api/internal/imageupload/image.go:163-184 | a filtered sequence holds allowed chunks and at most one orientation-only block, nothing else |
| Png.FilterAccepts | api/internal/imageupload/image.go:163-184 | exactly which chunk sequences are accepted: no animation, no unknown critical chunk, at most one readable eXIf |
| Png.FilterChunksTwice | api/internal/imageupload/image.go:163-184 | filtered chunks filter to themselves |
| Png.FilterIdempotent | api/internal/imageupload/image.go:143-194 | filtering an output again returns the same bytes |
| Png.FilterNeverGrows | api/internal/imageupload/image.go:143-194 | the output is no longer than the input |
| Jpeg.ScanIsScan | api/internal/imageupload/image.go:272-293 | what the entropy scan takes contains no marker, stuffed zeros, fill runs and restart markers aside |
| Jpeg.ScanThenMarker | api/internal/imageupload/image.go:272-293 | a scan followed by a marker is cut exactly where it ends |
| Jpeg.ParseSerialize | api/internal/imageupload/image.go:201-294 | reading back written segments gives the same segments, scans included |
| Jpeg.SerializeParse | api/internal/imageupload/image.go:201-294 | an accepted image is exactly what its segments write |
| Jpeg.StripJpeg | api/internal/imageupload/image.go:195-296 | the one-pass filter with its index into the buffer returns what parsing, filtering and writing give |
| Jpeg.SkipFill | api/internal/imageupload/image.go:206-211 | the loop over fill bytes stops at the end of the run |
| Jpeg.SkipScan | api/internal/imageupload/image.go:272-291 | the loop over the entropy-coded bytes ends where the scan ends, or rejects the file |
| Jpeg.StripSegment | api/internal/imageupload/image.go:233-271 | what one segment adds to the output, or that it rejects the file |
| Jpeg.FilterPreserves | api/internal/imageupload/image.go:195-296 | the output parses; every segment that is neither application data nor a comment is kept verbatim and in order with its scan; JFIF densities and the orientation are those of the input |
| Jpeg.FilterKeeps | api/internal/imageupload/image.go:233-271 | kept segments, JFIF headers and orientation of a segment sequence are those of its filtered form |
| Jpeg.FilteredIsClean | api/internal/imageupload/image.go:233-271 | the only application data left is 14-byte JFIF without thumbnail, ICC, 12-byte Adobe and at most one orientation-only Exif |
| Jpeg.FilterAccepts | api/internal/imageupload/image.go:237-267 | exactly which segment sequences are accepted |
| Jpeg.FilterSegmentsTwice | api/internal/imageupload/image.go:233-271 | filtered segments filter to themselves |
| Jpeg.FilterIdempotent | api/internal/imageupload/image.go:195-296 | filtering an output again returns the same bytes |
| Jpeg.FilterNeverGrows | api/internal/imageupload/image.go:195-296 | the output is no longer than the input |
| WebP.ParseSerialize | api/internal/imageupload/image.go:297-303 | reading back written chunks gives the same chunks |
| WebP.SerializeParse | api/internal/imageupload/image.go:314-327 | the body of an accepted file is exactly what its chunks write |
| WebP.StripWebP | api/internal/imageupload/image.go:304-391 | the one-pass filter that patches the flags and the size in its output returns what parsing, filtering and writing give, and the first error it meets |
| WebP.StripHeader | api/internal/imageupload/image.go:329-340 | what the extended header adds, with its flags cleared in place |
| WebP.StripFrame | api/internal/imageupload/image.go:341-359 | a frame is copied if the decoder sizes it within the limit |
| WebP.StripExif | api/internal/imageupload/image.go:362-374 | what metadata adds, and that a second block rejects the file |
| WebP.FinishOutput | api/internal/imageupload/image.go:380-390 | the last checks and the two patches give a file with an exact size field |
| WebP.PatchHeader | api/internal/imageupload/image.go:383-388 | setting the flag in the written bytes is setting it in the chunk |
| WebP.FilterPreserves | api/internal/imageupload/image.go:304-391 | the size field is exact and the output parses; frame, alpha and profile chunks survive byte for byte; the Exif flag is set exactly when the chunk is there, the XMP flag never; the orientation is the input's |
| WebP.FilterKeeps | api/internal/imageupload/image.go:328-377 | copied chunks, frames and orientation of a chunk sequence are those of its filtered form |
| WebP.FilteredIsClean | api/internal/imageupload/image.go:328-377 | a filtered sequence holds header, frame, alpha, profile and at most one orientation-only block |
| WebP.HeaderKept | api/internal/imageupload/image.go:329-340 | an extended header stays first and keeps its canvas and its other flags |
| WebP.FilterChunksTwice | api/internal/imageupload/image.go:328-377 | filtered chunks filter to themselves |
| WebP.FilterIdempotent | api/internal/imageupload/image.go:304-391 | filtering an output again returns the same bytes |
| WebP.FilterAccepts | api/internal/imageupload/image.go:305-383 | exactly which files are accepted: exact size field, complete chunks, extended header only in front and within the pixel limit, one frame the decoder sizes within the limit and as the canvas, at most one readable EXIF, no animation, and an orientation only beside an extended header |
| WebP.FilterChunksAccepts | api/internal/imageupload/image.go:328-377 | a run over chunks, from any point, succeeds exactly when each chunk is acceptable where it is and neither a frame nor EXIF comes twice; it remembers an orientation exactly when one was declared |
| WebP.FilterLimits | api/internal/imageupload/image.go:328-390 | exactly which files are refused for size: those in which a canvas or a frame is over the pixel limit before anything else is wrong; every other refusal is for the form |
| WebP.FilterNeverGrows | api/internal/imageupload/image.go:304-391 | the output is no longer than the input |
| Upload.Sanitize | api/internal/imageupload/image.go:51-82 | exactly when an upload is accepted, and exactly when it is refused for a limit, ten mebibytes or twenty million pixels: never because of the filtered size |
| Upload.StripNeverGrows | api/internal/imageupload/image.go:75-77 | the second size limit can never be what refuses an upload |
| Upload.StripLimits | api/internal/imageupload/image.go:60-74 | of the three filters only the one for WebP refuses for size, and exactly when a canvas or a frame is over the limit before anything else is wrong |
| Upload.StripIsStable | api/internal/imageupload/image.go:59-74 | whatever the format, an accepted file filters to itself |
| Formats.HeaderReads | api/internal/imageupload/image.go:329-340 | an extended header written with a width and a height reads as that width and that height, each up to 2^24, and is valid exactly if its animation and reserved bits are clear |
| Formats.HeaderIsWritten | api/internal/imageupload/image.go:329-340 | every valid extended header is such a header |
| Formats.CanvasIsFrame | api/internal/imageupload/image.go:329-383 | on bytes: a file that declares a canvas is accepted only if its one frame is of that width and height, and within the pixel limit |
| Formats.CanvasSuffices | api/internal/imageupload/image.go:329-383 | a file of such a header and a frame is accepted if and only if the header is in order, the canvas within the limit, and the frame of that width and height |
| Formats.FrameFileIsWebP | api/internal/imageupload/image.go:345-358 | the decoder is shown a well-formed file whose only chunk is the frame |
| Formats.FlagsKept | api/internal/imageupload/image.go:336-339 | of the header's flags only those for EXIF and XMP change |
| Formats.FlagRaised | api/internal/imageupload/image.go:383-387 | the EXIF flag is raised where it was not, and no other bit changes |
| Formats.WebPFileLayout | api/internal/imageupload/image.go:304-308 | which first twelve bytes make a WebP file, its length included |
| Formats.WebPChunkLayout | api/internal/imageupload/image.go:314-327 | where the name, the length, the payload and the padding of a chunk stand, and when it is complete |
| Formats.WebPNames | api/internal/imageupload/image.go:328-377 | the four letters of every chunk that is treated specially |
| Formats.PngChunkLayout | api/internal/imageupload/image.go:149-162 | where the length, the name, the payload and the checksum of a chunk stand, and when it is complete |
| Formats.PngNames | api/internal/imageupload/image.go:163-184 | the four letters of every chunk that is copied, rewritten or refused |
| Formats.PngCritical | api/internal/imageupload/image.go:178-182 | an unlisted chunk is critical exactly if its name starts with a capital |
| Formats.JpegNames | api/internal/imageupload/image.go:233-267 | exactly which segments are copied, by marker and leading text, and which markers start none |
| Formats.OrientationRead | api/internal/imageupload/image.go:87-129 | in any block, in either byte order, wherever its directory is and whatever else it holds: an orientation is read if and only if one entry carries the tag, once, as one SHORT from 1 to 8 |
| Civil.DaysRoundTrip | desktop/src/state.rs:193-202 | every integer day number gives a valid date that maps back to it |
| Civil.DateRoundTrip | desktop/src/state.rs:181-187 | every valid date maps to a day number that gives it back |
| Civil.NextDayNumber | desktop/src/state.rs:181-187 | the day after a date has the next number, under the 4, 100 and 400 year rule |
| Civil.ClosedFormIsNaive | desktop/src/state.rs:193-202 | the closed form is the calendar that counts day by day from 1970, for every integer |
| Civil.DaysFromCivilIsNaive | desktop/src/state.rs:181-187 | the inverse closed form counts the days of that calendar |
| Rfc3339.RoundTrip | desktop/src/state.rs:159-209 | reading inverts printing exactly for years -999 to 9999 |
| Rfc3339.RoundTripFails | desktop/src/state.rs:192-209 | the first instant of the year 10000 does not read back |
| Rfc3339.ParseFourColumns | desktop/src/state.rs:159-189 | a year in four columns puts every number where the reader looks for it |
| Rfc3339.ParseFiveColumns | desktop/src/state.rs:164-171 | a year in five columns does not read back |
| Rfc3339.ParseWithZone | desktop/src/state.rs:171-180 | fields, fraction and zone are read independently of each other |
| Rfc3339.OffsetShifts | desktop/src/state.rs:171-188 | replacing Z by an explicit offset moves the instant by exactly that offset |
| Rfc3339.ParseBound | desktop/src/state.rs:164-188 | every accepted text is within reach of four columns of year, so the 64-bit sums cannot overflow |
| Rfc3339.ParseIntExactly | desktop/src/state.rs:164-171 | a number is one optional sign and at least one digit and nothing else, and which number it is |
| Rfc3339.NineteenColumns | desktop/src/state.rs:159-171 | shorter text is refused; nineteen columns without a zone count as UTC |
| Rfc3339.BlanksDropped | desktop/src/state.rs:159-161 | white space of any kind around the text does not matter |
| Rfc3339.OffsetExactly | desktop/src/state.rs:171-188 | exactly which zones are accepted, and what they stand for |
| Fracdex.Between | api/internal/fracdex/fracdex.go:35-78 | the digit loop with its flag returns what the recursive choice of digits gives, errors included |
| Fracdex.PlaceBetween | api/internal/fracdex/fracdex.go:55-77 | from any position on, the chosen digits lie strictly between the rests of the bounds |
| Fracdex.StrictlyBetween | api/internal/fracdex/fracdex.go:33-78 | a returned key lies strictly between its bounds in byte order and never ends in 0 |
| Fracdex.BetweenExactly | api/internal/fracdex/fracdex.go:35-78 | a key is returned exactly when the bounds are in order, are digits, b is not a followed by zeros only, and the gap is within the depth limit; each error exactly in its own case |
| Fracdex.BetweenAlwaysFits | api/internal/fracdex/fracdex.go:11-13 | ordered digit keys shorter than the limit, not ending in 0, always have a key between them |
| Fracdex.GapBound | api/internal/fracdex/fracdex.go:55-76 | the key has at most one digit more than the longer bound |
| Fracdex.AppendNext | api/internal/fracdex/fracdex.go:55-81 | the next key after the n-th appended one |
| Fracdex.BetweenDigits | api/internal/fracdex/fracdex.go:55-77 | every digit of a returned key: those of the lower bound, filled up with zeros, and a last one halfway to the upper bound, or halfway to the end of the digits once that is no bound any more |
| Positions.Store.NextIssuePosition | api/internal/store/issue.go:118-134 | the position after the greatest of the list, or the first key |
| Positions.Store.RepositionIssue | api/internal/store/issue.go:542-566 | a key between the named neighbours, either of which may be absent, or the refusal |
| Positions.Store.CreateIssue | api/internal/store/issue.go:156-172 | a new issue goes to the end of its list, or the table is as before |
| Positions.Store.UpdateIssue | api/internal/store/issue.go:471-495 | an issue goes next to the named neighbours, else to the end of a new list, else stays; on a refusal the table is as before |
| Positions.Store.CarryIssues | api/internal/store/snapshot.go:192-199 | unfinished issues change lists with their positions |
| Positions.AppendCapacity | api/internal/store/issue.go:118-134 | exactly six times the depth limit issues can be appended, with distinct, ordered positions, and the next one fails |
| Positions.NextIsLast | api/internal/store/issue.go:122-133 | an appended issue comes strictly after every other of its list |
| Positions.AppendKeepsOrder | api/internal/store/issue.go:479-484 | appending, also by a change of list, keeps every list in strict order |
| Positions.MoveIsBetween | api/internal/store/issue.go:545-566 | a move puts the issue strictly between its neighbours, changes nothing else, and needs at most one digit more |
| Positions.ClearMoveKeepsOrder | api/internal/store/issue.go:472-478 | with nothing but the moved issue between the named neighbours, a move keeps the order |
| Positions.MoveKeepsOrderExactly | api/internal/store/issue.go:472-478 | a move keeps the order if and only if no other issue of the list has the computed key |
| Positions.ClearIsNeeded | api/internal/store/issue.go:545-566 | for all bounds with a key between them there is an ordered list with one issue in between whose position the move takes |
| Positions.AfterOnlyCollides | api/internal/store/issue.go:547-565 | in every list that only grew, a move that names only the issue to follow takes the next issue's position |
| Positions.BeforeOnlyGoesFirst | api/internal/store/issue.go:547-565 | in every list that only grew, a move that names only the issue to precede goes before all |
| Positions.NothingBetweenEquals | api/internal/fracdex/fracdex.go:35-42 | between two issues that share a position nothing can be moved |
| Positions.CarryKeepsOrderExactly | api/internal/store/snapshot.go:192-199 | carrying issues over keeps the order if and only if no carried position is taken there |
| Positions.CarryCollides | api/internal/store/snapshot.go:192-199 | two lists that only grew collide when a carried issue has a counterpart |
| Positions.StepKeepsOrder | api/internal/store/issue.go:471-484 | every edit that meets its condition keeps every list in strict order |
| Positions.RunKeepsKeys | api/internal/store/issue.go:471-484 | after any run of edits, positions are digits without a trailing 0, with at most one digit an edit |
| Positions.RunKeepsOrder | api/internal/store/issue.go:471-484 | after any run of creations, moves with one or two neighbours, changes of list and issues carried over that meet the condition, each list is strictly ordered |
| Positions.FirstEditsNeverFail | api/internal/fracdex/fracdex.go:11-17 | within the first depth-limit edits, an edit succeeds if and only if the issues it names are in the list and in order |
| Positions.CreateExactly | api/internal/store/issue.go:118-172 | a new issue is refused if and only if its list is full; otherwise it ends its list, or starts it with the first key, and no other row changes |
| Positions.UpdateExactly | api/internal/store/issue.go:471-495 | where a changed issue ends up: in its list, after and before the issues named, at the end of a new list, or where it was; no other row changes |
| Positions.RefusedExactly | api/internal/store/issue.go:471-484 | each refusal of a change if and only if an issue it names is missing from the list, its neighbours are out of order, or no key fits |
| Positions.CarryExactly | api/internal/store/snapshot.go:192-199 | the unfinished issues of the list and no others change lists, and no position changes |
| JobQueue.Store.EnqueueJob | api/internal/store/job.go:32-40 | a new job is due at once, with no attempts |
| JobQueue.Store.ClaimJob | api/internal/store/job.go:50-64 | the job due longest is leased for five minutes and counts an attempt; nothing is claimed exactly when no job is ready |
| JobQueue.Store.CompleteJob | api/internal/store/job.go:69-78 | the job goes exactly when the claim is current; a stale claim changes nothing |
| JobQueue.Store.FailJob | api/internal/store/job.go:83-98 | a current claim reschedules with capped backoff or dead-letters; a stale one changes nothing |
| JobQueue.AttemptsAreClaims | api/internal/store/job.go:50-98 | in every run attempts count claims, ids are never reused, and a dead job has at least five attempts |
| JobQueue.Conservation | api/internal/store/job.go:50-98 | every job ever enqueued is live or dead, or exactly one event ended it: the completion of its current claim or the purge of a dead job |
| JobQueue.ClaimsAreDistinct | api/internal/store/job.go:46-53 | no two claims handed out are the same |
| JobQueue.SupersededIsInert | api/internal/store/job.go:66-98 | once a job is claimed again, whatever the earlier claim reports, whenever it arrives, changes nothing |
| JobQueue.LeaseIsExclusive | api/internal/store/job.go:48-53 | two claims of a job without a failure between them are at least five minutes apart |
| JobQueue.NoStarvation | api/internal/store/job.go:50-61 | while a due job waits, whatever superseded workers report on it, at most as many claims happen as live jobs were due no later, plus those enqueued by the instant it fell due |
| JobQueue.TiesCanStarve | api/internal/store/job.go:54-60 | the bound is attained: for every m and n there is a run in which a due job with m ahead and n ties waits through m + n claims |
| JobQueue.Backoff | api/internal/store/job.go:88-89 | the delay before a retry is at least a second and at most an hour |
| JobQueue.RowsFollowLog | api/internal/store/job.go:32-98 | in every run each row is what the events say: payload, claims, when it is due and whether it is dead, none of them told by the queue's own functions |
| JobQueue.FifthFailureKills | api/internal/store/job.go:83-98 | a failure under the current claim kills the job if and only if it was claimed at least five times by then; a job that died so is never taken again; another is due after the delay for its claims |
| JobQueue.BackoffDoubles | api/internal/store/job.go:88-89 | the delay is two seconds after the first claim and doubles with every further one up to an hour |
| Handshake.Handshakes.CreateGitHubSetup | api/internal/store/github_setup.go:90-109 | an administrator's setup row, or no change |
| Handshake.Handshakes.StartGitHubInstallationAuthorization | api/internal/store/github_setup.go:111-144 | a setup starts exactly when it is unclaimed, unexpired and the caller's own, and the grant never outlives it |
| Handshake.Handshakes.CreateGitHubLinkAuthorization | api/internal/store/github_setup.go:64-88 | only a member may name an organisation |
| Handshake.Handshakes.ClaimGitHubAuthorization | api/internal/store/github_setup.go:146-189 | the verifier is handed out exactly when the grant is visible, unclaimed and of the purpose asked for, and is erased with it |
| Handshake.Handshakes.CompleteGitHubInstallationAuthorization | api/internal/store/github_setup.go:237-269 | both rows are completed together, exactly when the claim still holds them |
| Handshake.Handshakes.CompletedGitHubSetup | api/internal/store/github_setup.go:271-275 | the receipt exists exactly for a completed setup of the caller |
| Handshake.SoundStep | api/internal/store/github_setup.go:90-269 | every transaction keeps: a grant belongs to a started setup of the same person, is completed exactly when the setup is, and has its verifier exactly until it is claimed; no two grants share a setup |
| Handshake.AtMostOnce | api/internal/store/github_setup.go:111-189 | in every run each setup starts at most one authorisation and each verifier is handed out at most once |
| Handshake.RowsFollowLog | api/internal/store/github_setup.go:64-269 | in every run each row of the two tables tells exactly the story of its own events |
| Handshake.StartExactly | api/internal/store/github_setup.go:111-144 | over every run: a setup starts if and only if its live owner, an administrator, asks within fifteen minutes of opening it, for a candidate, once |
| Handshake.ClaimExactly | api/internal/store/github_setup.go:146-189 | over every run: the verifier is handed out if and only if its live owner asks for its purpose, once, in time, while a setup behind it waits; the evidence is what the events say |
| Handshake.HoldExactly | api/internal/store/github_setup.go:191-269 | over every run: evidence supports a binding if and only if it is what the events say of a grant handed out, unfinished and unexpired, for a live administrator |
| Handshake.LinkHoldExactly | api/internal/store/github_setup.go:191-228 | the same for finishing a link |
| Installations.Store.BindInstallation | api/internal/store/installation.go:43-107 | the binding transaction branch by branch; on any refusal every table is as before |
| Installations.Store.ReleaseSlot | api/internal/store/installation.go:68-83 | an organisation's slot is free unless a live installation holds it |
| Installations.Store.EnqueueInstallationSync | api/internal/store/installation.go:186-212 | the next generation is taken and queued for the installation the organisation owns |
| Installations.Store.RequestInstallationSync | api/internal/store/installation.go:154-161 | an administrator's retry, which may ask about a suspended installation |
| Installations.Store.RequestInstallationSyncForEvent | api/internal/store/installation.go:163-184 | a stale event is dropped without an error |
| Installations.Store.ApplyInstallationRepos | api/internal/store/installation.go:249-288 | the upsert loop either writes the whole listing or leaves every row as it was |
| Installations.Store.FailInstallationSync | api/internal/store/installation.go:290-293 | an error is recorded only for the captured binding and generation |
| Installations.Store.InstallationEvent | api/internal/store/installation.go:295-351 | deletion, suspension and other events, and when a provider check is owed |
| Installations.Store.ApplyInstallationState | api/internal/store/installation.go:353-387 | suspension is cleared only from an answer whose generation and binding still stand |
| Installations.Store.WithActiveRepo | api/internal/store/installation.go:413-441 | an evidence write happens exactly while its repository, binding and generation stand |
| Installations.UpsertedMeaning | api/internal/store/installation.go:264-281 | writing a listing fails exactly on another organisation's row; otherwise each row carries its last entry and the others are untouched |
| Installations.SnapshotCommits | api/internal/store/installation.go:251-288 | a listing commits exactly for a current capture that meets no foreign row, and a foreign row is reported as a conflict |
| Installations.SnapshotIsListing | api/internal/store/installation.go:264-288 | after it commits, the connected repositories of the installation are exactly the listed ones |
| Installations.SnapshotTwice | api/internal/store/installation.go:251-288 | delivering the same listing again at once changes nothing |
| Installations.RedeliveryChangesNothing | api/internal/store/installation.go:251-288 | delivering a listing again after any operations, none of them another listing of the installation, is refused or leaves every repository as it was |
| Installations.LastListingDecides | api/internal/store/installation.go:264-288 | over any run, as long as the capture is current, the connected repositories are those of the last listing that committed |
| Installations.ApplyCommitsExactly | api/internal/store/installation.go:249-288 | after any run a captured listing commits if and only if no transaction raised the generation, its organisation was not deleted, and no row is foreign |
| Installations.OlderListingWins | api/internal/worker/installation.go:91-95 | of two listings with one capture the one that arrives later commits and decides, whichever was read first |
| Installations.StepSound | api/internal/store/installation.go:43-441 | every transaction keeps: a connected repository points at a live installation bound to its own organisation, owners are unique, queued generations of an installation strictly increase; no installation is forgotten and no repository changes hands |
| Installations.RunSound | api/internal/store/installation.go:43-441 | the same in every state that any run reaches |
| Installations.FenceBumps | api/internal/store/installation.go:80-103 | a generation moves exactly when a binding, retry, suspension, its end or a deletion commits, and then by one |
| Installations.CaptureIsFenced | api/internal/store/installation.go:243-262 | work captured at a generation takes effect only if no such transaction committed since |
| Installations.CurrentExactly | api/internal/store/installation.go:243-262 | the capture is current after a run if and only if none of them committed and its organisation was not deleted |
| Installations.EvidenceIsFenced | api/internal/store/installation.go:399-436 | the same for an evidence write, from the moment its repository was found active |
| Installations.ReportNeedsAwaited | api/internal/store/installation.go:353-387 | an answer about suspension takes effect if and only if installation, owner and generation are as when it was asked |
| Installations.AnswerIsFenced | api/internal/store/installation.go:353-397 | over any run such an answer takes effect only if nothing raised the generation since |
| Installations.NewJobsAreLater | api/internal/store/installation.go:186-212 | queued work has a generation above all the installation had |
| Installations.CheckGenerationIsUnique | api/internal/store/installation.go:339-351 | the generation handed to a suspension check is never that of queued work, before or after |
| Installations.DeletionIsTerminal | api/internal/store/installation.go:329-338 | a deleted installation stays deleted; nothing captured for it is current again and none of its repositories is ever connected |
| Installations.OwnershipNeverChanges | api/internal/store/installation.go:272-277 | a repository stays with its organisation for as long as that exists |
| Installations.CompletedByBinding | api/internal/store/installation.go:84-102 | a setup becomes complete only in the transaction that completes its grant, binds the chosen installation to its organisation and queues the first reading |
| Installations.OnlyBindingCompletes | api/internal/store/github_setup.go:237-269 | no other transaction completes a setup |
| Effects.RowOfNext | api/internal/store/installation.go:43-397 | what every transaction makes of every field of every installation, from rows and arguments alone; rows come by a binding or an event and never go |
| Effects.CommitsExactly | api/internal/store/installation.go:154-387 | exactly which retries, nudges, events, answers and listings commit |
| Effects.BindCommits | api/internal/store/installation.go:43-107 | a binding commits if and only if the evidence is genuine and still holds, the installation is live and free or already the organisation's, and the slot is free |
| Effects.BindFinishes | api/internal/store/github_setup.go:237-269 | a binding finishes its setup and its grant, erases the verifier, and touches no other row of the handshake |
| Effects.HandshakeOfNext | api/internal/store/installation.go:154-441 | nothing else but handshake steps and the end of an organisation touches the handshake |
| Effects.AbandonHandshake | api/internal/db/migrations/0006_email_identity.sql:74-83 | the end of an organisation takes along exactly its setups, what belongs to them, and the grants to link in it |
| Effects.JobsOfNext | api/internal/store/installation.go:186-212 | exactly one job more for a binding or a request, with what the row says afterwards; a suspended installation is asked about, another one read |
| Effects.SuspensionBegins | api/internal/store/installation.go:339-351 | a reported suspension, and a reported end of one, leaves the installation suspended |
| Effects.SuspensionHolds | api/internal/store/installation.go:339-397 | over any run from then until an answer lifts it: the installation stays suspended, no capture of it is current, no listing, evidence write or event for it takes effect, and all work queued for it asks about the suspension |
| Effects.SuspendedExactly | api/internal/store/installation.go:295-397 | over any run an installation is suspended if and only if it was, at first or since, and no answer lifted that since |
| Effects.CaptureIsWritable | api/internal/store/installation.go:399-441 | a write takes effect if and only if its repository could be captured as active with the same generation at that moment |
| Effects.ListedRepos | api/internal/store/installation.go:264-288 | a listing that commits leaves each listed repository as its last entry says, and disconnects exactly the installation's others |
| Effects.ReposOfNext | api/internal/store/installation.go:329-338 | otherwise repositories change by a deletion, which disconnects them, and with their organisation only |
| Listing.ListInstallationRepositories | api/internal/github/installation.go:57-117 | a list is returned exactly when the pages end within the bound, none is read twice, all announce the same total and together hold exactly that many distinct, named repositories; then it is all of them in order |
| Listing.AddPage | api/internal/github/installation.go:101-107 | a page is taken exactly when it keeps repositories distinct and named |
| Listing.PrefixConsistent | api/internal/github/installation.go:94-111 | whatever is wrong with the first pages is wrong with the whole reading, so stopping early is right |
| Listing.CompleteExactly | api/internal/github/installation.go:57-117 | a list is returned if and only if at most a hundred pages lead from one to the next, no address comes twice, each page announces as many repositories as there are in all, and these have different ids, an owner and a name |
| Identity.Store.LinkMembershipGitHubIdentity | api/internal/store/membership_identity.go:72-119 | an account is claimed unless another member shows it |
| Identity.Store.CompleteGitHubLink | api/internal/store/github_setup.go:201-228 | a global account is set unless it collides where it would show |
| Identity.Store.UnlinkMembershipGitHubIdentity | api/internal/store/membership_identity.go:145-163 | the claim goes, or there was none |
| Identity.Store.UnlinkGitHub | api/internal/store/github_setup.go:277-290 | only the global account goes |
| Identity.Store.LeaveWorkspace | api/internal/store/workspace.go:130-145 | leaving drops the claim made there |
| Identity.Store.GitHubIdentityForMembership | api/internal/store/membership_identity.go:165-187 | the account that attributes a member's work and where it comes from |
| Identity.StepSound | api/internal/store/membership_identity.go:72-163 | claims within an organisation never clash by id or by login in any case, and neither do global accounts |
| Identity.RunIsUnambiguous | api/internal/store/membership_identity.go:32-39 | across link, global link, unlink, join and leave no two members of an organisation show the same account |
| Identity.OthersKeepTheirs | api/internal/store/membership_identity.go:41-67 | no operation takes away or changes the account another member shows |
| Identity.OthersGainOnlyTheirOwn | api/internal/store/membership_identity.go:34-39 | a member who showed none can only gain their own global account |
| Identity.LinkInIsEffective | api/internal/store/membership_identity.go:88-119 | a claim is effective where it was made |
| Identity.LinkGlobalIsEffective | api/internal/store/github_setup.go:221-228 | a global account is effective wherever the person has no claim |
| Identity.RefusalIsNeeded | api/internal/store/membership_identity.go:102-107 | a refused claim would have robbed a member or been ambiguous |
| Identity.GlobalRefusalIsNeeded | api/internal/store/membership_identity.go:41-66 | a refused global account would have been hidden or ambiguous somewhere |
| Identity.TablesFollowLog | api/internal/store/membership_identity.go:72-163 | in every run members, claims and global accounts are those that the operations say |
| Identity.LinkInExactly | api/internal/store/membership_identity.go:72-119 | in every run a claim is recorded if and only if the account is named, the caller a member, and no other member shows it |
| Identity.LinkGlobalExactly | api/internal/store/github_setup.go:201-228 | in every run a global account is set if and only if it is named, nobody else holds it, and nobody else shows it where the person would |
| Identity.UnlinkInExactly | api/internal/store/membership_identity.go:145-163 | in every run a claim can be given up if and only if there is one |
| Identity.EffectiveFollowsLog | api/internal/store/membership_identity.go:165-187 | in every run the account that attributes a member's work is their claim there, else their global account unless another member claimed it |
| DeviceFlow.NormalizedUserCode | api/internal/store/cli_session.go:63-74 | the loop over the typed code |
| DeviceFlow.CodeRoundTrip | api/internal/store/cli_session.go:63-74 | a typed text is recognised as a code if and only if it is the code's letters in either case with anything unlisted before, between and behind them |
| DeviceFlow.DisplayRoundTrip | api/internal/store/cli_session.go:76-82 | a code is recognised as displayed |
| DeviceFlow.Store.CreateAPIToken | api/internal/store/api_token.go:69-117 | a key is minted unless it is unnamed, the person holds twenty or the name is taken |
| DeviceFlow.Store.DeleteAPIToken | api/internal/store/api_token.go:145-156 | only one's own key can be deleted |
| DeviceFlow.Store.RevokeAPITokenByID | api/internal/store/api_token.go:185-190 | a key goes with its children and the sessions that minted any of them |
| DeviceFlow.Store.LookupAPIToken | api/internal/store/api_token.go:158-183 | a secret finds a key exactly when one has it |
| DeviceFlow.Store.IssueProjectToken | api/internal/store/cli_session.go:229-276 | a machine's key for a project is rotated or created |
| DeviceFlow.Store.CreateCLISession | api/internal/store/cli_session.go:102-143 | old sessions are swept and the first free code of the draws is taken |
| DeviceFlow.Store.ApproveCLISession | api/internal/store/cli_session.go:162-196 | an open init session under the code is approved by a writer for a project of the organisation |
| DeviceFlow.Store.ApproveCLIUnscoped | api/internal/store/cli_session.go:213-227 | an open session of the flow under the code is approved |
| DeviceFlow.Store.DenyCLISession | api/internal/store/cli_session.go:198-211 | an open session under the code is denied |
| DeviceFlow.Store.CollectCLISession | api/internal/store/cli_session.go:278-366 | what a poll answers and leaves behind, a lost project included |
| DeviceFlow.StepSound | api/internal/store/cli_session.go:102-366 | every transaction keeps: nobody holds more than twenty keys, no two keys share a secret, a machine has at most one key for each project, and a key was minted exactly by being collected on its owner's approval |
| DeviceFlow.StepProgress | api/internal/store/cli_session.go:102-366 | a session only moves from pending to approved or denied and from approved to collected or denied |
| DeviceFlow.GrantIsCollection | api/internal/store/cli_session.go:302-357 | a key is handed out exactly when a session moves from approved to collected, to the one who approved, of the kind of the flow |
| DeviceFlow.OneKeyPerSession | api/internal/store/cli_session.go:278-366 | in every run a device is handed at most one key |
| DeviceFlow.RotationReplaces | api/internal/store/cli_session.go:252-262 | rotating adds no key, the new secret authenticates that key and the old one nothing |
| DeviceFlow.RemovalRevokes | api/internal/store/api_token.go:185-190 | a removed key and its children authenticate nothing |
| DeviceFlow.RevokedStaysDead | api/internal/store/api_token.go:158-190 | over any run, a replaced or revoked secret authenticates nothing unless it is drawn again |
| DeviceFlow.FirstFreeIsFree | api/internal/store/cli_session.go:122-142 | the allocated code is in no session, and allocation fails exactly when every draw is taken |
| DeviceFlow.AlphabetIsClear | api/internal/store/cli_session.go:26 | codes are made of the capitals and digits that cannot be taken for one another |
| DeviceFlow.SessionsFollowLog | api/internal/store/cli_session.go:102-366 | in every run the row of each sign-in is what its own events made of it |
| DeviceFlow.PollExactly | api/internal/store/cli_session.go:278-366 | each answer to a poll if and only if the events warrant it; the key handed out belongs to the one who approved, is of the kind of the flow, and is bound to the approved project |
| DeviceFlow.GrantWasApproved | api/internal/store/cli_session.go:302-357 | in every run a key handed out was approved in time by the person it belongs to; in the flow for projects it is bound to exactly the project that approval named, and approval and poll both found a writer; in the others it has no project and no parent |
| DeviceFlow.DecisionExactly | api/internal/store/cli_session.go:162-227 | in every run an approval or a denial is taken if and only if a waiting sign-in shows the code and is of the flow, in time, by somebody who may |
| DeviceFlow.BeginExactly | api/internal/store/cli_session.go:102-143 | in every run a sign-in begins if and only if one of its drawn codes is shown by no other, and it shows the first of those |
| DeviceFlow.KeysOfNext | api/internal/store/api_token.go:69-190 | keys come, go and change by exactly the transactions that say so |
| Invites.Store.CreateInvite | api/internal/store/invite.go:96-124 | inviting an address again replaces its open invitation |
| Invites.Store.ReplaceInvite | api/internal/store/invite.go:126-153 | the old invitation is revoked and the new one keeps address and, unless given, role |
| Invites.Store.RevokeInvite | api/internal/store/invite.go:155-176 | an open invitation is revoked and its links consumed |
| Invites.Store.AcceptInvite | api/internal/store/invite.go:192-232 | an open, unexpired invitation is accepted by its address only |
| Invites.Store.IssueLoginToken | api/internal/store/login_token.go:61-122 | a link is issued unless a limit is reached or an invitation would carry a continuation |
| Invites.Store.ConfirmLogin | api/internal/store/login_confirmation.go:18-86 | link, user, invitation and session change together or not at all |
| Invites.StepSound | api/internal/store/invite.go:96-232 | at most one open invitation exists for an organisation and address, expired ones counted, and one user for an address |
| Invites.AcceptedAtMostOnce | api/internal/store/invite.go:192-232 | in every run an invitation is accepted at most once |
| Invites.RevocationKills | api/internal/store/invite.go:155-166 | revoking or replacing an invitation kills and consumes the links it has |
| Invites.LateLinkIsDead | api/internal/store/login_token.go:112-115 | a link issued after that is dead from the start |
| Invites.DeadForever | api/internal/store/login_confirmation.go:33-58 | no continuation of a run signs anybody in with a dead link, deleted invitations included |
| Invites.AcceptanceKeepsRoles | api/internal/store/invite.go:219-222 | nobody's role changes on acceptance, and only the invited address gains one |
| Invites.SessionIsForAddress | api/internal/store/login_confirmation.go:39-46 | a session is opened only by an unspent link less than fifteen minutes old, for the user with the address it was sent to, and consumes it |
| Invites.LimitsHold | api/internal/store/login_token.go:92-110 | in no fifteen minutes of any run are more than five links issued to an address or twenty to a network address, whatever is cleaned up |
| Invites.RowsFollowLog | api/internal/store/invite.go:96-232 | in every run the events say which invitations are open, accepted or revoked, which are kept, and which links are spent |
| Invites.AcceptExactly | api/internal/store/invite.go:192-232 | in every run an invitation is accepted if and only if it stands, was made less than seven days ago, and was sent to the caller, who then is a member with its role unless they had one |
| Invites.ConfirmExactly | api/internal/store/login_confirmation.go:18-86 | in every run a link signs somebody in if and only if it was issued less than fifteen minutes ago, was not spent, and an invitation it carries can be accepted; then one session opens, for the address it was sent to |
| Invites.ExpiredForever | api/internal/store/login_confirmation.go:33-46 | from fifteen minutes after its issue on, every continuation of a run refuses a link |
| Invites.IssueExactly | api/internal/store/login_token.go:61-122 | in every run a link is refused if and only if it would carry an invitation and a continuation, its invitation is gone, or a limit is reached |
| Invites.RevokeExactly | api/internal/store/invite.go:126-176 | in every run an invitation is revoked or replaced if and only if it stands and is of the organisation |
| Invites.StepFrame | api/internal/store/login_confirmation.go:33-86 | users, sessions, members and links change by no event that does not name them |
| Desktop.OpenedSound | desktop/src/app.rs:287-359 | a new window, restoring its credential, satisfies the invariant |
| Desktop.StepSound | desktop/src/app.rs:540-849 | every action and reply keeps the invariant: one write and one sign-in at a time, requests of the session fit the screen, a raised loading flag has a current request under way, rows are distinct, and all that is shown belongs to what is selected |
| Desktop.RunSound | desktop/src/app.rs:540-1587 | the same in every order of actions and replies |
| Desktop.FlagHasItsWrite | desktop/src/app.rs:1297-1587 | while saving, exactly one write is under way and the revisions it captured are current |
| Desktop.WriteReplyLowers | desktop/src/app.rs:1332-1365 | whatever a write's reply says, it lowers the flag |
| Desktop.DetailFlagIsLowered | desktop/src/app.rs:811-840 | in every sound state a raised detail flag has a current request for the selected issue under way, and whatever its reply says lowers the flag |
| Desktop.LoadingFlagIsLowered | desktop/src/app.rs:736-776 | a raised loading flag has a current list, or before anybody is signed in a step of signing in, whose reply lowers it or sends the next step |
| Desktop.StaleStaysStale | desktop/src/state.rs:127-141 | counters only rise, so a request that has gone stale stays stale |
| Desktop.PreviousOrganisationIsSilent | desktop/src/app.rs:1081-1115 | replies to what was asked before a change of organisation change nothing, whenever they arrive |
| Desktop.WriteSilencesLists | desktop/src/app.rs:1319-1322 | a list asked for before a write never overwrites what the write leaves |
| Desktop.ExtendedDistinct | desktop/src/app.rs:763-768 | adding a page keeps the loaded rows, in place and distinct |
| Desktop.ReplacedDistinct | desktop/src/app.rs:1503-1506 | replacing a row keeps the others and their ids distinct |
| Desktop.MilestonesCanOutliveSprint | desktop/src/app.rs:989-1022 | after giving up a sprint its milestones can still arrive |
| Screen.EffectOf | desktop/src/app.rs:540-1587 | what every action and reply makes of rows, details, sprints and account, and which requests it sends, from the window before alone |
| Screen.NextPageKeepsAndShows | desktop/src/app.rs:751-776 | an accepted further page keeps every loaded row, in place, and shows every issue of the page |
| Screen.FirstPageShowsPage | desktop/src/app.rs:751-776 | an accepted first page shows exactly the page |
| Screen.RowsStay | desktop/src/app.rs:540-1587 | in every run without a first page, a change of organisation or a sign-out, every issue listed stays listed |
| Screen.CommentsGrow | desktop/src/app.rs:811-849 | while an issue stays selected and its details are not read again, its comments are those it had and the updates accepted since, in order |
| Boards.GivingUpExactly | desktop/src/app.rs:989-1022 | in every reachable state, giving up a sprint lets the next reply leave milestones without a sprint if and only if a current request for milestones is under way |
| Boards.GivingUpOverRuns | desktop/src/app.rs:989-1022 | the same for any run afterwards in which no sprint is given up at such a moment |
| Boards.ReachableOneAsker | desktop/src/app.rs:953-1022 | in every run at most one current question about the sprint or its milestones is under way |
| Boards.StepSettles | desktop/src/app.rs:953-1022 | the invariant "no sprint, no milestones and none asked for" survives a step if and only if the step does not give up a sprint while its milestones are asked for |
| Boards.NoSprintNoMilestones | desktop/src/app.rs:1857-1870 | in every run from a new window in which no sprint is given up at such a moment, no milestones are shown without a sprint |
| Window.Velvet.SignIn | desktop/src/app.rs:573-596 | nothing while another sign-in or load is under way; else a new session and one request that captured it |
| Window.Velvet.Refresh | desktop/src/app.rs:718-780 | nothing while saving; else a request that retires the earlier ones, with the sprints if they are shown |
| Window.Velvet.SelectIssue | desktop/src/app.rs:781-849 | the row is selected, what belonged to the last one goes, and one request captures the new revision |
| Window.Velvet.OpenIssue | desktop/src/app.rs:1065-1080 | the handler finds the row or appends it, then selects it |
| Window.Velvet.Position | desktop/src/app.rs:1072-1078 | the search returns the first row with the id |
| Window.Velvet.SwitchWorkspace | desktop/src/app.rs:1081-1115 | all that belonged to the organisation left goes and every revision moves before the new list is asked for |
| Window.Velvet.LoadSprints | desktop/src/app.rs:953-988 | one request with a revision that retires the earlier ones |
| Window.Velvet.SelectSprint | desktop/src/app.rs:989-1023 | a new sprint retires milestone issues and sprints; giving one up retires milestone issues only |
| Window.Velvet.ToggleMilestone | desktop/src/app.rs:1024-1064 | choosing the chosen milestone gives it up; either way earlier requests are retired |
| Window.Velvet.SaveIssue | desktop/src/app.rs:1297-1324 | the handler raises the flag and retires the list requests |
| Window.Velvet.PostUpdate | desktop/src/app.rs:1370-1401 | the same for an update to the selected issue |
| Window.Velvet.MutateIssue | desktop/src/app.rs:1448-1477 | the same for a change of the selected issue |
| Window.Velvet.LogOut | desktop/src/app.rs:1517-1527 | the same for signing out, whoever is signed in |
| Window.Velvet.ListArrived | desktop/src/app.rs:751-776 | a list reply, with its loop over the rows of a further page |
| Window.Velvet.Grow | desktop/src/app.rs:763-768 | the loop appends exactly the issues that are not there yet |
| Window.Velvet.SaveArrived | desktop/src/app.rs:1332-1365 | a saved form replaces its row or goes on top, and is opened again |
| Window.Velvet.LogOutArrived | desktop/src/app.rs:1535-1583 | a sign-out that succeeded forgets the account |
| Comments.ListComments | api/internal/store/comment.go:316-338 | the two loops give the roots in order with their replies in order, then the orphans in order |
| Comments.IndexRoots | api/internal/store/comment.go:318-325 | the index says where each root is |
| Comments.Conservation | api/internal/store/comment.go:316-338 | every comment of the log appears exactly once |
| Comments.ThreadsInOrder | api/internal/store/comment.go:316-338 | exactly what comes out: the comments without a parent, in order, each with its replies in order, then alone and in order the replies whose parent is not among them |

## Left out

- Velvet: the window's fields are kept in one record that handlers update step by step, so their separate storage is not modelled; texts of forms, drafts, notices, focus, pages and the sample mode are not part of this model.
- RunSound: in the desktop client, signing in is an action only while signed out and signing out only while signed in, as the buttons are; a sign-out begun while a sign-in is under way is not modelled, and the restored credential is read only when the window opens.
- ActiveRepo: its two reads are one step.
- WithActiveRepo: what an evidence write contains is an opaque note.
- LinkRepo, which binds a repository without a handshake, has no caller outside tests.
- CreateIssue: references to people, milestones and projects are checked before and not part of this model; which list an issue is in is its milestone.
- OffsetShifts: text is ASCII, since the reader cuts at byte positions.
- CodeRoundTrip: letters are ASCII; the upper-casing of other scripts is not modelled.
- Sanitize: the limit of two concurrent decodes and cancellation are not modelled.
- ConfirmLogin: which page the browser is sent to afterwards is not modelled.
- CreateAPIToken: names arrive trimmed, and the text of generated names is a parameter.
- LookupAPIToken: the time of last use is not kept, and hashing does not separate setup keys from others.
- LinkMembershipGitHubIdentity: crediting earlier pull requests and reviews is not modelled.
- LeaveWorkspace: keeping the last administrator, and removal by an administrator, are not modelled.
- Scheduling of hourly reads, status pages and the worker's own loop only call transactions that are modelled.
- Listing of issues with cursors, milestones kept in step with projects, the event broker, labels, reports, the command line client and the web client would only add easier members.
- SQL text, row locks and isolation levels: a transaction is one step.
- Mail, HTTP, cookies, JSON and GitHub calls are inputs and outputs outside the model.
