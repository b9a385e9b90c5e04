# Download server core — a Dafny model

This project models the core of the local download server of the
spicetify enhanced downloader, `Extensions/download-server.js`. The server
takes download requests from the player extension and runs the external
downloader `spotdl` for each one. No more than a configured number of
downloader processes run at once; further requests wait in a first-in
first-out queue. An album, playlist or artist request is expanded into its
tracks through the catalogue's web API, so that the tracks download in
parallel.

The model has six modules:

- `Jobs` (`jobs.dfy`): the shared records. These are a downloader job
  (locator, output directory, category, display name) and the outcome of
  a promise.
- `Sanitize` (`sanitize.dfy`): `sanitizeFilename`. It replaces the
  characters Windows forbids in a file name by `_`, collapses every run of
  whitespace to one space, and trims. The model proves the shape of the
  result, its idempotence, and that it loses no visible character.
- `Scheduling` (`scheduler.dfy`): the scheduler, a class. Its real fields
  are:
  - `active`, the `activeDownloads` counter;
  - `queue`, the `downloadQueue` array;
  - `settled`, the promises that have settled, with their outcome;
  - `nextHandle`, the identity of the next promise.

  Ghost logs record what ran, what waited and in which order. `Submit`
  is `queueDownload`; `ProcessQueue` is `processQueue`; `Execute` is the
  synchronous part of `executeDownload`. `Complete` is the downloader's
  exit callback, so the model chooses which running job finishes and with
  what outcome. The invariant `Valid` keeps these facts:
  - the counter equals the number of running jobs and never exceeds the
    limit (no slot at all for a negative limit);
  - a job waits only while every slot is taken;
  - no promise settles twice;
  - the promises are numbered in submission order, and every promise
    handed out is running, waiting or settled (none is lost);
  - the submissions, in order, are exactly the jobs started so far
    followed by the waiting ones.
- `Resolver` (`resolver.dfy`): `fetchTracks`.
  - The catalogue's answers are an input: a sequence of responses, one
    per request, in the order the requests are sent.
  - The function `Resolve` gives the result. The method
    `FetchTracks` is proved against it, and its pagination loop
    `FollowPages` carries the invariants.
  - Lemmas state the error policy. A failed first page, or anything that
    throws, gives `[]`. A failed later page stops the loop and keeps
    exactly the descriptors of the pages read before it (`Accumulated`).
  - Further lemmas cover the playlist filter, and the fact that only the
    first artist page counts.
- `Expander` (`expander.dfy`): `handleEnhancedDownload`. It computes the
  submissions for a resolved collection: the collection itself when no
  track was found, otherwise one track job per track. It makes them
  through the scheduler in order. `EnhancedOutcome` is the all-or-nothing
  join of their promises.
- `Routing` (`routing.dfy`): the `/download` handler. It stores a supplied
  token, chooses the output folder and the plan (a single job, an expanded
  collection, or nothing for an unrecognised category) and builds the
  reply.

Four behaviours of the code that are easy to miss:

- Only a non-ok *later* page keeps the partial result. A non-ok first
  page throws, and so does any failed request or unreadable body at any
  point. The `catch` then returns `[]`, which discards the pages already
  fetched and triggers the whole-collection fallback.
- The pagination loop also follows `next` links for an artist. It only
  ignores what those pages hold.
- `config.maxConcurrentDownloads || 3` also replaces a configured `0` by
  three. A negative setting is kept, and then every job waits.
- A request whose category is none of `track`, `album`, `playlist` or
  `artist` submits nothing and still gets a success reply.

## Model

| member | source | states |
|---|---|---|
| Sanitize.ReplaceForbidden | Extensions/download-server.js:51 | the result has the input's length; each forbidden character `<>:"/\|?*` becomes `_` and every other character is kept |
| Sanitize.TrimStart | Extensions/download-server.js:51 | the result is the suffix left after dropping the leading whitespace: everything dropped is whitespace and the result does not start with whitespace |
| Sanitize.TrimEnd | Extensions/download-server.js:51 | the result is the prefix left after dropping the trailing whitespace: everything dropped is whitespace and the result does not end with whitespace |
| Sanitize.Trim | Extensions/download-server.js:51 | the result neither starts nor ends with whitespace |
| Sanitize.TrimIsSlice | Extensions/download-server.js:51 | the input is some whitespace, then the trimmed result, then some whitespace: trimming removes whitespace at the two ends and nothing else |
| Sanitize.CollapseSpaces | Extensions/download-server.js:51 | every whitespace character of the result is a plain space and no two are adjacent; it is empty exactly when the input is; it starts with whitespace exactly when the input does; it adds no forbidden character; with `CollapseAppend`, `CollapseRun` and `CollapseVisible` the result is determined run by run |
| Sanitize.TrimStartAppend | Extensions/download-server.js:51 | dropping leading whitespace from a concatenation drops it from the first part, and also from the second part exactly when the first part was all whitespace |
| Sanitize.CollapseAppend | Extensions/download-server.js:51 | when the cut between two parts is not inside a whitespace run, collapsing the concatenation is collapsing each part and concatenating |
| Sanitize.CollapseRun | Extensions/download-server.js:51 | a non-empty run made only of whitespace becomes exactly one plain space |
| Sanitize.CollapseVisible | Extensions/download-server.js:51 | a single non-whitespace character is kept unchanged |
| Sanitize.SanitizeFilename | Extensions/download-server.js:50-52 | the sanitised name holds no forbidden character (so no `/` or `\`), is trimmed, and has single plain spaces only |
| Sanitize.ReplaceForbiddenFixes | Extensions/download-server.js:51 | a string without forbidden characters is left unchanged by the replacement |
| Sanitize.CollapseSpacesFixes | Extensions/download-server.js:51 | a string whose whitespace is already single plain spaces is left unchanged by the collapsing |
| Sanitize.TrimFixes | Extensions/download-server.js:51 | a trimmed string is left unchanged by `trim` |
| Sanitize.SanitizeFixesClean | Extensions/download-server.js:50-52 | a name with no forbidden character, only single plain spaces and no surrounding whitespace is its own sanitised form |
| Sanitize.SanitizeIdempotent | Extensions/download-server.js:50-52 | sanitising a sanitised name changes nothing |
| Sanitize.NonSpaceCollapse | Extensions/download-server.js:51 | collapsing whitespace keeps the non-whitespace characters and their order |
| Sanitize.NonSpaceTrimStart | Extensions/download-server.js:51 | dropping leading whitespace keeps the non-whitespace characters and their order |
| Sanitize.NonSpaceTrimEnd | Extensions/download-server.js:51 | dropping trailing whitespace keeps the non-whitespace characters and their order |
| Sanitize.NonSpaceTrim | Extensions/download-server.js:51 | trimming keeps the non-whitespace characters and their order |
| Sanitize.SanitizeKeepsText | Extensions/download-server.js:50-52 | apart from whitespace layout, the sanitised name is the input with each forbidden character replaced by `_` |
| Scheduling.ConcurrencyLimit | Extensions/download-server.js:37 | the limit is never zero; it is the configured value when that is set and non-zero, and three when it is missing or zero |
| Scheduling.AfterSubmits | Extensions/download-server.js:94-107 | the state after `queueDownload` of several jobs one after the other; K submissions hand out K fresh handles |
| Scheduling.StartOrQueue | Extensions/download-server.js:94-107 | the closed form of several submissions: no promise settles, nothing leaves the queue, and the submissions log grows by the jobs with consecutive handles |
| Scheduling.AfterSubmitsInClosedForm | Extensions/download-server.js:94-107 | submitting jobs one by one gives the closed form: the first jobs take the free slots at once and the rest join the back of the queue in order |
| Scheduling.StartOrQueueStep | Extensions/download-server.js:94-107 | the closed form for one more job is one more `queueDownload` step after the closed form |
| Scheduling.AfterSubmitsOrder | Extensions/download-server.js:94-107 | submissions never overfill the slots, add to the queue only when every slot is taken, and (when nothing waited or no slot was free) leave the started jobs followed by the waiting ones equal to the old ones followed by the new submissions |
| Scheduling.StartOrQueueOrder | Extensions/download-server.js:94-107 | on the closed form: the slots are never overfilled, the queue grows only when every slot is taken, and the started jobs followed by the waiting ones are the old ones followed by the new submissions when nothing waited or no slot was free |
| Scheduling.Scheduler.constructor | Extensions/download-server.js:37-40 | for any limit, the scheduler starts with no running job, an empty queue and no settled promise, and satisfies the invariant |
| Scheduling.Scheduler.NoPromiseLost | Extensions/download-server.js:64-107 | every promise handed out is running, waiting in the queue, or settled |
| Scheduling.Scheduler.Status | Extensions/download-server.js:251-258 | the status report gives the counter, the limit, the queue length and the queued names in queue order, and changes nothing (it only reads) |
| Scheduling.Scheduler.Execute | Extensions/download-server.js:54-57 | given a free slot, starting a job takes exactly one slot, marks it running and logs its start, and changes nothing else |
| Scheduling.Scheduler.ProcessQueue | Extensions/download-server.js:85-92 | when a job waits and a slot is free, the oldest waiting job leaves the queue and starts; otherwise nothing changes |
| Scheduling.Scheduler.Enqueue | Extensions/download-server.js:101-105 | with every slot taken, the job is appended at the back of the queue and nothing else changes |
| Scheduling.Scheduler.Submit | Extensions/download-server.js:94-107 | the submission gets a fresh promise; it starts at once when the counter is below the limit, otherwise it is appended to the queue; the invariant (bound, FIFO, submissions = started then waiting, no promise lost) is kept, and the new state is exactly one `AfterSubmit` step of the old one (`AfterSubmit` is the state function of one `queueDownload`: a fresh handle, logged as submitted, then a start when a slot is free or an append to the queue otherwise) |
| Scheduling.Scheduler.Complete | Extensions/download-server.js:64-81 | a finished job frees its slot, at most one waiting job (the oldest) starts, the counter is unchanged when one started and one lower otherwise, and the job's promise settles exactly once with the downloader's outcome |
| Scheduling.Scheduler.Release | Extensions/download-server.js:64-65 | the decrement at the downloader's exit: the job leaves the running set and frees its slot, and nothing else changes |
| Scheduling.Scheduler.Settle | Extensions/download-server.js:67-80 | the promise settles with the downloader's outcome, and nothing else changes |
| Scheduling.TwoJobsLimitTwo | Extensions/download-server.js:94-100 | with a limit of two, the first two submissions start at once and nothing waits |
| Scheduling.FiveJobsLimitTwo | Extensions/download-server.js:94-107 | with a limit of two, five submissions start the first two and queue the other three in submission order |
| Scheduling.TwoCompletions | Extensions/download-server.js:64-92 | two completions, with any outcomes, start the two oldest waiting jobs in order, leave the third waiting, and settle the two promises with those outcomes |
| Scheduling.QueuedJobsStartInOrder | Extensions/download-server.js:64-107 | with a limit of two and five submissions, whatever the outcomes, jobs three, four and five start in submission order as slots free up, and the queue ends empty |
| Resolver.Endpoint | Extensions/download-server.js:119-126 | the request address is the category's prefix, the id and the category's suffix, so the id can be read back from it |
| Resolver.AfterLastSlash | Extensions/download-server.js:116-117 | the result is the suffix of the input after its last `/` (the whole input when there is none) |
| Resolver.BeforeQuery | Extensions/download-server.js:117 | the result is the prefix of the input before its first `?` (the whole input when there is none) |
| Resolver.CollectionId | Extensions/download-server.js:116-117 | the id holds no `/` or `?` and is the part of the link that follows its last `/`, up to the first `?` |
| Resolver.ArtistName | Extensions/download-server.js:144 | the artist is never empty: it is the first listed artist's name when that is present and non-empty, and `Unknown` otherwise |
| Resolver.Describe | Extensions/download-server.js:142-146 | a track's descriptor is its name, its artist and its link; reading it throws exactly when the link is missing |
| Resolver.DescribeAll | Extensions/download-server.js:142-146 | the descriptors follow the tracks one for one and in order; the mapping throws exactly when some track lacks a link |
| Resolver.AsTracks | Extensions/download-server.js:142 | album and artist elements are read as track objects in order; reading fails exactly when some element is a playlist wrapper |
| Resolver.RealTracks | Extensions/download-server.js:148-149 | the playlist filter keeps exactly the wrappers that hold a track whose type is `track` |
| Resolver.RealTracksAppend | Extensions/download-server.js:148-149 | filtering a concatenation is filtering each part and concatenating, so the order of the kept tracks is the input order |
| Resolver.RealTracksSingle | Extensions/download-server.js:148-149 | one wrapper gives its track when the track is real, and nothing otherwise |
| Resolver.PageTracks | Extensions/download-server.js:141-162 | a later artist page contributes nothing |
| Resolver.Join | Extensions/download-server.js:182 | appending page results fails exactly when either part failed, and otherwise concatenates them in order |
| Resolver.OrEmpty | Extensions/download-server.js:196-199 | the `catch`: a throw gives `[]`, and a result passes through unchanged |
| Resolver.Follow | Extensions/download-server.js:165-193 | without a `next` link the loop adds nothing; a pending link whose request gets no answer throws; a non-ok answer ends the loop adding nothing more |
| Resolver.Fetch | Extensions/download-server.js:128-138 | a first answer that is not an ok, readable page throws; any result starts with the first page's descriptors |
| Resolver.Resolve | Extensions/download-server.js:110-200 | a failed first answer gives `[]`; any non-empty result starts with the first page's descriptors |
| Resolver.FetchTracks | Extensions/download-server.js:110-200 | the first request goes to the category's endpoint for the link's id, and the returned tracks are `Resolve` of the answers |
| Resolver.FollowPages | Extensions/download-server.js:165-193 | the pagination loop appends each followed page's tracks in page order, stops at a failed page, and yields `[]` when anything throws |
| Resolver.FollowOkPage | Extensions/download-server.js:174-192 | an ok page in the loop contributes its descriptors, followed by those of the pages after it |
| Resolver.ThrowDiscardsEverything | Extensions/download-server.js:128-138 | once a request that is sent throws or gets no answer, the resolver returns `[]`, discarding everything fetched before |
| Resolver.FirstFailureGivesEmpty | Extensions/download-server.js:134-135 | a first answer that is not an ok, readable page gives `[]` |
| Resolver.LaterFailureKeepsPrefix | Extensions/download-server.js:172 | a non-ok later page stops the resolver with the tracks fetched so far, a prefix of the full result |
| Resolver.FollowAccumulated | Extensions/download-server.js:165-192 | the descriptors the loop holds before its request number j; later artist pages add nothing to them |
| Resolver.Accumulated | Extensions/download-server.js:128-192 | the descriptors the resolver holds before its request number k: something is held only once the first answer was an ok page |
| Resolver.FollowStopKeepsAccumulated | Extensions/download-server.js:172 | a loop stopped by a non-ok answer to its request j yields exactly what it held before that request |
| Resolver.LaterFailureKeepsAccumulated | Extensions/download-server.js:172 | a non-ok answer to request k (k >= 1) makes the resolver return exactly the descriptors it held before that request |
| Resolver.FollowAccumulatedReadsPrefix | Extensions/download-server.js:165-192 | what the loop holds before request j depends only on the answers to the requests before it |
| Resolver.AccumulatedReadsPrefix | Extensions/download-server.js:128-192 | what the resolver holds before request k depends only on the answers to the requests before it |
| Resolver.LaterFailureIgnoresRest | Extensions/download-server.js:172 | after a non-ok later page no further answer is read |
| Resolver.ArtistUsesFirstPageOnly | Extensions/download-server.js:155-192 | an artist resolves to `[]` or to exactly the first page's `tracks`, however many `next` links are followed |
| Resolver.PlaylistPageKeepsRealTracks | Extensions/download-server.js:147-154 | a playlist page contributes the descriptors of its real tracks, one per real track, each from a wrapper whose track has type `track` |
| Resolver.TwoPagesInOrder | Extensions/download-server.js:141-195 | two album pages of two and one tracks give the three descriptors in page order |
| Expander.TrackJob | Extensions/download-server.js:217-220 | a track job uses the track's link and the collection's folder, has category `track`, and is named `<name> - <artist>` |
| Expander.Submissions | Extensions/download-server.js:209-220 | no tracks give the collection job itself; otherwise there is one track job per track, in track order |
| Expander.SubmissionsShape | Extensions/download-server.js:209-220 | there is one submission for no tracks and K for K tracks; all write into the collection's folder, and with tracks each is a `track` job with that track's link |
| Expander.NatToString | Extensions/download-server.js:226 | the count is written in decimal digits without leading zeros, and the numeral's value is the count |
| Expander.NatToStringInjective | Extensions/download-server.js:226 | different counts give different numerals |
| Expander.FirstRejection | Extensions/download-server.js:223-230 | the join has no rejection exactly when every promise resolved; otherwise it carries the error of the earliest rejection |
| Expander.CompletedMessage | Extensions/download-server.js:226 | the message is `Enhanced download completed: `, the count's decimal numeral, and ` tracks`, and the middle part reads back as the count |
| Expander.CompletedMessageInjective | Extensions/download-server.js:226 | different track counts give different messages |
| Expander.EnhancedOutcome | Extensions/download-server.js:203-231 | the fallback passes on its single outcome; with tracks the download resolves exactly when every track resolved, with the message naming the count, and otherwise rejects with the earliest failure |
| Expander.SubmitAll | Extensions/download-server.js:217-220 | the jobs are submitted one after the other, in order, with consecutive fresh promises, and the new state is the `AfterSubmits` fold of the old one over the jobs (so, with `AfterSubmitsInClosedForm`, the first jobs start, the rest queue in order and no promise settles) |
| Expander.SubmitNext | Extensions/download-server.js:217-220 | one more `queueDownload` in the `map`: the handles grow by the next consecutive one and the state by one more step of the fold |
| Expander.HandleEnhancedDownload | Extensions/download-server.js:203-221 | the tracks are the resolver's result; the submissions made are the fallback or the track jobs in order, with consecutive fresh promises, and the new state is the `AfterSubmits` fold of the old one over them |
| Routing.UpdateToken | Extensions/download-server.js:294-297 | a truthy supplied token replaces the stored one, and any other value keeps it |
| Routing.CollectionOf | Extensions/download-server.js:305 | the collection categories are exactly `album`, `playlist` and `artist` |
| Routing.DropTrailingSlash | Extensions/download-server.js:307 | one trailing `/` is removed, except from the root `/`; any other path is unchanged |
| Routing.ParentDir | Extensions/download-server.js:307 | `path.join(base, "..")`: ignoring one trailing `/`, the current directory (`""` or `.`) has the parent `..`, a path ending in the segment `..` gets one more `..`, and any other path gives `.` when it has no `/`, `/` when its only `/` is the first character, and otherwise the non-empty part before its last `/` |
| Routing.AfterLastSlashOfSplit | Extensions/download-server.js:307 | the segment after the last `/` of `p/w` is `w` when `w` has no `/` |
| Routing.SegmentPathKept | Extensions/download-server.js:307 | a path `p/w` with a last segment `w` has no trailing `/` to drop and is not the current directory |
| Routing.SegmentPathDotDot | Extensions/download-server.js:307 | a path `p/w` ends in the segment `..` exactly when `w` is `..` |
| Routing.ParentOfSegment | Extensions/download-server.js:307 | `path.join(p/w, "..")`, with or without a trailing `/`, is `p` (the root when `p` is empty) for a last segment other than `..`, and `p/../..` for the segment `..` |
| Routing.RelativeRootJoins | Extensions/download-server.js:307 | the parent of `.` is `..`, of `..` is `../..` and of `../..` is `../../..`; joining `.` to `/music/` gives `/music` and to `/` gives `/` |
| Routing.JoinPath | Extensions/download-server.js:307 | an empty folder name gives the root (`.` for an empty root), `.` the root without a trailing `/`, `..` its parent, and any other name the root, one separator and the name (just the name under the current directory) |
| Routing.CollectionJob | Extensions/download-server.js:305-307 | a collection job keeps the request's link, category and name and writes into the sanitised folder under the root |
| Routing.Route | Extensions/download-server.js:292-321 | a supplied token is stored first; a `track` request is one job into the root; a collection request writes into its sanitised folder and is expanded exactly when a token is stored; any other category does nothing |
| Routing.CollectionFolderPlacement | Extensions/download-server.js:305-307 | a collection's folder is the root (for a name that sanitises to `""`), the root without a trailing `/` (for `.`), the root's parent (for `..`), and otherwise the entry of the root named by the sanitised name, which holds no forbidden character |
| Routing.DownloadReply | Extensions/download-server.js:323-330 | the reply succeeds, with status 200 and `<type> download completed`, exactly when nothing rejected; otherwise it has status 500 and the error's message |
| Routing.UnknownKindSucceeds | Extensions/download-server.js:301-324 | an unrecognised category submits nothing and still replies with success |
| Routing.Download | Extensions/download-server.js:292-321 | the handler follows the plan: a single submission, the expander's submissions, or none; for each the handles are the consecutive fresh promises and the new state is the `AfterSubmits` fold over the submitted jobs, and for none the scheduler is unchanged |

## Left out

- HTTP plumbing is not modelled. This covers the server, CORS headers, `OPTIONS`, `/health`, the 404 reply, reading the request body, and `/set-token`. That handler stores whatever value it receives, falsy ones included, so `Route`'s `stored` parameter ranges over every `Option<string>`. `JSON.parse` is an input: a body that does not parse reaches `DownloadReply` as a rejection carrying the parser's message.
- Running `spotdl` is left out: the command line, the output template, `exec` and the logging. The downloader's exit is the parameter `outcome` of `Scheduler.Complete`, and the model may choose any running job to finish next.
- Promises and the event loop are modelled by handles and a `settled` map. A queued entry's promise is identified with the promise of the job it starts, so settling the job settles the caller's promise in the same step. The catalogue requests that `handleEnhancedDownload` awaits, and the submissions that follow them, form one atomic step in `HandleEnhancedDownload` and `Download`, with `old(s)` the scheduler state when the handler starts. In the code, completions and other requests can run while the requests wait. The model is still sound for that, because fetching never touches the scheduler, so those steps can be moved before the call.
- Expander.EnhancedOutcome: the outcomes are given in the order the promises settle, not linked to the scheduler's `settled` map. The other track downloads keep running after the join rejects. Nothing cancels them, and the model does not track them further.
- The network is an input sequence of responses. The request headers, the access token sent with them, and the `next` link's address are not modelled beyond whether `next` is set. A request issued after the answers run out counts as a failed fetch, which throws.
- `Resolver.PageTracks` states only that a later artist page contributes nothing. Its other cases are stated by `PlaylistPageKeepsRealTracks` and `TwoPagesInOrder`, and through `Resolve`.
- JSON details are reduced to the fields the resolver reads. A missing `name` (rendered as `undefined`) and non-string values are not modelled. A track's `spotifyUrl` being `None` stands for a missing `external_urls`, which throws. An `external_urls` object without a `spotify` key is not modelled: it gives a descriptor with `url: undefined` and does not throw. A missing `type` in a request is the category string `undefined`.
- `Sanitize.IsSpace` is the JavaScript whitespace class over single characters. Surrogate pairs and UTF-16 code units are not modelled.
- `Routing.JoinPath` models `path.join` on a POSIX system only, for a folder name without separators, which is what the sanitiser produces. Windows separators are not modelled.
- Routing.ParentDir: states `path.join(base, "..")` only for a root already in the form `path.normalize` gives (no empty or `.` segment except a lone `.`, `..` segments only at the front of a relative path, at most one trailing `/`), because the root itself is not normalised; on roots such as `a/.`, `/..` or `a//b` it can differ from Node.
- Routing.JoinPath: the same restriction to a root in normalised form, for the same reason.
- ParentOfSegment: its `p` and `w` range over all strings, but it matches Node only when `p/w` is in normalised form, as for `ParentDir`.
- CollectionFolderPlacement: matches Node for a root in normalised form only, as for `JoinPath`.
- Creating folders (`fs.existsSync`/`mkdirSync`) and loading the configuration file are left out. The root path is a parameter.
- The other repository files are not part of this model: the player extensions, `server-manager.js` and `setup.js`.
