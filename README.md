# Cadastre parcel coordinates: a verified model of the incremental run

The processing periodically loads, for every configured French
department, one line per cadastral parcel into a data-fair dataset. Each
line holds the parcel code and a `"lat,lon"` point on the parcel. A run
goes through these steps:

- It ensures that the target dataset exists. In create mode it creates
  the dataset and patches its own configuration to update mode. In
  update mode it checks that the dataset is there.
- It discovers the publication dates announced by the Etalab cadastre
  index page.
- For each department, it processes only the dates after the one
  recorded in `last-processed-dates.json`. These are the pending dates.
- For each pending date, it downloads the department's archive into a
  scratch directory, or reuses the copy already there. It then writes a
  coord for every parcel of the archive into one object, so a later
  publication overwrites an earlier one.
- It uploads that object in chunks of at most 1000 lines.
- It records the last discovered date for the department, and only on
  success.

A stop request is honoured before each date and before each chunk.

The model is written in Dafny:

- `common.dfy`: replies, results and the run's errors.
- `dates.dfy` (module `PublicationDates`):
  - the scan of the index page, which behaves like `matchAll` of the date pattern;
  - JavaScript's string order, as `Lt`;
  - deduplicate-and-sort;
  - the resume filter.
- `aggregation.dfy` (module `Aggregation`): the `coords` object as
  keys in first-assignment order plus a map, its last-write-wins update,
  and the bulk lines built from it.
- `chunking.dfy` (module `Chunking`): what `splice(0, 1000)` repeated
  until the bulk is empty sends.
- `dataset.dfy` (module `DatasetSetup`): the create/update decision table.
- `pipeline.dfy` (module `Pipeline`):
  - `fetch`, as a state machine over the scratch directory;
  - the resume state;
  - the two loops of a department, as the functions `DateLoop` and `UploadLoop`;
  - the department as a whole, as the function `Department`;
  - the loop over the departments, as `Departments`, and the whole run, as `RunAll`;
  - the class `Processing`. It holds the configuration, the scratch directory, the resume map and the trace of what the run did. Its methods run the loops imperatively. Each method is proved to end in the state its function describes, and the properties are lemmas about those functions.

What the outside world answers is an input, `Env`:

- the dataset API replies;
- the index page;
- the archive download of each (date, department);
- the bulk replies;
- the stop flag.

The bulk replies and the stop flag are indexed by the position of the
request or checkpoint in the trace. The trace records three kinds of
event: checkpoints, archive downloads, and bulk uploads with their
lines.

## Model

| member | source | states |
|---|---|---|
| PublicationDates.IsDateToken | index.js:133 | no contract of its own: a string the pattern `[0-9]{4}-[0-9]{2}-[0-9]{2}` matches in full, ten characters with digits around two dashes; used by ScanSound, DiscoverDates and MatchPositionsExact |
| PublicationDates.DateAt | index.js:133 | no contract of its own: the pattern matches the page at a position; the match positions are characterised through it by MatchPositionsExact |
| PublicationDates.Scan | index.js:133 | no contract of its own: `matchAll` of the date pattern; specified by ScanSound, ScanAtPositions, MatchesApart and ScanComplete |
| PublicationDates.MatchPositions | index.js:133 | no contract of its own: where the matches of the scan start; specified by ScanAtPositions and MatchesApart |
| PublicationDates.ScanSound | index.js:133 | every match of the global pattern is a date token that occurs in the page at or after the search position |
| PublicationDates.ScanAtPositions | index.js:133 | there are as many matches as match positions; the k-th match is the ten characters at the k-th position, which is at or after the search position and carries a token |
| PublicationDates.MatchesApart | index.js:133 | every match position is at or after the search position, and a later match starts at least ten characters after any earlier one: matches never overlap |
| PublicationDates.ScanComplete | index.js:133 | a token at p is matched at position p whenever every match position before p ends at or before p |
| PublicationDates.MatchPositionsExact | index.js:133 | p is a match position iff it is at or after the search position, a token starts there, and no earlier match overlaps it |
| PublicationDates.NoTokenNoDate | index.js:133 | a page without a token yields no match |
| PublicationDates.DiscoverDates | index.js:133 | the dates are strictly increasing; each is a 10-character token with digits and '-' at positions 4 and 7; each occurs in the page; a string is among them iff the scan matched it |
| PublicationDates.DiscoverComplete | index.js:133 | a token at p is among the discovered dates whenever every match position before p ends at or before p |
| PublicationDates.SortUnique | index.js:133 | `[...new Set(xs)].sort()`: strictly increasing, with exactly the elements of xs |
| PublicationDates.Insert | index.js:133 | inserting into a strictly increasing list keeps it strictly increasing and adds exactly the new element |
| PublicationDates.StrictlySortedUnique | index.js:133 | two strictly increasing lists with the same elements are equal, so the dedupe-and-sort result is determined by the set of matches |
| PublicationDates.Lt | index.js:133 | no contract of its own: the string order of `sort()` and `>`; specified by LtIrreflexive, LtTransitive, LtTotal and LtAsymmetric |
| PublicationDates.LtIrreflexive | index.js:133 | the string order is irreflexive |
| PublicationDates.LtTransitive | index.js:133 | the string order is transitive |
| PublicationDates.LtTotal | index.js:133 | two different strings are ordered one way or the other |
| PublicationDates.LtAsymmetric | index.js:150 | `d > stored` and `stored > d` never both hold |
| PublicationDates.After | index.js:150 | no contract of its own: `dates.filter(d => d > lastProcessedDate)`; specified by AfterMembers, AfterKeepsTail and AfterIsSuffix |
| PublicationDates.AfterMembers | index.js:150 | `dates.filter(d => d > lastProcessedDate)` keeps exactly the dates greater than the stored one |
| PublicationDates.AfterKeepsTail | index.js:150 | on an ascending list, when the first date is after the stored one, nothing is dropped |
| PublicationDates.AfterIsSuffix | index.js:150 | on an ascending list the filter drops exactly the leading dates at or before the stored one and keeps the rest, a suffix in the same order |
| Common.Truthy | index.js:149-150 | no contract of its own: JavaScript truthiness of an optional string, as tested here and of the configured id at line 111, false for an absent value and for `""`; its two uses are stated by EnsureDataset and PendingDatesSpec |
| PublicationDates.PendingDates | index.js:148-150 | no contract of its own: the choice between the filter and all dates; specified by PendingDatesSpec |
| PublicationDates.PendingDatesSpec | index.js:148-150 | a falsy stored date (absent or "") keeps every date; otherwise exactly the later dates are kept, as an ascending suffix of the list |
| PublicationDates.LastDate | index.js:187 | no contract of its own: `dates[dates.length - 1]`; specified by LastDateIsMaximum |
| PublicationDates.LastDateIsMaximum | index.js:187 | `dates[dates.length - 1]` is defined iff some date was discovered, and it is then the greatest date |
| Chunking.Chunks | index.js:178-180 | no contract of its own: the successive `splice(0, 1000)`; specified by ChunksFlatten, ChunksCount and ChunksSizes |
| Chunking.ChunksFlatten | index.js:178-180 | the chunks, concatenated in order, give back the bulk |
| Chunking.ChunksCount | index.js:178-181 | ceil(N / 1000) chunks, so ceil(N / 1000) upload calls |
| Chunking.ChunksSizes | index.js:180 | every chunk has between 1 and 1000 lines, and all but the last have exactly 1000 |
| Aggregation.CoordOf | index.js:166 | no contract of its own: the coord string; specified by CoordRoundTrip |
| Aggregation.CoordRoundTrip | index.js:166 | the coord string puts the latitude first: it splits back into (y, x) |
| Aggregation.Put | index.js:166 | no contract of its own: one assignment `coords[id] = ...`; specified by Absorb, LastWriteWins and AbsorbArchive |
| Aggregation.Absorb | index.js:164-167 | writing features keeps the object well formed (each key listed once, exactly the keys listed) and never reorders existing keys |
| Aggregation.LastWithSpec | index.js:166 | the last feature carrying a code: none iff no feature carries it, otherwise the last one that does |
| Aggregation.LastWriteWins | index.js:151-171 | after the features are written, a code holds the coord of the last feature carrying it; a code no feature carries keeps its old value |
| Aggregation.AbsorbConcat | index.js:151-171 | the features of successive dates are written one after the other into the same object |
| Aggregation.LaterDateWins | index.js:151-171 | when a later date's features carry a code, they decide its coord whatever earlier dates held |
| Aggregation.AbsorbArchive | index.js:159-170 | the stream callback run over one archive leaves the object the fold `Absorb` describes, still well formed |
| Aggregation.BulkRows | index.js:172-176 | no contract of its own beyond a well-formed object: the `Object.keys(coords).map(...)` lines; specified by BulkRowsContents |
| Aggregation.BulkRowsContents | index.js:172-176 | one line per distinct code of the object; each has `_id == code` and `coord == coords[code]`; every code has its line |
| DatasetSetup.Created | index.js:118-122 | no contract of its own: the body of the PUT or POST reply; a failed request is its HTTP error, a null body fails with `EmptyBody` when its id is read, and a dataset body becomes both the dataset and the patch; its cases are stated by EnsureDataset |
| DatasetSetup.EnsureDataset | index.js:103-129 | create with an id: GET success means DatasetExists, a non-404 error is rethrown, and a 404 leads to the PUT; create succeeds iff the PUT or POST returns a non-null body, and then patches with that body; update succeeds iff GET returns a body, and an empty body means DatasetMissing; another mode sets nothing up |
| DatasetSetup.ApplyPatch | index.js:123 | the patch sets mode update and the created id and title, and keeps the departments |
| DatasetSetup.NextRunVerifies | index.js:123-128 | once the patch is applied, the next run verifies the created dataset in update mode instead of creating it again |
| Pipeline.ArchivePath | index.js:69 | no contract of its own: the archive's file name; specified by ArchivePathInjective and ArchivePathPairInjective |
| Pipeline.ArchivePathInjective | index.js:69 | two dates of one department never share an archive file |
| Pipeline.ArchivePathPairInjective | index.js:69 | two (date, department) pairs whose dates are date tokens never share an archive file |
| Pipeline.Placeholder | index.js:78 | no contract of its own: the file `fs.ensureFile` creates, as a failed download leaves it; it does not decode, so a later run that reuses it fails; stated by FailedDownloadPersists and FailedDownloadStopsLaterRun |
| Pipeline.FetchStep | index.js:68-98 | an existing file is reused; otherwise a download fills it, a 404 removes it and returns nothing, and any other error is returned with the placeholder left; existing files are never changed; a returned path is the archive's and exists |
| Pipeline.FetchIdempotent | index.js:72-75 | fetching again what was fetched reuses the file, whatever the network answers |
| Pipeline.FailedDownloadPersists | index.js:68-90 | a download failing other than with a 404 returns its error and leaves the placeholder; every later gathering of that (date, department) reuses it and fails on it with `CorruptArchive` |
| Pipeline.FailedDownloadStopsLaterRun | index.js:152-170 | a later run that reaches that date passes its checkpoint, downloads nothing and ends the department there with `CorruptArchive`, keeping `coords` |
| Pipeline.Stored | index.js:148 | no contract of its own: `lastProcessedDates[dep]`, absent when the department has no entry; Commit, CommitAllSpec and PendingDatesSpec state what it holds |
| Pipeline.Commit | index.js:187-188 | the department's entry becomes the last discovered date, or disappears when there is none; every other entry is unchanged |
| Pipeline.CommitAll | index.js:145-188 | no contract of its own: the commits of a list of departments in order; specified by CommitAllSpec and CommitAllCons |
| Pipeline.CommitAllSpec | index.js:145-188 | after committing a list of departments, each listed one holds the last date and every other entry is unchanged |
| Pipeline.CommitAllCons | index.js:145-188 | committing one department and then a list is committing the longer list |
| Pipeline.EmptyIndexDropsEntry | index.js:187-188 | with no discovered date the committed entry is dropped, as `writeJson` omits undefined |
| Pipeline.Gather | index.js:151-171 | no contract of its own: the features of the pending dates' archives in date order, or the first error, with no trace or stop flag; the reference the date loop is proved against in DateLoopGathers and DateLoopCompletes |
| Pipeline.NotFoundSkipped | index.js:153-157 | an unpublished archive (404) contributes nothing and leaves the scratch directory as it was |
| Pipeline.TwoPublicationsOneLine | index.js:151-176 | any parcel published at two dates gives one line, carrying the later coordinates |
| Pipeline.DateLoop | index.js:151-171 | the date loop keeps `coords` well formed; its behaviour is specified by DateLoopGathers, DateLoopSkipsMissing, DateLoopStops, DateLoopDownloads, DateLoopExtends and DateLoopCompletes |
| Pipeline.DateLoopGathers | index.js:151-171 | when all pending dates are processed, `coords` holds all their features written in date order; when processing fails, it fails with the first archive's error |
| Pipeline.DateLoopSkipsMissing | index.js:153-157 | a 404 date leaves `coords` alone, and the loop continues with the next date after its checkpoint and download |
| Pipeline.DateLoopStops | index.js:152 | the date loop uploads nothing, and when a checkpoint finds the flag set the run ends right there |
| Pipeline.DateLoopDownloads | index.js:151-153 | only archives of this department and of its pending dates are requested, and no file of the scratch directory is lost |
| Pipeline.DateLoopExtends | index.js:151-171 | the date loop only adds events to the trace |
| Pipeline.DateLoopCompletes | index.js:151-171 | when the stop flag is never set, the date loop completes iff Gather succeeds |
| Pipeline.UploadLoop | index.js:178-186 | no contract of its own: the `while (bulk.length)` loop; specified by UploadLoopSpec, UploadLoopReplies, UploadLoopExtends and UploadLoopCompletes |
| Pipeline.UploadLoopPrefix | index.js:178-181 | the lines sent are a prefix of the chunks of the bulk |
| Pipeline.UploadLoopAll | index.js:178-186 | when the loop completes, every chunk of the bulk was sent, in order |
| Pipeline.UploadLoopStops | index.js:179 | when a checkpoint finds the flag set the trace ends right there; otherwise no checkpoint saw it |
| Pipeline.UploadLoopSpec | index.js:178-186 | the conjunction of UploadLoopPrefix, UploadLoopAll and UploadLoopStops: the uploads are a prefix of the chunks of the bulk, all of them on success; when a checkpoint finds the flag set the run ends right there |
| Pipeline.UploadLoopRequests | index.js:181-185 | every request goes to the set-up dataset; on success every reply reported zero errors; an InsertFailed outcome comes from the reply to the last request; the only errors are the reply's, the HTTP one, or a missing dataset |
| Pipeline.UploadLoopErrorEnds | index.js:181-185 | a request whose reply reports errors, or fails, is the last event of the loop, which ends with `InsertFailed` of that count or the `HttpError` of that status |
| Pipeline.UploadLoopReplies | index.js:181-185 | the conjunction of UploadLoopRequests and UploadLoopErrorEnds: every request goes to the set-up dataset; on success every reply reported zero errors; a reply with errors, or a failed request, ends the run right after it with that error, and an InsertFailed outcome comes from such a reply; the only errors are the reply's, the HTTP one, or a missing dataset |
| Pipeline.UploadLoopExtends | index.js:178-186 | the upload loop only adds events to the trace |
| Pipeline.UploadLoopCompletes | index.js:178-186 | with no stop, a set-up dataset and replies reporting zero errors, the whole bulk goes out and the loop completes |
| Pipeline.Department | index.js:145-189 | no contract of its own: one department, the date loop then the upload loop then the commit; specified by DepartmentTrace, DepartmentResult, DepartmentStoppedEarly and DepartmentCompletes |
| Pipeline.DepartmentStops | index.js:145-189 | a department only extends the trace, honours the stop flag, and keeps every file of the scratch directory |
| Pipeline.DepartmentDownloads | index.js:151-153 | a department requests only its pending dates' archives |
| Pipeline.DepartmentTrace | index.js:145-189 | the conjunction of DepartmentStops and DepartmentDownloads: a department only extends the trace, honours the stop flag, requests only its pending dates' archives, and keeps every file of the scratch directory |
| Pipeline.DepartmentResult | index.js:145-189 | on success the lines sent are the chunks of the rows of all pending dates' features (in date order) and the resume entry is committed; otherwise the resume state is untouched and the error comes from the first failing archive or from the upload |
| Pipeline.DepartmentStoppedEarly | index.js:152 | a stop before a department with pending dates makes no request for it and commits nothing |
| Pipeline.DepartmentCompletes | index.js:145-189 | with no stop, a set-up dataset and zero-error replies, a department completes iff its pending dates' archives can be gathered |
| Pipeline.DepartmentTwoPublications | index.js:145-188 | one parcel published at two pending dates, for a department with nothing stored: the department completes, sends exactly one line carrying the later coordinates, and records the later date |
| Pipeline.DepartmentCommits | index.js:187-188 | a department writes its resume entry when it completes, and leaves the resume state alone otherwise |
| Pipeline.Departments | index.js:145-189 | no contract of its own: `for (const dep of processingConfig.deps)`, ending the run at the first department that does not complete; specified by DepartmentsCommit and DepartmentsTrace |
| Pipeline.DepartmentsDone | index.js:145-189 | the number of departments that completed is at most the number listed |
| Pipeline.DepartmentsOutcome | index.js:145-189 | the loop over the departments completes iff every department did |
| Pipeline.DepartmentsResume | index.js:145-188 | the resume state is the commit of the completed departments, in list order, and of no other |
| Pipeline.DepartmentsCommit | index.js:145-188 | the conjunction of DepartmentsOutcome and DepartmentsResume: the departments that completed are committed in list order and no other; the loop completes iff all of them did |
| Pipeline.DepartmentsTrace | index.js:145-189 | the loop over the departments only extends the trace, honours the stop flag, and keeps every file of the scratch directory |
| Pipeline.NotListedUnchanged | index.js:145-188 | departments the configuration does not list keep their resume entries, however far the run got |
| Pipeline.SetupConfig | index.js:123 | no contract of its own: the configuration after the dataset step; specified by RunAllSpec |
| Pipeline.DatesOf | index.js:132-133 | no contract of its own: the dates of the fetched index page; used by RunAllSpec |
| Pipeline.RunAll | index.js:102-190 | no contract of its own: the whole run as a function; specified by RunAllSpec, and Processing.Run is proved to end in its state |
| Pipeline.RunAllSpec | index.js:102-190 | a failed dataset step or index request ends the run with that error before any archive or bulk request and any commit; the configuration is patched exactly on a create; the trace honours the stop flag and keeps every scratch file; exactly the departments that completed before the run ended (`DepartmentsDone` of them) are committed, in list order, all of them on completion, and unlisted ones never change |
| Pipeline.Processing.constructor | index.js:136-143 | the run starts with the given configuration, scratch directory and resume state (`{}` or the content of `last-processed-dates.json`) and an empty trace |
| Pipeline.Processing.Checkpoint | index.js:152 | the stop flag is read and the reading recorded; nothing else changes |
| Pipeline.Processing.Fetch | index.js:68-98 | the scratch directory and the result are those of `FetchStep`, and a download is recorded iff the file was absent |
| Pipeline.Processing.ProcessDates | index.js:151-171 | the loop over the pending dates ends in the state `DateLoop` describes, with a well-formed `coords` |
| Pipeline.Processing.UploadBulk | index.js:178-186 | the `splice` loop ends in the state `UploadLoop` describes |
| Pipeline.Processing.ProcessDepartment | index.js:146-188 | one department ends in the state `Department` describes, with the configuration unchanged |
| Pipeline.Processing.Run | index.js:102-190 | the run ends with the configuration, outcome, scratch directory, trace and resume state that `RunAll` describes |

## Left out

- HTTP requests, file-system calls, the NFS workarounds and `pump`: each is replaced by its answer in `Env`, or by the scratch-directory map and the resume map of `Processing`. Reading and writing `last-processed-dates.json` is the resume map itself, and the file's log lines are left out.
- Gunzip and `JSONStream` parsing of `features.*`: an archive is given already decoded as a sequence of features, or as `Corrupt` when decoding fails.
- A placeholder left behind by a failed download, empty or holding part of the stream, is `Corrupt`: it does not decode. The model does not tell the two apart, nor the exact zlib or JSON error message.
- `pointOnFeature` is not modelled. Its point is an opaque pair of number strings per feature, and the guarantee that the point lies on the parcel is not stated.
- Float-to-string formatting is not modelled. Coordinates are opaque strings, and only the `y,x` order is kept.
- `Object.keys` order is modelled as first-assignment order. JavaScript lists integer-like keys first, so the contents lemmas speak of membership. Parcel codes are 14-character strings, never array indices. The special key `__proto__` is not modelled.
- String comparison (`sort()` and `>`) is modelled as lexicographic order on characters. The difference between UTF-16 code units and code points is ignored; dates are ASCII.
- `readJson` values that are not strings are not modelled. The resume state maps departments to strings.
- The `baseDataset` constant and the `processingId` extra are left out: they are static metadata.
- Logging is left out, and `patchConfig` is modelled only as the updated `config` field.
- The `_stopped` global and `stop()` are not modelled as concurrent mutation. The flag is an oracle read at the two checkpoints.
- EnsureDataset: a create reply (PUT or POST) whose body is neither null nor a dataset object, such as an empty string, is not modelled. JavaScript reads an undefined id and title from it without throwing, patches the configuration with them and sends the lines to `api/v1/datasets/undefined`; the model only has null bodies, which fail with `EmptyBody`, and dataset bodies.
- A dataset mode other than create or update is one case, `OtherMode`. An upload then fails with `NoDataset`, as reading `dataset.id` would throw; a department with no lines still completes.
- `test/test.js` is not modelled: it is an integration script against a live server, with no logic of its own.
