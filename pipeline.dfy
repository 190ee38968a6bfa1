/** The run of the processing (index.js lines 68-98 and 102-190): the archive
    fetcher over the scratch directory, the per-department loop over pending
    dates, the chunked upload, and the resume state, with the stop flag read
    at its two checkpoints. The network, the files and the stop flag are
    inputs (an Env); what the run does to the outside world is recorded, in
    order, in a trace of events. */
module Pipeline {
  import opened Common
  import opened PublicationDates
  import opened Aggregation
  import opened Chunking
  import opened DatasetSetup

  // ---------------------------------------------------------------------------
  // The scratch directory and `fetch`
  // ---------------------------------------------------------------------------

  /** What a file of the scratch directory decodes to once gunzipped and
      parsed at `features.*`. */
  datatype Archive = Parsed(features: seq<Feature>) | Corrupt

  /** The file `fs.ensureFile` creates before a download, as a failed
      download leaves it: empty, or holding part of the stream, so that
      `zlib.createUnzip()` rejects it when a later run reads it. */
  const Placeholder: Archive := Corrupt

  /** `${date}-${dep}.json.gz`, relative to the scratch directory. */
  function ArchivePath(date: string, dep: string): string
  {
    date + "-" + dep + ".json.gz"
  }

  /** Two dates of one department never share an archive file. */
  lemma ArchivePathInjective(d1: string, d2: string, dep: string)
    requires ArchivePath(d1, dep) == ArchivePath(d2, dep)
    ensures d1 == d2
  {
    var suffix := "-" + dep + ".json.gz";
    assert ArchivePath(d1, dep) == d1 + suffix && ArchivePath(d2, dep) == d2 + suffix;
    assert |d1| == |d2|;
    assert d1 == (d1 + suffix)[..|d1|];
  }

  /** The scratch directory is keyed by (date, department): since a date is
      a ten-character token, no two pairs share an archive file. */
  lemma ArchivePathPairInjective(d1: string, dep1: string, d2: string, dep2: string)
    requires IsDateToken(d1) && IsDateToken(d2)
    requires ArchivePath(d1, dep1) == ArchivePath(d2, dep2)
    ensures d1 == d2 && dep1 == dep2
  {
    var path := ArchivePath(d1, dep1);
    assert path == d1 + ("-" + dep1 + ".json.gz") && path == d2 + ("-" + dep2 + ".json.gz");
    assert d1 == path[..10] == d2;
    assert path[11..|path| - 8] == dep1;
    assert ArchivePath(d2, dep2)[11..|path| - 8] == dep2;
  }

  /** What `fetch` returns: the archive's path, nothing (undefined), or the
      error it rethrows. */
  datatype Fetched = File(path: string) | NoFile | FetchError(status: int)

  /** The decision `fetch` takes, given the scratch directory and what the
      download of the archive answers: an existing file is reused; otherwise
      a placeholder is created, then filled by the download, removed on a
      404, or left behind when the download fails otherwise. */
  function FetchStep(files: map<string, Archive>, date: string, dep: string, download: Reply<Archive>)
    : (r: (Fetched, map<string, Archive>))
    ensures var path := ArchivePath(date, dep);
            && (path in files ==> r == (File(path), files))
            && (path !in files && download.Ok? ==> r == (File(path), files[path := download.data]))
            && (path !in files && download == Fail(NotFoundStatus) ==> r == (NoFile, files))
            && ((path !in files && download.Fail? && download.status != NotFoundStatus)
                  ==> r == (FetchError(download.status), files[path := Placeholder]))
    // the cache only grows: no existing file is overwritten or removed
    ensures forall p | p in files :: p in r.1 && r.1[p] == files[p]
    ensures r.0.File? ==> r.0.path == ArchivePath(date, dep) && r.0.path in r.1
  {
    var path := ArchivePath(date, dep);
    if path in files then (File(path), files)
    else
      var withPlaceholder := files[path := Placeholder];
      match download
      case Ok(archive) =>
        assert withPlaceholder[path := archive] == files[path := archive];
        (File(path), withPlaceholder[path := archive])
      case Fail(status) =>
        if status == NotFoundStatus then
          assert withPlaceholder - {path} == files;
          (NoFile, withPlaceholder - {path})
        else (FetchError(status), withPlaceholder)
  }

  /** Fetching again what was fetched reuses the file, whatever the network
      would answer this time. */
  lemma FetchIdempotent(files: map<string, Archive>, date: string, dep: string,
                        first: Reply<Archive>, again: Reply<Archive>)
    requires FetchStep(files, date, dep, first).0.File?
    ensures var (r, files') := FetchStep(files, date, dep, first);
            FetchStep(files', date, dep, again) == (r, files')
  {
  }

  // ---------------------------------------------------------------------------
  // The outside world, and what the run does to it
  // ---------------------------------------------------------------------------

  /** What the outside world answers. Replies to the bulk requests and the
      readings of the stop flag are indexed by the position in the trace of
      the event that asks for them. */
  datatype Env = Env(
    replies: DatasetReplies,                      // the dataset API, for the setup step
    index: Reply<string>,                         // GET of the archive index page
    archive: (string, string) -> Reply<Archive>,  // GET of the archive of (date, department)
    bulk: nat -> Reply<nat>,                      // POST _bulk_lines: its `nbErrors`
    stop: nat -> bool)                            // `_stopped`, as a checkpoint reads it

  datatype Event =
    | Checkpoint(stopped: bool)                   // `if (_stopped) return`
    | Download(date: string, dep: string)         // an archive GET
    | Upload(datasetId: string, lines: seq<Row>)  // a bulk POST

  datatype Outcome = Completed | Interrupted | Failed(error: Error)

  /** The lines of the bulk requests of a trace, in order. */
  function Uploads(t: seq<Event>): seq<seq<Row>>
    decreases |t|
  {
    if t == [] then []
    else Uploads(t[..|t| - 1]) + (if t[|t| - 1].Upload? then [t[|t| - 1].lines] else [])
  }

  lemma UploadsAppend(t: seq<Event>, e: Event)
    ensures Uploads(t + [e]) == Uploads(t) + if e.Upload? then [e.lines] else []
  {
    assert (t + [e])[..|t|] == t;
  }

  predicate NoStopSeen(t: seq<Event>)
  {
    forall i | 0 <= i < |t| :: t[i] != Checkpoint(true)
  }

  /** The trace ends at the first checkpoint that found the flag set: nothing
      happened after it. */
  predicate EndsAtStop(t: seq<Event>)
  {
    |t| > 0 && t[|t| - 1] == Checkpoint(true) && NoStopSeen(t[..|t| - 1])
  }

  // ---------------------------------------------------------------------------
  // Resume state
  // ---------------------------------------------------------------------------

  /** `lastProcessedDates[dep]`. */
  function Stored(resume: map<string, string>, dep: string): Option<string>
  {
    if dep in resume then Some(resume[dep]) else None
  }

  /** `lastProcessedDates[dep] = dates[dates.length - 1]`, as the JSON file
      keeps it: an undefined value is not written, so the entry disappears. */
  function Commit(resume: map<string, string>, dep: string, dates: seq<string>): (r: map<string, string>)
    ensures Stored(r, dep) == LastDate(dates)
    ensures forall k | k != dep :: Stored(r, k) == Stored(resume, k)
  {
    match LastDate(dates)
    case Some(d) => resume[dep := d]
    case None => resume - {dep}
  }

  /** The resume state after the departments in deps were committed in turn. */
  function CommitAll(resume: map<string, string>, deps: seq<string>, dates: seq<string>): map<string, string>
    decreases |deps|
  {
    if deps == [] then resume
    else Commit(CommitAll(resume, deps[..|deps| - 1], dates), deps[|deps| - 1], dates)
  }

  /** After a full run every listed department holds the last discovered
      date, and no other entry changes. */
  lemma {:induction false} CommitAllSpec(resume: map<string, string>, deps: seq<string>, dates: seq<string>, k: string)
    ensures Stored(CommitAll(resume, deps, dates), k) == if k in deps then LastDate(dates) else Stored(resume, k)
    decreases |deps|
  {
    if deps != [] {
      var init := deps[..|deps| - 1];
      CommitAllSpec(resume, init, dates, k);
      assert deps == init + [deps[|deps| - 1]];
    }
  }

  /** When the index announces no date at all, every department processed
      loses its resume entry, so its next run starts from the first date. */
  lemma EmptyIndexDropsEntry(resume: map<string, string>, dep: string)
    ensures dep !in Commit(resume, dep, [])
  {
  }

  // ---------------------------------------------------------------------------
  // The features a department's pending dates contribute
  // ---------------------------------------------------------------------------

  datatype Gathered = Gathered(features: seq<Feature>) | GatherFailed(error: Error)

  function Prepend(fs: seq<Feature>, g: Gathered): Gathered
  {
    match g
    case Gathered(rest) => Gathered(fs + rest)
    case GatherFailed(_) => g
  }

  /** Fetching and decoding the archives of the dates in order, from the
      given scratch directory: the features of all of them, in date order,
      or the first error. A date without an archive contributes nothing. */
  function Gather(files: map<string, Archive>, archive: (string, string) -> Reply<Archive>,
                  dep: string, dates: seq<string>): Gathered
    decreases |dates|
  {
    if dates == [] then Gathered([])
    else
      var (fetched, files') := FetchStep(files, dates[0], dep, archive(dates[0], dep));
      match fetched
      case NoFile => Gather(files', archive, dep, dates[1..])
      case FetchError(status) => GatherFailed(HttpError(status))
      case File(path) =>
        match files'[path]
        case Corrupt => GatherFailed(CorruptArchive(path))
        case Parsed(fs) => Prepend(fs, Gather(files', archive, dep, dates[1..]))
  }

  /** A date whose archive is not published (a 404) is skipped: the scratch
      directory is unchanged and the remaining dates are processed. */
  lemma NotFoundSkipped(files: map<string, Archive>, archive: (string, string) -> Reply<Archive>,
                        dep: string, dates: seq<string>)
    requires dates != []
    requires ArchivePath(dates[0], dep) !in files
    requires archive(dates[0], dep) == Fail(NotFoundStatus)
    ensures Gather(files, archive, dep, dates) == Gather(files, archive, dep, dates[1..])
  {
  }

  /** A download that fails other than with a 404 leaves its placeholder in
      the scratch directory; since `fetch` reuses an existing file, every
      later gathering of that (date, department) fails on it. */
  lemma FailedDownloadPersists(files: map<string, Archive>, date: string, dep: string, status: int,
                               archive: (string, string) -> Reply<Archive>, rest: seq<string>)
    requires ArchivePath(date, dep) !in files && status != NotFoundStatus
    ensures var (fetched, files') := FetchStep(files, date, dep, Fail(status));
            && fetched == FetchError(status)
            && Gather(files', archive, dep, [date] + rest) == GatherFailed(CorruptArchive(ArchivePath(date, dep)))
  {
    var (_, files') := FetchStep(files, date, dep, Fail(status));
    assert ([date] + rest)[0] == date;
    assert FetchStep(files', date, dep, archive(date, dep)) == (File(ArchivePath(date, dep)), files');
  }

  /** The same at the level of a department's date loop: a later run that
      reaches that date fails there, with nothing downloaded again. */
  lemma FailedDownloadStopsLaterRun(env: Env, files: map<string, Archive>, t: seq<Event>, dep: string,
                                    date: string, status: int, rest: seq<string>, coords: Coords)
    requires ArchivePath(date, dep) !in files && status != NotFoundStatus
    requires !env.stop(|t|)
    ensures var files' := FetchStep(files, date, dep, Fail(status)).1;
            DateLoop(env, files', t, dep, [date] + rest, coords)
              == Progress(Failed(CorruptArchive(ArchivePath(date, dep))), files', t + [Event.Checkpoint(false)], coords)
  {
    var files' := FetchStep(files, date, dep, Fail(status)).1;
    assert ([date] + rest)[0] == date;
    assert FetchStep(files', date, dep, env.archive(date, dep)) == (File(ArchivePath(date, dep)), files');
  }

  /** The end-to-end case of one parcel published at two dates: one line,
      carrying the coordinates of the later publication. */
  lemma TwoPublicationsOneLine(code: string, early: Point, late: Point)
    ensures BulkRows(Absorb(NoCoords, [Feature(code, early), Feature(code, late)]))
              == [Row(code, code, CoordOf(late))]
  {
    var fs := [Feature(code, early), Feature(code, late)];
    assert fs[..1] == [Feature(code, early)];
    assert [Feature(code, early)][..0] == [];
    var once := Absorb(NoCoords, fs[..1]);
    assert Absorb(NoCoords, [Feature(code, early)][..0]) == NoCoords;
    assert once == Put(NoCoords, Feature(code, early));
    assert once == Coords([code], map[code := CoordOf(early)]);
    var c := Absorb(NoCoords, fs);
    assert c == Coords([code], map[code := CoordOf(late)]);
    assert BulkRows(c)[0] == Row(code, code, CoordOf(late));
  }

  // ---------------------------------------------------------------------------
  // The two loops of a department, step by step
  // ---------------------------------------------------------------------------

  /** Where the loop over a department's pending dates leaves things: how it
      ended (Completed: every date was processed), the scratch directory,
      the trace and the `coords` object. */
  datatype Progress = Progress(out: Outcome, files: map<string, Archive>, trace: seq<Event>, coords: Coords)

  /** `for (const date of depDates)`: a checkpoint, `fetch`, and the features
      of the archive written into `coords`, date after date. */
  function DateLoop(env: Env, files: map<string, Archive>, t: seq<Event>, dep: string,
                    dates: seq<string>, coords: Coords): (r: Progress)
    ensures WellFormed(coords) ==> WellFormed(r.coords)
    decreases |dates|
  {
    if dates == [] then Progress(Completed, files, t, coords)
    else
      var stopped := env.stop(|t|);
      var t1 := t + [Event.Checkpoint(stopped)];
      if stopped then Progress(Interrupted, files, t1, coords)
      else
        var t2 := if ArchivePath(dates[0], dep) in files then t1 else t1 + [Download(dates[0], dep)];
        var (fetched, files') := FetchStep(files, dates[0], dep, env.archive(dates[0], dep));
        match fetched
        case NoFile => DateLoop(env, files', t2, dep, dates[1..], coords)
        case FetchError(status) => Progress(Failed(HttpError(status)), files', t2, coords)
        case File(path) =>
          match files'[path]
          case Corrupt => Progress(Failed(CorruptArchive(path)), files', t2, coords)
          case Parsed(fs) => DateLoop(env, files', t2, dep, dates[1..], Absorb(coords, fs))
  }

  /** `while (bulk.length)`: a checkpoint, `bulk.splice(0, 1000)`, the
      request and the check of its reply, until the bulk is empty. */
  function UploadLoop(env: Env, t: seq<Event>, bulk: seq<Row>, dataset: Option<Dataset>): (Outcome, seq<Event>)
    decreases |bulk|
  {
    if bulk == [] then (Completed, t)
    else
      var stopped := env.stop(|t|);
      var t1 := t + [Event.Checkpoint(stopped)];
      if stopped then (Interrupted, t1)
      else if dataset.None? then (Failed(NoDataset), t1)
      else
        var n := Min(ChunkSize, |bulk|);
        var t2 := t1 + [Upload(dataset.value.id, bulk[..n])];
        match env.bulk(|t1|)
        case Fail(status) => (Failed(HttpError(status)), t2)
        case Ok(nbErrors) =>
          if nbErrors > 0 then (Failed(InsertFailed(nbErrors)), t2)
          else UploadLoop(env, t2, bulk[n..], dataset)
  }

  /** The trace only grows, and the loop stops right at the first checkpoint
      that finds the flag set. */
  predicate Extends(t: seq<Event>, t': seq<Event>)
  {
    |t| <= |t'| && t'[..|t|] == t
  }

  lemma StopStep(t: seq<Event>, stopped: bool)
    requires NoStopSeen(t)
    ensures stopped ==> EndsAtStop(t + [Event.Checkpoint(stopped)])
    ensures !stopped ==> NoStopSeen(t + [Event.Checkpoint(stopped)])
  {
    assert (t + [Event.Checkpoint(stopped)])[..|t|] == t;
  }

  lemma NoStopAppend(t: seq<Event>, e: Event)
    requires NoStopSeen(t) && !e.Checkpoint?
    ensures NoStopSeen(t + [e])
  {
  }

  lemma ExtendsTrans(a: seq<Event>, b: seq<Event>, c: seq<Event>)
    requires Extends(a, b) && Extends(b, c)
    ensures Extends(a, c)
  {
    assert c[..|a|] == c[..|b|][..|a|];
  }

  lemma PrefixSelf(u: seq<seq<Row>>, rest: seq<seq<Row>>)
    ensures u <= u <= u + rest
  {
  }

  lemma PrefixStep(u: seq<seq<Row>>, c: seq<Row>, w: seq<seq<Row>>, rest: seq<seq<Row>>)
    requires u + [c] <= w <= u + [c] + rest
    ensures u <= w <= u + ([c] + rest)
    ensures w == u + [c] + rest ==> w == u + ([c] + rest)
  {
    assert u + [c] + rest == u + ([c] + rest);
  }

  /** One step of the upload loop: the checkpoint sends nothing, and the
      request sends the first chunk of the bulk. */
  lemma UploadStep(env: Env, t: seq<Event>, bulk: seq<Row>, id: string)
    requires bulk != []
    ensures var t1 := t + [Event.Checkpoint(env.stop(|t|))];
            var n := Min(ChunkSize, |bulk|);
            && Uploads(t1) == Uploads(t)
            && Uploads(t1 + [Upload(id, bulk[..n])]) == Uploads(t) + [bulk[..n]]
            && Chunks(bulk) == [bulk[..n]] + Chunks(bulk[n..])
  {
    var t1 := t + [Event.Checkpoint(env.stop(|t|))];
    var n := Min(ChunkSize, |bulk|);
    UploadsAppend(t, Event.Checkpoint(env.stop(|t|)));
    UploadsAppend(t1, Upload(id, bulk[..n]));
  }

  /** The chunks go out in order: the uploads are a prefix of the chunks. */
  lemma {:induction false} UploadLoopPrefix(env: Env, t: seq<Event>, bulk: seq<Row>, dataset: Option<Dataset>)
    ensures Uploads(t) <= Uploads(UploadLoop(env, t, bulk, dataset).1) <= Uploads(t) + Chunks(bulk)
    decreases |bulk|
  {
    var r := UploadLoop(env, t, bulk, dataset);
    if bulk == [] {
      assert r.1 == t;
      PrefixSelf(Uploads(t), Chunks(bulk));
    } else {
      var id := if dataset.Some? then dataset.value.id else "";
      UploadStep(env, t, bulk, id);
      var t1 := t + [Event.Checkpoint(env.stop(|t|))];
      if env.stop(|t|) || dataset.None? {
        assert r.1 == t1;
        PrefixSelf(Uploads(t), Chunks(bulk));
      } else {
        var n := Min(ChunkSize, |bulk|);
        var t2 := t1 + [Upload(id, bulk[..n])];
        if env.bulk(|t1|) == Ok(0) {
          UploadLoopPrefix(env, t2, bulk[n..], dataset);
          assert r == UploadLoop(env, t2, bulk[n..], dataset);
          PrefixStep(Uploads(t), bulk[..n], Uploads(r.1), Chunks(bulk[n..]));
        } else {
          assert r.1 == t2;
          PrefixStep(Uploads(t), bulk[..n], Uploads(t2), Chunks(bulk[n..]));
        }
      }
    }
  }

  /** On success every chunk went out. */
  lemma {:induction false} UploadLoopAll(env: Env, t: seq<Event>, bulk: seq<Row>, dataset: Option<Dataset>)
    requires UploadLoop(env, t, bulk, dataset).0 == Completed
    ensures Uploads(UploadLoop(env, t, bulk, dataset).1) == Uploads(t) + Chunks(bulk)
    decreases |bulk|
  {
    if bulk != [] {
      UploadStep(env, t, bulk, dataset.value.id);
      var n := Min(ChunkSize, |bulk|);
      var t2 := t + [Event.Checkpoint(false), Upload(dataset.value.id, bulk[..n])];
      assert t2 == t + [Event.Checkpoint(false)] + [Upload(dataset.value.id, bulk[..n])];
      UploadLoopAll(env, t2, bulk[n..], dataset);
      PrefixStep(Uploads(t), bulk[..n], Uploads(UploadLoop(env, t2, bulk[n..], dataset).1), Chunks(bulk[n..]));
    }
  }

  /** The trace ends at the checkpoint that saw the stop flag, if one did. */
  lemma {:induction false} UploadLoopStops(env: Env, t: seq<Event>, bulk: seq<Row>, dataset: Option<Dataset>)
    requires NoStopSeen(t)
    ensures var (out, t') := UploadLoop(env, t, bulk, dataset);
            && (out == Interrupted ==> EndsAtStop(t'))
            && (out != Interrupted ==> NoStopSeen(t'))
    decreases |bulk|
  {
    if bulk != [] {
      var stopped := env.stop(|t|);
      var t1 := t + [Event.Checkpoint(stopped)];
      StopStep(t, stopped);
      if !stopped && dataset.Some? {
        var n := Min(ChunkSize, |bulk|);
        var e := Upload(dataset.value.id, bulk[..n]);
        NoStopAppend(t1, e);
        if env.bulk(|t1|) == Ok(0) {
          UploadLoopStops(env, t1 + [e], bulk[n..], dataset);
        }
      }
    }
  }

  /** Uploading: the chunks go out in order, all of them on success; the
      trace ends at the checkpoint that saw the stop flag, if one did. */
  lemma {:induction false} UploadLoopSpec(env: Env, t: seq<Event>, bulk: seq<Row>, dataset: Option<Dataset>)
    requires NoStopSeen(t)
    ensures var (out, t') := UploadLoop(env, t, bulk, dataset);
            && Uploads(t) <= Uploads(t') <= Uploads(t) + Chunks(bulk)
            && (out == Completed ==> Uploads(t') == Uploads(t) + Chunks(bulk))
            && (out == Interrupted ==> EndsAtStop(t'))
            && (out != Interrupted ==> NoStopSeen(t'))
  {
    UploadLoopPrefix(env, t, bulk, dataset);
    if UploadLoop(env, t, bulk, dataset).0 == Completed {
      UploadLoopAll(env, t, bulk, dataset);
    }
    UploadLoopStops(env, t, bulk, dataset);
  }

  /** Every request goes to the dataset that was set up, at the position
      whose reply is read; on success every reply reported no error; an
      InsertFailed outcome comes from the reply to the last request. */
  lemma {:induction false} UploadLoopRequests(env: Env, t: seq<Event>, bulk: seq<Row>, dataset: Option<Dataset>)
    ensures var (out, t') := UploadLoop(env, t, bulk, dataset);
            && (forall i | |t| <= i < |t'| ::
                  t'[i].Checkpoint? || (t'[i].Upload? && dataset.Some? && t'[i].datasetId == dataset.value.id))
            && (out == Completed ==> forall i | |t| <= i < |t'| && t'[i].Upload? :: env.bulk(i) == Ok(0))
            && (out.Failed? && out.error.InsertFailed? ==>
                  |t'| > |t| && t'[|t'| - 1].Upload? && env.bulk(|t'| - 1) == Ok(out.error.nbErrors))
            && (out.Failed? ==> out.error.InsertFailed? || out.error.HttpError? || (out.error == NoDataset && dataset.None?))
    decreases |bulk|
  {
    if bulk != [] && !env.stop(|t|) && dataset.Some? {
      var t1 := t + [Event.Checkpoint(false)];
      var n := Min(ChunkSize, |bulk|);
      var t2 := t1 + [Upload(dataset.value.id, bulk[..n])];
      if env.bulk(|t1|) == Ok(0) {
        UploadLoopRequests(env, t2, bulk[n..], dataset);
        UploadLoopExtends(env, t2, bulk[n..], dataset);
      }
    }
  }

  /** A request whose reply reports rejected lines, or fails, is the last
      event of the loop, which ends with that reply's error. */
  lemma {:induction false} UploadLoopErrorEnds(env: Env, t: seq<Event>, bulk: seq<Row>, dataset: Option<Dataset>)
    ensures forall i | |t| <= i < |UploadLoop(env, t, bulk, dataset).1|
                         && UploadLoop(env, t, bulk, dataset).1[i].Upload? && env.bulk(i) != Ok(0) ::
              && i == |UploadLoop(env, t, bulk, dataset).1| - 1
              && UploadLoop(env, t, bulk, dataset).0
                   == Failed(if env.bulk(i).Ok? then InsertFailed(env.bulk(i).data) else HttpError(env.bulk(i).status))
    decreases |bulk|
  {
    if bulk != [] && !env.stop(|t|) && dataset.Some? {
      var t1 := t + [Event.Checkpoint(false)];
      var n := Min(ChunkSize, |bulk|);
      var t2 := t1 + [Upload(dataset.value.id, bulk[..n])];
      if env.bulk(|t1|) == Ok(0) {
        UploadLoopErrorEnds(env, t2, bulk[n..], dataset);
        UploadLoopExtends(env, t2, bulk[n..], dataset);
        var r := UploadLoop(env, t2, bulk[n..], dataset);
        assert UploadLoop(env, t, bulk, dataset) == r;
        assert r.1[|t|] == t2[|t|] && r.1[|t1|] == t2[|t1|];
      }
    }
  }

  /** Every request goes to the dataset that was set up, at the position
      whose reply is read; on success every reply reported no error; a reply
      reporting errors, or failing, ends the loop right after its request
      with that error. The conjunction of UploadLoopRequests and
      UploadLoopErrorEnds. */
  lemma UploadLoopReplies(env: Env, t: seq<Event>, bulk: seq<Row>, dataset: Option<Dataset>)
    ensures var (out, t') := UploadLoop(env, t, bulk, dataset);
            && (forall i | |t| <= i < |t'| ::
                  t'[i].Checkpoint? || (t'[i].Upload? && dataset.Some? && t'[i].datasetId == dataset.value.id))
            && (out == Completed ==> forall i | |t| <= i < |t'| && t'[i].Upload? :: env.bulk(i) == Ok(0))
            && (out.Failed? && out.error.InsertFailed? ==>
                  |t'| > |t| && t'[|t'| - 1].Upload? && env.bulk(|t'| - 1) == Ok(out.error.nbErrors))
            && (out.Failed? ==> out.error.InsertFailed? || out.error.HttpError? || (out.error == NoDataset && dataset.None?))
            && (forall i | |t| <= i < |t'| && t'[i].Upload? && env.bulk(i) != Ok(0) ::
                  i == |t'| - 1
                  && out == Failed(if env.bulk(i).Ok? then InsertFailed(env.bulk(i).data) else HttpError(env.bulk(i).status)))
  {
    UploadLoopRequests(env, t, bulk, dataset);
    UploadLoopErrorEnds(env, t, bulk, dataset);
  }

  lemma {:induction false} UploadLoopExtends(env: Env, t: seq<Event>, bulk: seq<Row>, dataset: Option<Dataset>)
    ensures Extends(t, UploadLoop(env, t, bulk, dataset).1)
    decreases |bulk|
  {
    if bulk != [] && !env.stop(|t|) && dataset.Some? {
      var t1 := t + [Event.Checkpoint(false)];
      var n := Min(ChunkSize, |bulk|);
      var t2 := t1 + [Upload(dataset.value.id, bulk[..n])];
      if env.bulk(|t1|) == Ok(0) {
        UploadLoopExtends(env, t2, bulk[n..], dataset);
        ExtendsTrans(t, t2, UploadLoop(env, t2, bulk[n..], dataset).1);
      }
    }
  }

  /** The date loop does what Gather describes: when every date is
      processed, `coords` holds the features of all of them absorbed in date
      order; when it fails, it fails with Gather's error. */
  lemma {:induction false} DateLoopGathers(env: Env, files: map<string, Archive>, t: seq<Event>, dep: string,
                                           dates: seq<string>, coords: Coords)
    ensures var p := DateLoop(env, files, t, dep, dates, coords);
            var g := Gather(files, env.archive, dep, dates);
            && (p.out == Completed ==> g.Gathered? && p.coords == Absorb(coords, g.features))
            && (p.out.Failed? ==> g.GatherFailed? && p.out.error == g.error)
    decreases |dates|
  {
    if dates != [] && !env.stop(|t|) {
      var t1 := t + [Event.Checkpoint(false)];
      var t2 := if ArchivePath(dates[0], dep) in files then t1 else t1 + [Download(dates[0], dep)];
      var (fetched, files') := FetchStep(files, dates[0], dep, env.archive(dates[0], dep));
      if fetched.NoFile? {
        DateLoopGathers(env, files', t2, dep, dates[1..], coords);
      } else if fetched.File? && files'[fetched.path].Parsed? {
        var fs := files'[fetched.path].features;
        DateLoopGathers(env, files', t2, dep, dates[1..], Absorb(coords, fs));
        var g' := Gather(files', env.archive, dep, dates[1..]);
        if g'.Gathered? {
          AbsorbConcat(coords, fs, g'.features);
        }
      }
    }
  }

  /** A date whose archive is not published (a 404) leaves `coords` as it
      was: after its checkpoint and its download, the loop goes on with the
      next date. */
  lemma DateLoopSkipsMissing(env: Env, files: map<string, Archive>, t: seq<Event>, dep: string,
                             dates: seq<string>, coords: Coords)
    requires dates != [] && !env.stop(|t|)
    requires ArchivePath(dates[0], dep) !in files
    requires env.archive(dates[0], dep) == Fail(NotFoundStatus)
    ensures DateLoop(env, files, t, dep, dates, coords)
              == DateLoop(env, files, t + [Event.Checkpoint(false), Download(dates[0], dep)], dep, dates[1..], coords)
  {
    assert t + [Event.Checkpoint(false)] + [Download(dates[0], dep)]
        == t + [Event.Checkpoint(false), Download(dates[0], dep)];
  }

  /** The date loop sends no line, and stops right at the first checkpoint
      that finds the flag set. */
  lemma {:induction false} DateLoopStops(env: Env, files: map<string, Archive>, t: seq<Event>, dep: string,
                                         dates: seq<string>, coords: Coords)
    requires NoStopSeen(t)
    ensures var p := DateLoop(env, files, t, dep, dates, coords);
            && Uploads(p.trace) == Uploads(t)
            && (p.out == Interrupted ==> EndsAtStop(p.trace))
            && (p.out != Interrupted ==> NoStopSeen(p.trace))
    decreases |dates|
  {
    if dates != [] {
      var stopped := env.stop(|t|);
      var t1 := t + [Event.Checkpoint(stopped)];
      StopStep(t, stopped);
      UploadsAppend(t, Event.Checkpoint(stopped));
      if !stopped {
        var e := Download(dates[0], dep);
        var t2 := if ArchivePath(dates[0], dep) in files then t1 else t1 + [e];
        if ArchivePath(dates[0], dep) !in files {
          UploadsAppend(t1, e);
          NoStopAppend(t1, e);
        }
        var (fetched, files') := FetchStep(files, dates[0], dep, env.archive(dates[0], dep));
        if fetched.NoFile? || (fetched.File? && files'[fetched.path].Parsed?) {
          var next := if fetched.File? then Absorb(coords, files'[fetched.path].features) else coords;
          DateLoopStops(env, files', t2, dep, dates[1..], next);
        }
      }
    }
  }

  /** The date loop asks only for archives of its department and dates, and
      never loses a file of the scratch directory. */
  lemma {:induction false} DateLoopDownloads(env: Env, files: map<string, Archive>, t: seq<Event>, dep: string,
                                             dates: seq<string>, coords: Coords)
    ensures forall i | |t| <= i < |DateLoop(env, files, t, dep, dates, coords).trace|
                         && DateLoop(env, files, t, dep, dates, coords).trace[i].Download? ::
              && DateLoop(env, files, t, dep, dates, coords).trace[i].dep == dep
              && DateLoop(env, files, t, dep, dates, coords).trace[i].date in dates
    ensures forall q | q in files ::
              q in DateLoop(env, files, t, dep, dates, coords).files
              && DateLoop(env, files, t, dep, dates, coords).files[q] == files[q]
    decreases |dates|
  {
    if dates != [] && !env.stop(|t|) {
      var e := Download(dates[0], dep);
      var t1 := t + [Event.Checkpoint(false)];
      var t2 := if ArchivePath(dates[0], dep) in files then t1 else t1 + [e];
      var (fetched, files') := FetchStep(files, dates[0], dep, env.archive(dates[0], dep));
      if fetched.NoFile? || (fetched.File? && files'[fetched.path].Parsed?) {
        var next := if fetched.File? then Absorb(coords, files'[fetched.path].features) else coords;
        DateLoopDownloads(env, files', t2, dep, dates[1..], next);
        DateLoopExtends(env, files', t2, dep, dates[1..], next);
        var t' := DateLoop(env, files', t2, dep, dates[1..], next).trace;
        assert forall i | |t| <= i < |t2| :: t'[i] == t2[i];
        assert forall d | d in dates[1..] :: d in dates;
      }
    }
  }

  lemma {:induction false} DateLoopExtends(env: Env, files: map<string, Archive>, t: seq<Event>, dep: string,
                                           dates: seq<string>, coords: Coords)
    ensures Extends(t, DateLoop(env, files, t, dep, dates, coords).trace)
    decreases |dates|
  {
    if dates != [] && !env.stop(|t|) {
      var t1 := t + [Event.Checkpoint(false)];
      var t2 := if ArchivePath(dates[0], dep) in files then t1 else t1 + [Download(dates[0], dep)];
      assert t2[..|t|] == t;
      var (fetched, files') := FetchStep(files, dates[0], dep, env.archive(dates[0], dep));
      if fetched.NoFile? || (fetched.File? && files'[fetched.path].Parsed?) {
        var next := if fetched.File? then Absorb(coords, files'[fetched.path].features) else coords;
        DateLoopExtends(env, files', t2, dep, dates[1..], next);
        ExtendsTrans(t, t2, DateLoop(env, files', t2, dep, dates[1..], next).trace);
      }
    }
  }

  /** Where one department leaves the run: how it ended, the scratch
      directory, the trace and the resume state. */
  datatype DepartmentRun = DepartmentRun(out: Outcome, files: map<string, Archive>, trace: seq<Event>,
                                         resume: map<string, string>)

  /** One iteration of `for (const dep of processingConfig.deps)`: the
      pending dates' archives aggregated, the bulk uploaded, and the resume
      entry written when both went through. */
  function Department(env: Env, files: map<string, Archive>, t: seq<Event>, resume: map<string, string>,
                      dep: string, dates: seq<string>, dataset: Option<Dataset>): DepartmentRun
  {
    var p := DateLoop(env, files, t, dep, PendingDates(dates, Stored(resume, dep)), NoCoords);
    if p.out != Completed then DepartmentRun(p.out, p.files, p.trace, resume)
    else
      var (out, t') := UploadLoop(env, p.trace, BulkRows(p.coords), dataset);
      DepartmentRun(out, p.files, t', if out == Completed then Commit(resume, dep, dates) else resume)
  }

  /** A department only adds to the trace, stops right at the first
      checkpoint that finds the flag set, and never loses a file of the
      scratch directory. */
  lemma DepartmentStops(env: Env, files: map<string, Archive>, t: seq<Event>, resume: map<string, string>,
                        dep: string, dates: seq<string>, dataset: Option<Dataset>)
    requires NoStopSeen(t)
    ensures var d := Department(env, files, t, resume, dep, dates, dataset);
            && Extends(t, d.trace)
            && (d.out == Interrupted ==> EndsAtStop(d.trace))
            && (d.out != Interrupted ==> NoStopSeen(d.trace))
            && (forall q | q in files :: q in d.files && d.files[q] == files[q])
  {
    var depDates := PendingDates(dates, Stored(resume, dep));
    DateLoopStops(env, files, t, dep, depDates, NoCoords);
    DateLoopDownloads(env, files, t, dep, depDates, NoCoords);
    DateLoopExtends(env, files, t, dep, depDates, NoCoords);
    var p := DateLoop(env, files, t, dep, depDates, NoCoords);
    if p.out == Completed {
      var rows := BulkRows(p.coords);
      UploadLoopStops(env, p.trace, rows, dataset);
      UploadLoopExtends(env, p.trace, rows, dataset);
      ExtendsTrans(t, p.trace, UploadLoop(env, p.trace, rows, dataset).1);
    }
  }

  /** A department asks only for the archives of its pending dates. */
  lemma DepartmentDownloads(env: Env, files: map<string, Archive>, t: seq<Event>, resume: map<string, string>,
                            dep: string, dates: seq<string>, dataset: Option<Dataset>)
    ensures var d := Department(env, files, t, resume, dep, dates, dataset);
            forall i | |t| <= i < |d.trace| && d.trace[i].Download? ::
              d.trace[i].dep == dep && d.trace[i].date in PendingDates(dates, Stored(resume, dep))
  {
    var depDates := PendingDates(dates, Stored(resume, dep));
    DateLoopDownloads(env, files, t, dep, depDates, NoCoords);
    DateLoopExtends(env, files, t, dep, depDates, NoCoords);
    var p := DateLoop(env, files, t, dep, depDates, NoCoords);
    if p.out == Completed {
      var rows := BulkRows(p.coords);
      UploadLoopReplies(env, p.trace, rows, dataset);
      UploadLoopExtends(env, p.trace, rows, dataset);
      var t' := UploadLoop(env, p.trace, rows, dataset).1;
      assert Department(env, files, t, resume, dep, dates, dataset).trace == t';
      forall i | |t| <= i < |t'| && t'[i].Download?
        ensures t'[i].dep == dep && t'[i].date in depDates
      {
        assert i < |p.trace| && t'[i] == p.trace[i];
      }
    }
  }

  /** A department only adds to the trace, stops right at the first
      checkpoint that finds the flag set, asks only for the archives of its
      pending dates, and never loses a file of the scratch directory. */
  lemma DepartmentTrace(env: Env, files: map<string, Archive>, t: seq<Event>, resume: map<string, string>,
                        dep: string, dates: seq<string>, dataset: Option<Dataset>)
    requires NoStopSeen(t)
    ensures var d := Department(env, files, t, resume, dep, dates, dataset);
            && Extends(t, d.trace)
            && (d.out == Interrupted ==> EndsAtStop(d.trace))
            && (d.out != Interrupted ==> NoStopSeen(d.trace))
            && (forall q | q in files :: q in d.files && d.files[q] == files[q])
            && (forall i | |t| <= i < |d.trace| && d.trace[i].Download? ::
                  d.trace[i].dep == dep && d.trace[i].date in PendingDates(dates, Stored(resume, dep)))
  {
    DepartmentStops(env, files, t, resume, dep, dates, dataset);
    DepartmentDownloads(env, files, t, resume, dep, dates, dataset);
  }

  /** What a department achieves: on success, the lines sent are the chunks
      of the aggregate of all its pending dates' features in date order, and
      its resume entry moves to the last date of the index; otherwise the
      resume state is untouched and the error is the first archive's error,
      or one of the upload's. */
  lemma DepartmentResult(env: Env, files: map<string, Archive>, t: seq<Event>, resume: map<string, string>,
                         dep: string, dates: seq<string>, dataset: Option<Dataset>)
    requires NoStopSeen(t)
    ensures var d := Department(env, files, t, resume, dep, dates, dataset);
            var g := Gather(files, env.archive, dep, PendingDates(dates, Stored(resume, dep)));
            && (d.out == Completed ==> d.resume == Commit(resume, dep, dates))
            && (d.out != Completed ==> d.resume == resume)
            && (d.out == Completed ==>
                  g.Gathered? && Uploads(d.trace) == Uploads(t) + Chunks(BulkRows(Absorb(NoCoords, g.features))))
            && (d.out.Failed? ==>
                  if g.GatherFailed? then d.out.error == g.error
                  else d.out.error.InsertFailed? || d.out.error.HttpError? || d.out.error == NoDataset)
  {
    var depDates := PendingDates(dates, Stored(resume, dep));
    DateLoopStops(env, files, t, dep, depDates, NoCoords);
    DateLoopGathers(env, files, t, dep, depDates, NoCoords);
    var p := DateLoop(env, files, t, dep, depDates, NoCoords);
    if p.out == Completed {
      UploadLoopSpec(env, p.trace, BulkRows(p.coords), dataset);
      UploadLoopReplies(env, p.trace, BulkRows(p.coords), dataset);
    }
  }

  /** A stop requested before a department with pending dates: no request
      is made for it at all. */
  lemma DepartmentStoppedEarly(env: Env, files: map<string, Archive>, t: seq<Event>, resume: map<string, string>,
                               dep: string, dates: seq<string>, dataset: Option<Dataset>)
    requires PendingDates(dates, Stored(resume, dep)) != [] && env.stop(|t|)
    ensures Department(env, files, t, resume, dep, dates, dataset)
              == DepartmentRun(Interrupted, files, t + [Event.Checkpoint(true)], resume)
  {
  }

  /** Committing a department, then a list: the same as committing the
      longer list. */
  lemma {:induction false} CommitAllCons(resume: map<string, string>, dep: string, deps: seq<string>, dates: seq<string>)
    ensures CommitAll(Commit(resume, dep, dates), deps, dates) == CommitAll(resume, [dep] + deps, dates)
    decreases |deps|
  {
    if deps == [] {
      assert ([dep] + deps)[..0] == [];
    } else {
      CommitAllCons(resume, dep, deps[..|deps| - 1], dates);
      assert ([dep] + deps)[..|deps|] == [dep] + deps[..|deps| - 1];
    }
  }

  lemma PrefixCons(deps: seq<string>, n: nat)
    requires n < |deps|
    ensures [deps[0]] + deps[1..][..n] == deps[..n + 1]
  {
  }

  /** `for (const dep of processingConfig.deps)`: the departments in turn,
      until one does not complete. */
  function Departments(env: Env, files: map<string, Archive>, t: seq<Event>, resume: map<string, string>,
                       deps: seq<string>, dates: seq<string>, dataset: Option<Dataset>): DepartmentRun
    decreases |deps|
  {
    if deps == [] then DepartmentRun(Completed, files, t, resume)
    else
      var d := Department(env, files, t, resume, deps[0], dates, dataset);
      if d.out != Completed then d
      else Departments(env, d.files, d.trace, d.resume, deps[1..], dates, dataset)
  }

  /** How many departments of the list completed before the run ended. */
  function DepartmentsDone(env: Env, files: map<string, Archive>, t: seq<Event>, resume: map<string, string>,
                           deps: seq<string>, dates: seq<string>, dataset: Option<Dataset>): (n: nat)
    ensures n <= |deps|
    decreases |deps|
  {
    if deps == [] then 0
    else
      var d := Department(env, files, t, resume, deps[0], dates, dataset);
      if d.out != Completed then 0
      else 1 + DepartmentsDone(env, d.files, d.trace, d.resume, deps[1..], dates, dataset)
  }

  /** A department writes its resume entry when it completes, and only then. */
  lemma DepartmentCommits(env: Env, files: map<string, Archive>, t: seq<Event>, resume: map<string, string>,
                          dep: string, dates: seq<string>, dataset: Option<Dataset>)
    ensures var d := Department(env, files, t, resume, dep, dates, dataset);
            d.resume == if d.out == Completed then Commit(resume, dep, dates) else resume
  {
  }

  /** The run over the departments completes iff every department did. */
  lemma {:induction false} DepartmentsOutcome(env: Env, files: map<string, Archive>, t: seq<Event>,
                                              resume: map<string, string>, deps: seq<string>,
                                              dates: seq<string>, dataset: Option<Dataset>)
    ensures (Departments(env, files, t, resume, deps, dates, dataset).out == Completed)
            == (DepartmentsDone(env, files, t, resume, deps, dates, dataset) == |deps|)
    decreases |deps|
  {
    if deps != [] {
      var d := Department(env, files, t, resume, deps[0], dates, dataset);
      if d.out == Completed {
        DepartmentsOutcome(env, d.files, d.trace, d.resume, deps[1..], dates, dataset);
      }
    }
  }

  /** The departments that completed are committed in list order, and no
      other. */
  lemma {:induction false} DepartmentsResume(env: Env, files: map<string, Archive>, t: seq<Event>,
                                             resume: map<string, string>, deps: seq<string>,
                                             dates: seq<string>, dataset: Option<Dataset>)
    ensures Departments(env, files, t, resume, deps, dates, dataset).resume
            == CommitAll(resume, deps[..DepartmentsDone(env, files, t, resume, deps, dates, dataset)], dates)
    decreases |deps|
  {
    if deps == [] {
      assert deps[..0] == [];
    } else {
      var d := Department(env, files, t, resume, deps[0], dates, dataset);
      DepartmentCommits(env, files, t, resume, deps[0], dates, dataset);
      if d.out != Completed {
        assert deps[..0] == [];
      } else {
        DepartmentsResume(env, d.files, d.trace, d.resume, deps[1..], dates, dataset);
        var r' := Departments(env, d.files, d.trace, d.resume, deps[1..], dates, dataset);
        var n' := DepartmentsDone(env, d.files, d.trace, d.resume, deps[1..], dates, dataset);
        assert Departments(env, files, t, resume, deps, dates, dataset) == r';
        assert DepartmentsDone(env, files, t, resume, deps, dates, dataset) == n' + 1;
        var done := deps[1..][..n'];
        assert r'.resume == CommitAll(Commit(resume, deps[0], dates), done, dates);
        CommitAllCons(resume, deps[0], done, dates);
        PrefixCons(deps, n');
      }
    }
  }

  /** The departments that completed are committed in list order, and no
      other: the one that failed or was stopped, and those after it, keep
      their entries. The run completes iff every department did. */
  lemma {:induction false} DepartmentsCommit(env: Env, files: map<string, Archive>, t: seq<Event>,
                                             resume: map<string, string>, deps: seq<string>,
                                             dates: seq<string>, dataset: Option<Dataset>)
    ensures var r := Departments(env, files, t, resume, deps, dates, dataset);
            var n := DepartmentsDone(env, files, t, resume, deps, dates, dataset);
            && (r.out == Completed <==> n == |deps|)
            && r.resume == CommitAll(resume, deps[..n], dates)
  {
    DepartmentsOutcome(env, files, t, resume, deps, dates, dataset);
    DepartmentsResume(env, files, t, resume, deps, dates, dataset);
  }

  /** The departments only extend the trace, honour the stop flag and keep
      every file of the scratch directory. */
  lemma {:induction false} DepartmentsTrace(env: Env, files: map<string, Archive>, t: seq<Event>,
                                            resume: map<string, string>, deps: seq<string>,
                                            dates: seq<string>, dataset: Option<Dataset>)
    requires NoStopSeen(t)
    ensures var r := Departments(env, files, t, resume, deps, dates, dataset);
            && Extends(t, r.trace)
            && (r.out == Interrupted ==> EndsAtStop(r.trace))
            && (r.out != Interrupted ==> NoStopSeen(r.trace))
            && (forall q | q in files :: q in r.files && r.files[q] == files[q])
    decreases |deps|
  {
    if deps != [] {
      var d := Department(env, files, t, resume, deps[0], dates, dataset);
      DepartmentTrace(env, files, t, resume, deps[0], dates, dataset);
      if d.out == Completed {
        DepartmentsTrace(env, d.files, d.trace, d.resume, deps[1..], dates, dataset);
        ExtendsTrans(t, d.trace, Departments(env, d.files, d.trace, d.resume, deps[1..], dates, dataset).trace);
      }
    }
  }

  /** The configuration as the dataset step leaves it: patched on a
      successful create, unchanged otherwise. */
  function SetupConfig(cfg: Config, r: Result<Setup>): Config
  {
    match r
    case Success(Setup(_, Some(d))) => ApplyPatch(cfg, d)
    case _ => cfg
  }

  /** `exports.run`: the dataset step, the index, then the departments. */
  function RunAll(env: Env, cfg: Config, files: map<string, Archive>, t: seq<Event>, resume: map<string, string>)
    : (Config, DepartmentRun)
  {
    var setup := EnsureDataset(cfg, env.replies);
    if setup.Failure? then (cfg, DepartmentRun(Failed(setup.error), files, t, resume))
    else if env.index.Fail? then
      (SetupConfig(cfg, setup), DepartmentRun(Failed(HttpError(env.index.status)), files, t, resume))
    else
      (SetupConfig(cfg, setup),
       Departments(env, files, t, resume, cfg.deps, DiscoverDates(env.index.data), setup.value.dataset))
  }

  /** What a run achieves. A failed dataset step or index request stops it
      before any archive or bulk request and any commit. The configuration is
      patched exactly on a create. The trace honours the stop flag and the
      scratch directory keeps every file. The departments that completed
      are committed in list order and no other; on completion all of them. */
  lemma RunAllSpec(env: Env, cfg: Config, files: map<string, Archive>, t: seq<Event>, resume: map<string, string>)
    requires NoStopSeen(t)
    ensures var (cfg', r) := RunAll(env, cfg, files, t, resume);
            var setup := EnsureDataset(cfg, env.replies);
            && (setup.Failure? ==> cfg' == cfg && r == DepartmentRun(Failed(setup.error), files, t, resume))
            && (setup.Success? && env.index.Fail? ==>
                  r == DepartmentRun(Failed(HttpError(env.index.status)), files, t, resume))
            && cfg' == SetupConfig(cfg, setup)
            && Extends(t, r.trace)
            && (r.out == Interrupted ==> EndsAtStop(r.trace))
            && (r.out != Interrupted ==> NoStopSeen(r.trace))
            && (forall q | q in files :: q in r.files && r.files[q] == files[q])
            && (forall k | k !in cfg.deps :: Stored(r.resume, k) == Stored(resume, k))
            && (setup.Success? && env.index.Ok? ==>
                  var n := DepartmentsDone(env, files, t, resume, cfg.deps, DatesOf(env.index), setup.value.dataset);
                  && r.resume == CommitAll(resume, cfg.deps[..n], DatesOf(env.index))
                  && (r.out == Completed <==> n == |cfg.deps|))
            && (r.out == Completed ==> r.resume == CommitAll(resume, cfg.deps, DatesOf(env.index)))
  {
    NotListedUnchanged(resume, cfg.deps, DatesOf(env.index));
    var setup := EnsureDataset(cfg, env.replies);
    if setup.Success? && env.index.Ok? {
      var dates := DiscoverDates(env.index.data);
      DepartmentsCommit(env, files, t, resume, cfg.deps, dates, setup.value.dataset);
      assert cfg.deps[..|cfg.deps|] == cfg.deps;
      DepartmentsTrace(env, files, t, resume, cfg.deps, dates, setup.value.dataset);
    }
  }

  /** The dates the run works with: those of the index, if it was fetched. */
  function DatesOf(index: Reply<string>): seq<string>
  {
    if index.Ok? then DiscoverDates(index.data) else []
  }

  lemma NotListedUnchanged(resume: map<string, string>, deps: seq<string>, dates: seq<string>)
    ensures forall n, k | 0 <= n <= |deps| && k !in deps ::
              Stored(CommitAll(resume, deps[..n], dates), k) == Stored(resume, k)
  {
    forall n, k | 0 <= n <= |deps| && k !in deps
      ensures Stored(CommitAll(resume, deps[..n], dates), k) == Stored(resume, k)
    {
      CommitAllSpec(resume, deps[..n], dates, k);
    }
  }

  /** When the stop flag is never set, the date loop completes iff every
      pending date's archive is skipped or decodes: it fails exactly when
      Gather does. */
  lemma {:induction false} DateLoopCompletes(env: Env, files: map<string, Archive>, t: seq<Event>, dep: string,
                                             dates: seq<string>, coords: Coords)
    requires forall n: nat :: !env.stop(n)
    ensures (DateLoop(env, files, t, dep, dates, coords).out == Completed)
            == Gather(files, env.archive, dep, dates).Gathered?
    decreases |dates|
  {
    if dates != [] {
      assert !env.stop(|t|);
      var t1 := t + [Event.Checkpoint(false)];
      var t2 := if ArchivePath(dates[0], dep) in files then t1 else t1 + [Download(dates[0], dep)];
      var (fetched, files') := FetchStep(files, dates[0], dep, env.archive(dates[0], dep));
      if fetched.NoFile? {
        DateLoopCompletes(env, files', t2, dep, dates[1..], coords);
      } else if fetched.File? && files'[fetched.path].Parsed? {
        DateLoopCompletes(env, files', t2, dep, dates[1..], Absorb(coords, files'[fetched.path].features));
      }
    }
  }

  /** When the stop flag is never set, a dataset was set up and every reply
      reports no error, the whole bulk goes out. */
  lemma {:induction false} UploadLoopCompletes(env: Env, t: seq<Event>, bulk: seq<Row>, ds: Dataset)
    requires forall n: nat :: !env.stop(n)
    requires forall n: nat :: env.bulk(n) == Ok(0)
    ensures UploadLoop(env, t, bulk, Some(ds)).0 == Completed
    decreases |bulk|
  {
    if bulk != [] {
      var t1 := t + [Event.Checkpoint(false)];
      assert !env.stop(|t|) && env.bulk(|t1|) == Ok(0);
      var n := Min(ChunkSize, |bulk|);
      UploadLoopCompletes(env, t1 + [Upload(ds.id, bulk[..n])], bulk[n..], ds);
    }
  }

  /** Without a stop, with a dataset and error-free replies, a department
      completes exactly when its pending dates' archives can be gathered. */
  lemma DepartmentCompletes(env: Env, files: map<string, Archive>, t: seq<Event>, resume: map<string, string>,
                            dep: string, dates: seq<string>, ds: Dataset)
    requires forall n: nat :: !env.stop(n)
    requires forall n: nat :: env.bulk(n) == Ok(0)
    ensures (Department(env, files, t, resume, dep, dates, Some(ds)).out == Completed)
            == Gather(files, env.archive, dep, PendingDates(dates, Stored(resume, dep))).Gathered?
  {
    var depDates := PendingDates(dates, Stored(resume, dep));
    DateLoopCompletes(env, files, t, dep, depDates, NoCoords);
    var p := DateLoop(env, files, t, dep, depDates, NoCoords);
    if p.out == Completed {
      UploadLoopCompletes(env, p.trace, BulkRows(p.coords), ds);
    }
  }

  /** The department-level case of one parcel published at two dates, with
      nothing stored and nothing in the scratch directory: the department
      completes, sends one line carrying the later coordinates, and records
      the later date. */
  lemma DepartmentTwoPublications(env: Env, t: seq<Event>, resume: map<string, string>, dep: string,
                                  d1: string, d2: string, code: string, early: Point, late: Point, ds: Dataset)
    requires NoStopSeen(t)
    requires Lt(d1, d2) && dep !in resume
    requires env.archive(d1, dep) == Ok(Parsed([Feature(code, early)]))
    requires env.archive(d2, dep) == Ok(Parsed([Feature(code, late)]))
    requires forall n: nat :: !env.stop(n)
    requires forall n: nat :: env.bulk(n) == Ok(0)
    ensures var d := Department(env, map[], t, resume, dep, [d1, d2], Some(ds));
            && d.out == Completed
            && Uploads(d.trace) == Uploads(t) + [[Row(code, code, CoordOf(late))]]
            && d.resume == resume[dep := d2]
  {
    var dates := [d1, d2];
    assert PendingDates(dates, Stored(resume, dep)) == dates;
    var fe, fl := Feature(code, early), Feature(code, late);
    assert Gather(map[], env.archive, dep, dates) == Gathered([fe, fl]) by {
      assert ArchivePath(d1, dep) != ArchivePath(d2, dep) by {
        if ArchivePath(d1, dep) == ArchivePath(d2, dep) {
          ArchivePathInjective(d1, d2, dep);
          LtIrreflexive(d1);
        }
      }
      var files1 := map[ArchivePath(d1, dep) := Parsed([fe])];
      assert dates[1..] == [d2] && [d2][1..] == [];
      assert Gather(files1, env.archive, dep, [d2]) == Gathered([fl]);
      assert [fe] + [fl] == [fe, fl];
    }
    DepartmentCompletes(env, map[], t, resume, dep, dates, ds);
    DepartmentResult(env, map[], t, resume, dep, dates, Some(ds));
    TwoPublicationsOneLine(code, early, late);
    var row := Row(code, code, CoordOf(late));
    assert Chunks([row]) == [[row]] by {
      assert [row][..1] == [row] && [row][1..] == [];
    }
  }

  // ---------------------------------------------------------------------------
  // The run
  // ---------------------------------------------------------------------------

  class Processing {
    var config: Config                // `processingConfig`, as `patchConfig` leaves it
    var files: map<string, Archive>   // the scratch directory `tmpDir`
    var resume: map<string, string>   // `last-processed-dates.json`
    var trace: seq<Event>             // the requests and checkpoints of the run

    constructor (config: Config, files: map<string, Archive>, resume: map<string, string>)
      ensures this.config == config && this.files == files && this.resume == resume
      ensures trace == []
    {
      this.config := config;
      this.files := files;
      this.resume := resume;
      trace := [];
    }

    /** `if (_stopped) return`: reads the flag and records the reading. */
    method Checkpoint(env: Env) returns (stopped: bool)
      modifies this
      ensures stopped == env.stop(|old(trace)|)
      ensures trace == old(trace) + [Event.Checkpoint(stopped)]
      ensures config == old(config) && files == old(files) && resume == old(resume)
    {
      stopped := env.stop(|trace|);
      trace := trace + [Event.Checkpoint(stopped)];
    }

    /** `fetch(axios, log, date, dep, tmpDir)`. */
    method Fetch(env: Env, date: string, dep: string) returns (r: Fetched)
      modifies this
      ensures (r, files) == FetchStep(old(files), date, dep, env.archive(date, dep))
      ensures trace == if ArchivePath(date, dep) in old(files) then old(trace) else old(trace) + [Download(date, dep)]
      ensures config == old(config) && resume == old(resume)
    {
      var path := ArchivePath(date, dep);
      if path in files {
        return File(path);
      }
      files := files[path := Placeholder];
      trace := trace + [Download(date, dep)];
      match env.archive(date, dep)
      case Ok(archive) =>
        files := files[path := archive];
        r := File(path);
      case Fail(status) =>
        if status == NotFoundStatus {
          files := files - {path};
          r := NoFile;
        } else {
          r := FetchError(status);
        }
    }

    /** The loop over a department's pending dates, building `coords`. */
    method ProcessDates(env: Env, dep: string, dates: seq<string>) returns (out: Outcome, coords: Coords)
      modifies this
      ensures Progress(out, files, trace, coords) == DateLoop(env, old(files), old(trace), dep, dates, NoCoords)
      ensures WellFormed(coords)
      ensures config == old(config) && resume == old(resume)
    {
      coords := NoCoords;
      for k := 0 to |dates|
        invariant config == old(config) && resume == old(resume)
        invariant WellFormed(coords)
        invariant DateLoop(env, old(files), old(trace), dep, dates, NoCoords)
                  == DateLoop(env, files, trace, dep, dates[k..], coords)
      {
        assert dates[k..][0] == dates[k] && dates[k..][1..] == dates[k + 1..];
        var stopped := Checkpoint(env);
        if stopped {
          return Interrupted, coords;
        }
        var fetched := Fetch(env, dates[k], dep);
        match fetched
        case NoFile =>
        case FetchError(status) =>
          return Failed(HttpError(status)), coords;
        case File(path) =>
          match files[path]
          case Corrupt =>
            return Failed(CorruptArchive(path)), coords;
          case Parsed(fs) =>
            coords := AbsorbArchive(coords, fs);
      }
      assert dates[|dates|..] == [];
      out := Completed;
    }

    /** `while (bulk.length) { ... bulk.splice(0, 1000) ... }`: the bulk is
        drained chunk by chunk, each chunk one request, after a checkpoint. */
    method UploadBulk(env: Env, rows: seq<Row>, dataset: Option<Dataset>) returns (out: Outcome)
      modifies this
      ensures (out, trace) == UploadLoop(env, old(trace), rows, dataset)
      ensures config == old(config) && files == old(files) && resume == old(resume)
    {
      var bulk := rows;
      while |bulk| > 0
        invariant config == old(config) && files == old(files) && resume == old(resume)
        invariant UploadLoop(env, old(trace), rows, dataset) == UploadLoop(env, trace, bulk, dataset)
        decreases |bulk|
      {
        var stopped := Checkpoint(env);
        if stopped {
          return Interrupted;
        }
        if dataset.None? {
          return Failed(NoDataset);
        }
        var lines := bulk[..Min(ChunkSize, |bulk|)];
        bulk := bulk[|lines|..];
        var reply := env.bulk(|trace|);
        trace := trace + [Upload(dataset.value.id, lines)];
        match reply
        case Fail(status) =>
          return Failed(HttpError(status));
        case Ok(nbErrors) =>
          if nbErrors > 0 {
            return Failed(InsertFailed(nbErrors));
          }
      }
      out := Completed;
    }

    /** One iteration of `for (const dep of processingConfig.deps)`. */
    method ProcessDepartment(env: Env, dep: string, dates: seq<string>, dataset: Option<Dataset>)
      returns (out: Outcome)
      modifies this
      ensures DepartmentRun(out, files, trace, resume)
                == Department(env, old(files), old(trace), old(resume), dep, dates, dataset)
      ensures config == old(config)
    {
      var depDates := PendingDates(dates, Stored(resume, dep));
      var coords;
      out, coords := ProcessDates(env, dep, depDates);
      if out != Completed {
        return;
      }
      out := UploadBulk(env, BulkRows(coords), dataset);
      if out != Completed {
        return;
      }
      resume := Commit(resume, dep, dates);
    }

    /** `exports.run`. */
    method Run(env: Env) returns (out: Outcome)
      modifies this
      ensures (config, DepartmentRun(out, files, trace, resume))
                == RunAll(env, old(config), old(files), old(trace), old(resume))
    {
      var setup := EnsureDataset(config, env.replies);
      if setup.Failure? {
        return Failed(setup.error);
      }
      var deps := config.deps;
      config := SetupConfig(config, setup);
      if env.index.Fail? {
        return Failed(HttpError(env.index.status));
      }
      var dates := DiscoverDates(env.index.data);
      var dataset := setup.value.dataset;
      for i := 0 to |deps|
        invariant config == SetupConfig(old(config), setup)
        invariant Departments(env, old(files), old(trace), old(resume), deps, dates, dataset)
                  == Departments(env, files, trace, resume, deps[i..], dates, dataset)
      {
        assert deps[i..][0] == deps[i] && deps[i..][1..] == deps[i + 1..];
        out := ProcessDepartment(env, deps[i], dates, dataset);
        if out != Completed {
          return;
        }
      }
      assert deps[|deps|..] == [];
      out := Completed;
    }
  }
}
