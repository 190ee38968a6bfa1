/** Ensuring the target dataset exists before anything is uploaded
    (index.js lines 103-129). */
module DatasetSetup {
  import opened Common

  /** `processingConfig.datasetMode`: the two values the step acts on, and any other. */
  datatype Mode = Create | Update | OtherMode

  datatype Dataset = Dataset(id: string, title: string)

  /** `processingConfig.dataset`: the requested id, if any, and title. */
  datatype DatasetRef = DatasetRef(id: Option<string>, title: string)

  /** The part of `processingConfig` the run reads. */
  datatype Config = Config(mode: Mode, dataset: DatasetRef, deps: seq<string>)

  /** What the dataset API answers to each request this step can make; a
      body is None when it is null, or, for the GET, any falsy value. */
  datatype DatasetReplies = DatasetReplies(
    get: Reply<Option<Dataset>>,   // GET  api/v1/datasets/{id}
    put: Reply<Option<Dataset>>,   // PUT  api/v1/datasets/{id}
    post: Reply<Option<Dataset>>)  // POST api/v1/datasets

  /** The dataset later uploads go to (none when the mode is neither create
      nor update) and the dataset handed to `patchConfig`, if any. */
  datatype Setup = Setup(dataset: Option<Dataset>, patch: Option<Dataset>)

  /** A create or put reply: its body becomes the dataset and the patch; a
      null body fails when its id is read. */
  function Created(reply: Reply<Option<Dataset>>): Result<Setup>
  {
    match reply
    case Fail(status) => Failure(HttpError(status))
    case Ok(None) => Failure(EmptyBody)
    case Ok(Some(d)) => Success(Setup(Some(d), Some(d)))
  }

  function EnsureDataset(cfg: Config, replies: DatasetReplies): (r: Result<Setup>)
    // create with an explicit id: any reply to the existence check other than
    // a 404 aborts; a 404 is the one way on, to the put
    ensures cfg.mode == Create && Truthy(cfg.dataset.id) && replies.get.Ok? ==> r == Failure(DatasetExists)
    ensures (cfg.mode == Create && Truthy(cfg.dataset.id) && replies.get.Fail? && replies.get.status != NotFoundStatus)
              ==> r == Failure(HttpError(replies.get.status))
    ensures cfg.mode == Create ==>
              (r.Success? <==> if Truthy(cfg.dataset.id)
                               then replies.get == Fail(NotFoundStatus) && replies.put.Ok? && replies.put.data.Some?
                               else replies.post.Ok? && replies.post.data.Some?)
    // a successful create reports the created dataset for the config patch
    ensures cfg.mode == Create && r.Success? ==>
              && r.value.dataset.Some? && r.value.patch == r.value.dataset
              && r.value.dataset == (if Truthy(cfg.dataset.id) then replies.put.data else replies.post.data)
    // update: the dataset must be there, and nothing is patched
    ensures cfg.mode == Update ==> (r.Success? <==> replies.get.Ok? && replies.get.data.Some?)
    ensures cfg.mode == Update && replies.get == Ok(None) ==> r == Failure(DatasetMissing)
    ensures cfg.mode == Update && r.Success? ==> r.value == Setup(replies.get.data, None)
    // any other mode sets nothing up
    ensures cfg.mode == OtherMode ==> r == Success(Setup(None, None))
  {
    match cfg.mode
    case Create =>
      if Truthy(cfg.dataset.id) then
        (match replies.get
         case Ok(_) => Failure(DatasetExists)
         case Fail(status) => if status != NotFoundStatus then Failure(HttpError(status)) else Created(replies.put))
      else Created(replies.post)
    case Update =>
      (match replies.get
       case Fail(status) => Failure(HttpError(status))
       case Ok(None) => Failure(DatasetMissing)
       case Ok(Some(d)) => Success(Setup(Some(d), None)))
    case OtherMode => Success(Setup(None, None))
  }

  /** `patchConfig({ datasetMode: 'update', dataset: { id, title } })`, merged
      into the configuration as `Object.assign` does. */
  function ApplyPatch(cfg: Config, d: Dataset): (cfg': Config)
    ensures cfg'.mode == Update
    ensures cfg'.dataset == DatasetRef(Some(d.id), d.title)
    ensures cfg'.deps == cfg.deps
  {
    cfg.(mode := Update, dataset := DatasetRef(Some(d.id), d.title))
  }

  /** Once the patch is stored, the next run verifies the dataset it created
      instead of creating it again. */
  lemma NextRunVerifies(cfg: Config, replies: DatasetReplies, next: DatasetReplies)
    requires cfg.mode == Create
    requires EnsureDataset(cfg, replies).Success?
    requires next.get == Ok(EnsureDataset(cfg, replies).value.patch)
    ensures var d := EnsureDataset(cfg, replies).value.patch.value;
            EnsureDataset(ApplyPatch(cfg, d), next) == Success(Setup(Some(d), None))
  {
  }
}
