/**
 * The media service as a step machine over its shared stores.
 *
 * Every Redis command, cache call, S3 call and transaction callback of `upload`, `delete`, `share`,
 * `getMetadata`, `getBlob`, the quota alert and the daily reset is one atomic step of one request. Any number
 * of requests run at once and their steps interleave freely; clock ticks and key expiries happen at any time.
 * A request that stops moving stands for a crashed one, or for one ended by a command that threw.
 */
module Protocol {
  import opened Base
  import opened Paths
  import opened Quota
  import opened Acl
  import opened Admission
  import opened SignedUrls
  import Alerts

  const MAX_CONCURRENT_UPLOADS: int := 3
  const DAY_MS: int := 24 * 60 * 60 * 1000

  type ReqId = nat

  // ----- stores -----

  /** Bookkeeping of the model; no branch of the protocol reads it. */
  datatype History = History(recorded: bool, deletedBy: Option<ReqId>, released: bool)

  /** A row of the media table. Rows are soft-deleted and never removed. */
  datatype Media = Media(
    ownerId: UserId, context: Context,
    storagePath: Path, thumbnailPath: Option<Path>,
    contentType: string, blobSize: int,
    expiresAt: Option<int>, signedUrlExpiresAt: Option<int>,
    isActive: bool, sharedWith: Option<seq<UserId>>, createdAt: int,
    history: History)

  /** The dedup key; equal SHA-256 digests are taken to mean equal bytes. */
  datatype DedupKey = DedupKey(owner: UserId, context: Context, content: Bytes)

  datatype MetaDto = MetaDto(
    id: MediaId, ownerId: UserId, context: Context, contentType: string, blobSize: int,
    expiresAt: Option<int>, isActive: bool, createdAt: int, hasThumbnail: bool)

  datatype CachedMeta = CachedMeta(dto: MetaDto, sharedWith: Option<seq<UserId>>)

  /** Which request generated an object id, when, for which blob and which thumbnail (bookkeeping). */
  datatype Origin = Origin(rid: ReqId, at: int, content: Bytes, thumb: Option<Bytes>)

  /** Commits on the quota table (bookkeeping). */
  datatype Commit = UploadCommit(user: UserId) | ResetCommit(users: set<UserId>)

  datatype Config = Config(signedUrlExpirySeconds: nat, messageTtlDays: nat)

  predicate ValidConfig(c: Config) {
    1 <= c.signedUrlExpirySeconds
  }

  datatype World = World(
    now: int,
    config: Config,
    sem: map<UserId, int>,
    quota: map<UserId, QuotaRow>,
    quotaCache: map<UserId, QuotaEntry>,
    media: map<MediaId, Media>,
    objects: map<Path, Bytes>,
    dedup: map<DedupKey, MediaId>,
    meta: map<MediaId, CachedMeta>,
    issued: map<MediaId, Origin>,
    log: seq<Commit>,
    board: Alerts.Board)

  function Today(w: World): int {
    w.now / DAY_MS
  }

  /** A Redis counter that is absent counts from zero. */
  function Counter(w: World, u: UserId): int {
    if u in w.sem then w.sem[u] else 0
  }

  function ActiveRow(w: World, id: MediaId): Option<Media> {
    if id in w.media && w.media[id].isActive then Some(w.media[id]) else None
  }

  // ----- requests -----

  datatype UploadArgs = UploadArgs(
    owner: UserId, file: File, context: Context, thumb: Option<File>, sharedWith: seq<UserId>)

  datatype UploadError =
    | TooManyRequests
    | NotAuthorized
    | InvalidSize
    | QuotaExceeded(verdict: QuotaVerdict)
    | TooLarge
    | UnsupportedType
    | Unsafe
    | CommandFailed
    | SaveFailed(id: MediaId, cleaned: bool)

  datatype UploadResult = Uploaded(id: MediaId) | UploadFailed(error: UploadError)

  datatype UploadPc =
    | Arriving
    | Rejecting
    | Admitted
    | QuotaMiss
    | QuotaRead(row: QuotaRow)
    | Checked
    | DedupHit(id: MediaId)
    | MergeWrite(id: MediaId, next: seq<UserId>)
    | MergeUncache(id: MediaId)
    | Fresh
    | BlobPut(id: MediaId)
    | ReadyToSave(id: MediaId, expiresAt: Option<int>)
    | CleanBlob(id: MediaId)
    | CleanThumb(id: MediaId, cleaned: bool)
    | Saved(id: MediaId)
    | Indexed(id: MediaId)
    | Recorded(id: MediaId)
    | Releasing(result: UploadResult)
    | DroppingKey(result: UploadResult)
    | UploadDone(result: UploadResult)

  datatype DeleteResult = Deleted | DeleteNotFound | DeleteForbidden | DeleteThrew

  datatype DeletePc =
    | Finding
    | RemovingBlob(row: Media)
    | RemovingThumb(row: Media)
    | DroppingMeta(row: Media)
    | Refunding(row: Media)
    | Uncaching(row: Media)
    | DeleteDone(result: DeleteResult)

  datatype ShareResult = Shared(users: seq<UserId>) | ShareNotFound | ShareForbidden | ShareThrew

  datatype SharePc = Sharing | ShareUncache(next: seq<UserId>) | ShareDone(result: ShareResult)

  datatype MetaResult = Found(dto: MetaDto) | MetaNotFound | MetaDenied

  datatype MetaPc = MetaStart | MetaMiss | MetaLoaded(entry: CachedMeta) | MetaDone(result: MetaResult)

  datatype BlobResult = Granted(grant: UrlGrant) | BlobNotFound | BlobDenied

  datatype BlobPc = BlobStart | BlobDone(result: BlobResult)

  /** `since` is the moment the row was at hand (bookkeeping), `next` the threshold to look at. */
  datatype AlertPc =
    | AlertStart
    | AlertMiss
    | AlertRead(row: QuotaRow)
    | Alerting(row: QuotaRow, since: int, next: nat)
    | AlertDone(row: QuotaRow, since: int)

  datatype ResetPc = ResetStart | ResetUncache(users: set<UserId>)

  datatype Req =
    | Upload(args: UploadArgs, upc: UploadPc)
    | Delete(id: MediaId, requester: UserId, dpc: DeletePc)
    | Share(id: MediaId, requester: UserId, users: seq<UserId>, spc: SharePc)
    | GetMeta(id: MediaId, requester: UserId, mpc: MetaPc)
    | GetBlob(id: MediaId, requester: UserId, bpc: BlobPc)
    | Alert(user: UserId, apc: AlertPc)
    | Reset(rpc: ResetPc)

  /** What the environment decides for one step: whether a foreign call or command succeeds, whether a cache
      read answers, the UUID generated, and which user of a chunk is served next. */
  datatype Choice = Choice(ok: bool, hit: bool, id: MediaId, user: UserId)

  // ----- upload -----

  /** The checks from `enforceQuota` to the MIME allowlist, in the order of the code; None when all pass. */
  function AdmissionError(a: UploadArgs, q: QuotaRow): Option<UploadError> {
    if Verdict(q, a.file.size) != Allowed then Some(QuotaExceeded(Verdict(q, a.file.size))) else FileError(a)
  }

  function FileError(a: UploadArgs): Option<UploadError> {
    if a.file.size > SizeLimit(a.context) then Some(TooLarge)
    else if !MagicOk(a.file.content, a.file.mime) then Some(UnsupportedType)
    else if a.file.mime !in Allowlist(a.context) then Some(UnsupportedType)
    else None
  }

  function Decide(a: UploadArgs, q: QuotaRow): UploadPc {
    var error := AdmissionError(a, q);
    if error.None? then Checked else Releasing(UploadFailed(error.value))
  }

  function ThumbnailError(t: File): Option<UploadError> {
    if !MagicOk(t.content, t.mime) || t.mime !in IMAGE_TYPES then Some(UnsupportedType)
    else if t.size > THUMBNAIL_MAX_BYTES then Some(TooLarge)
    else None
  }

  function BlobContext(context: Context): StorageContext {
    match context
    case Avatar => Avatars
    case GroupIcon => GroupIcons
    case Message => Messages
  }

  function BlobPath(context: Context, owner: UserId, id: MediaId): Path
    requires IsUuid(owner) && IsUuid(id)
  {
    BuildPath(BlobContext(context), owner, id).value
  }

  function ThumbPath(owner: UserId, id: MediaId): Path
    requires IsUuid(owner) && IsUuid(id)
  {
    BuildPath(Thumbnails, owner, id).value
  }

  function KeyOf(a: UploadArgs): DedupKey {
    DedupKey(a.owner, a.context, a.file.content)
  }

  function RowOrFresh(w: World, u: UserId): QuotaRow {
    if u in w.quota then w.quota[u] else FreshRow(Today(w))
  }

  function InitialAcl(a: UploadArgs): Option<seq<UserId>> {
    var users := Union([], a.sharedWith, a.owner);
    if users == [] then None else Some(users)
  }

  function ThumbBytes(a: UploadArgs): Option<Bytes> {
    if a.thumb.Some? then Some(a.thumb.value.content) else None
  }

  function OriginOf(w: World, rid: ReqId, a: UploadArgs): Origin {
    Origin(rid, w.now, a.file.content, ThumbBytes(a))
  }

  /** `computeExpiresAt`, which only a message gets. */
  function ExpiryOf(w: World, a: UploadArgs): Option<int> {
    if a.context == Message then Some(w.now + w.config.messageTtlDays * DAY_MS) else None
  }

  predicate UuidsOk(a: UploadArgs, id: MediaId) {
    IsUuid(a.owner) && IsUuid(id)
  }

  /** The row as saved: the expiry was fixed when the row object was built, the creation time is that of the save. */
  function NewRow(w: World, a: UploadArgs, id: MediaId, expiresAt: Option<int>): Media
    requires UuidsOk(a, id)
  {
    Media(a.owner, a.context,
          BlobPath(a.context, a.owner, id),
          if a.thumb.Some? then Some(ThumbPath(a.owner, id)) else None,
          a.file.mime, a.file.size, expiresAt, None,
          true, InitialAcl(a), w.now,
          History(false, None, false))
  }

  function UploadStep(w: World, rid: ReqId, a: UploadArgs, pc: UploadPc, ch: Choice): (World, UploadPc) {
    var u := a.owner;
    match pc
    case Arriving => // INCR, then EXPIRE
      var count := Counter(w, u) + 1;
      (w.(sem := w.sem[u := count]), if count > MAX_CONCURRENT_UPLOADS then Rejecting else Admitted)
    case Rejecting => // DECR
      (w.(sem := w.sem[u := Counter(w, u) - 1]), UploadDone(UploadFailed(TooManyRequests)))
    case Admitted => // group authorisation, size validation, cache GET
      if a.context == GroupIcon && !ch.ok then (w, Releasing(UploadFailed(NotAuthorized)))
      else if !ValidBlobSize(a.file.size) then (w, Releasing(UploadFailed(InvalidSize)))
      else if u in w.quotaCache && ch.hit then (w, Decide(a, Rehydrate(w.quotaCache[u])))
      else (w, QuotaMiss)
    case QuotaMiss => // find-or-insert transaction
      if !ch.ok then (w, Releasing(UploadFailed(CommandFailed)))
      else (w.(quota := w.quota[u := RowOrFresh(w, u)]), QuotaRead(RowOrFresh(w, u)))
    case QuotaRead(row) => // cache SET, its failure swallowed
      (if ch.ok then w.(quotaCache := w.quotaCache[u := Dehydrate(row)]) else w, Decide(a, row))
    case Checked => // content safety, dedup GET
      if !ch.ok then (w, Releasing(UploadFailed(Unsafe)))
      else if KeyOf(a) in w.dedup && ch.hit then (w, DedupHit(w.dedup[KeyOf(a)]))
      else (w, Fresh)
    case DedupHit(id) => // find transaction
      if !ch.ok then (w, Releasing(UploadFailed(CommandFailed)))
      else
        var found := ActiveRow(w, id);
        if found.None? then (w, Fresh)
        else
          var listed := Listed(found.value.sharedWith);
          var next := Union(listed, a.sharedWith, found.value.ownerId);
          if a.sharedWith != [] && |next| != |listed| then (w, MergeWrite(id, next))
          else (w, Releasing(Uploaded(id)))
    case MergeWrite(id, next) => // update transaction
      if !ch.ok then (w, Releasing(UploadFailed(CommandFailed)))
      else if id !in w.media then (w, MergeUncache(id))
      else (w.(media := w.media[id := w.media[id].(sharedWith := Some(next))]), MergeUncache(id))
    case MergeUncache(id) => // cache DEL
      if !ch.ok then (w, Releasing(UploadFailed(CommandFailed)))
      else (w.(meta := w.meta - {id}), Releasing(Uploaded(id)))
    case Fresh => // randomUUID, buildPath, PUT
      if !ch.ok || !UuidsOk(a, ch.id) then (w, Releasing(UploadFailed(CommandFailed)))
      else (w.(objects := w.objects[BlobPath(a.context, u, ch.id) := a.file.content],
               issued := w.issued[ch.id := OriginOf(w, rid, a)]), BlobPut(ch.id))
    case BlobPut(id) => // thumbnail validation, PUT; then the row object is built
      if a.thumb.None? then (w, ReadyToSave(id, ExpiryOf(w, a)))
      else if ThumbnailError(a.thumb.value).Some? then (w, Releasing(UploadFailed(ThumbnailError(a.thumb.value).value)))
      else if !ch.ok || !UuidsOk(a, id) then (w, Releasing(UploadFailed(CommandFailed)))
      else (w.(objects := w.objects[ThumbPath(u, id) := a.thumb.value.content]),
            ReadyToSave(id, ExpiryOf(w, a)))
    case ReadyToSave(id, expiresAt) => // save transaction
      if !ch.ok || !UuidsOk(a, id) then (w, CleanBlob(id))
      else (w.(media := w.media[id := NewRow(w, a, id, expiresAt)]), Saved(id))
    case CleanBlob(id) => // DELETE, its failure swallowed
      var ok := ch.ok && UuidsOk(a, id);
      (if ok then w.(objects := w.objects - {BlobPath(a.context, u, id)}) else w,
       if a.thumb.Some? then CleanThumb(id, ok) else Releasing(UploadFailed(SaveFailed(id, ok))))
    case CleanThumb(id, cleaned) => // DELETE, its failure swallowed
      var ok := ch.ok && UuidsOk(a, id);
      (if ok then w.(objects := w.objects - {ThumbPath(u, id)}) else w,
       Releasing(UploadFailed(SaveFailed(id, cleaned && ok))))
    case Saved(id) => // dedup SET
      if !ch.ok then (w, Releasing(UploadFailed(CommandFailed)))
      else (w.(dedup := w.dedup[KeyOf(a) := id]), Indexed(id))
    case Indexed(id) => // recordUpload transaction
      if !ch.ok || !ValidBlobSize(a.file.size) || u !in w.quota || id !in w.media
      then (w, Releasing(UploadFailed(CommandFailed)))
      else (w.(quota := w.quota[u := Charge(w.quota[u], a.file.size)],
               media := w.media[id := w.media[id].(history := w.media[id].history.(recorded := true))],
               log := w.log + [UploadCommit(u)]), Recorded(id))
    case Recorded(id) => // quota cache DEL, its failure swallowed
      (if ch.ok then w.(quotaCache := w.quotaCache - {u}) else w, Releasing(Uploaded(id)))
    case Releasing(result) => // DECR
      var remaining := Counter(w, u) - 1;
      (w.(sem := w.sem[u := remaining]), if remaining <= 0 then DroppingKey(result) else UploadDone(result))
    case DroppingKey(result) => // DEL
      (w.(sem := w.sem - {u}), UploadDone(result))
    case UploadDone(_) => (w, pc)
  }

  // ----- delete -----

  function DeleteStep(w: World, rid: ReqId, id: MediaId, requester: UserId,
                      pc: DeletePc, ch: Choice): (World, DeletePc) {
    match pc
    case Finding => // find, owner check and soft delete in one transaction
      var found := ActiveRow(w, id);
      if found.None? then (w, DeleteDone(DeleteNotFound))
      else if found.value.ownerId != requester then (w, DeleteDone(DeleteForbidden))
      else
        (w.(media := w.media[id := found.value.(isActive := false,
                                               history := found.value.history.(deletedBy := Some(rid)))]),
         RemovingBlob(found.value))
    case RemovingBlob(row) => // DELETE
      (w.(objects := w.objects - {row.storagePath}),
       if row.thumbnailPath.Some? then RemovingThumb(row) else DroppingMeta(row))
    case RemovingThumb(row) => // DELETE
      (if row.thumbnailPath.Some? then w.(objects := w.objects - {row.thumbnailPath.value}) else w, DroppingMeta(row))
    case DroppingMeta(row) => // cache DEL
      (w.(meta := w.meta - {id}), Refunding(row))
    case Refunding(row) => // recordDelete transaction
      if !ValidBlobSize(row.blobSize) || requester !in w.quota || id !in w.media then (w, DeleteDone(DeleteThrew))
      else (w.(quota := w.quota[requester := Refund(w.quota[requester], row.blobSize)],
               media := w.media[id := w.media[id].(history := w.media[id].history.(released := true))]),
            Uncaching(row))
    case Uncaching(row) => // quota cache DEL, its failure swallowed
      (if ch.ok then w.(quotaCache := w.quotaCache - {requester}) else w, DeleteDone(Deleted))
    case DeleteDone(_) => (w, pc)
  }

  // ----- share, metadata, blob URL -----

  function ShareStep(w: World, id: MediaId, requester: UserId, users: seq<UserId>, pc: SharePc): (World, SharePc) {
    match pc
    case Sharing => // find, owner check and update in one transaction
      var found := ActiveRow(w, id);
      if found.None? then (w, ShareDone(ShareNotFound))
      else if found.value.ownerId != requester then (w, ShareDone(ShareForbidden))
      else
        var listed := Listed(found.value.sharedWith);
        var next := Union(listed, users, found.value.ownerId);
        if |next| == |Distinct(listed)| then (w, ShareDone(Shared(next)))
        else (w.(media := w.media[id := found.value.(sharedWith := if next == [] then None else Some(next))]),
              ShareUncache(next))
    case ShareUncache(next) => // cache DEL
      (w.(meta := w.meta - {id}), ShareDone(Shared(next)))
    case ShareDone(_) => (w, pc)
  }

  function EntryOf(id: MediaId, row: Media): CachedMeta {
    CachedMeta(MetaDto(id, row.ownerId, row.context, row.contentType, row.blobSize, row.expiresAt,
                       row.isActive, row.createdAt, row.thumbnailPath.Some?), row.sharedWith)
  }

  predicate EntryReadable(e: CachedMeta, requester: UserId) {
    MayRead(PublicReadable(e.dto.context), e.dto.ownerId, e.sharedWith, requester)
  }

  predicate RowReadable(row: Media, requester: UserId) {
    MayRead(PublicReadable(row.context), row.ownerId, row.sharedWith, requester)
  }

  function MetaFromCache(e: CachedMeta, requester: UserId): MetaResult {
    if EntryReadable(e, requester) then Found(e.dto) else MetaDenied
  }

  function MetaFromTable(w: World, id: MediaId, requester: UserId): MetaResult {
    var found := ActiveRow(w, id);
    if found.None? then MetaNotFound
    else if !RowReadable(found.value, requester) then MetaDenied
    else Found(EntryOf(id, found.value).dto)
  }

  function MetaStep(w: World, id: MediaId, requester: UserId, pc: MetaPc): (World, MetaPc) {
    match pc
    case MetaStart => // cache GET
      (w, if id in w.meta then MetaDone(MetaFromCache(w.meta[id], requester)) else MetaMiss)
    case MetaMiss => // find transaction
      var result := MetaFromTable(w, id, requester);
      (w, if result.Found? then MetaLoaded(EntryOf(id, w.media[id])) else MetaDone(result))
    case MetaLoaded(entry) => // cache SET
      (w.(meta := w.meta[id := entry]), MetaDone(Found(entry.dto)))
    case MetaDone(_) => (w, pc)
  }

  function BlobStep(w: World, id: MediaId, requester: UserId, pc: BlobPc): (World, BlobPc) {
    match pc
    case BlobStart => // one transaction
      var found := ActiveRow(w, id);
      if found.None? then (w, BlobDone(BlobNotFound))
      else if !RowReadable(found.value, requester) then (w, BlobDone(BlobDenied))
      else
        var row := found.value;
        var grant := Grant(row.storagePath, row.signedUrlExpiresAt, w.now, w.config.signedUrlExpirySeconds);
        (if StillValid(row.signedUrlExpiresAt, w.now) then w
         else w.(media := w.media[id := row.(signedUrlExpiresAt := Some(grant.expiresAt))]),
         BlobDone(Granted(grant)))
    case BlobDone(_) => (w, pc)
  }

  // ----- quota alert and daily reset -----

  function AlertStep(w: World, u: UserId, pc: AlertPc, ch: Choice): (World, AlertPc) {
    match pc
    case AlertStart => // cache GET
      (w, if u in w.quotaCache && ch.hit then Alerting(Rehydrate(w.quotaCache[u]), w.now, 0) else AlertMiss)
    case AlertMiss => // find-or-insert transaction
      (w.(quota := w.quota[u := RowOrFresh(w, u)]), AlertRead(RowOrFresh(w, u)))
    case AlertRead(row) => // cache SET, its failure swallowed
      (if ch.ok then w.(quotaCache := w.quotaCache[u := Dehydrate(row)]) else w, Alerting(row, w.now, 0))
    case Alerting(row, since, next) => // SET NX EX of one threshold that is reached
      if next >= |Alerts.THRESHOLDS| then (w, AlertDone(row, since))
      else (w.(board := Alerts.Round(w.board, u, row, w.now, next)), Alerting(row, since, next + 1))
    case AlertDone(_, _) => (w, pc)
  }

  function ResetStep(w: World, pc: ResetPc, ch: Choice): (World, ResetPc) {
    match pc
    case ResetStart => // reset_daily_uploads()
      var users := ResetUsers(w.quota, Today(w));
      (w.(quota := ResetRows(w.quota, Today(w)), log := w.log + [ResetCommit(users)]), ResetUncache(users))
    case ResetUncache(users) => // quota cache DEL for one of them, its failure swallowed
      if ch.user !in users then (w, pc)
      else (if ch.ok then w.(quotaCache := w.quotaCache - {ch.user}) else w, ResetUncache(users - {ch.user}))
  }

  // ----- the machine -----

  function Act(w: World, rid: ReqId, r: Req, ch: Choice): (World, Req) {
    match r
    case Upload(a, pc) =>
      var (w', pc') := UploadStep(w, rid, a, pc, ch); (w', Upload(a, pc'))
    case Delete(id, requester, pc) =>
      var (w', pc') := DeleteStep(w, rid, id, requester, pc, ch); (w', Delete(id, requester, pc'))
    case Share(id, requester, users, pc) =>
      var (w', pc') := ShareStep(w, id, requester, users, pc); (w', Share(id, requester, users, pc'))
    case GetMeta(id, requester, pc) =>
      var (w', pc') := MetaStep(w, id, requester, pc); (w', GetMeta(id, requester, pc'))
    case GetBlob(id, requester, pc) =>
      var (w', pc') := BlobStep(w, id, requester, pc); (w', GetBlob(id, requester, pc'))
    case Alert(u, pc) =>
      var (w', pc') := AlertStep(w, u, pc, ch); (w', Alert(u, pc'))
    case Reset(pc) =>
      var (w', pc') := ResetStep(w, pc, ch); (w', Reset(pc'))
  }

  datatype State = State(w: World, reqs: map<ReqId, Req>)

  datatype Event =
    | Spawn(rid: ReqId, req: Req)
    | Go(rid: ReqId, ch: Choice)
    | Tick(ms: nat)
    | ExpireCounter(user: UserId)
    | ExpireQuota(user: UserId)
    | ExpireDedup(key: DedupKey)
    | ExpireMeta(id: MediaId)

  /** A request as it arrives. */
  predicate AtStart(r: Req) {
    match r
    case Upload(_, pc) => pc == Arriving
    case Delete(_, _, pc) => pc == Finding
    case Share(_, _, _, pc) => pc == Sharing
    case GetMeta(_, _, pc) => pc == MetaStart
    case GetBlob(_, _, pc) => pc == BlobStart
    case Alert(_, pc) => pc == AlertStart
    case Reset(pc) => pc == ResetStart
  }

  /** A new id is generated only where the code calls `randomUUID`, and it is one never seen before. */
  predicate ChoiceOk(w: World, r: Req, ch: Choice) {
    r.Upload? && r.upc.Fresh? ==> IsUuid(ch.id) && ch.id !in w.issued
  }

  predicate Enabled(s: State, e: Event) {
    match e
    case Spawn(rid, r) => rid !in s.reqs && AtStart(r)
    case Go(rid, ch) => rid in s.reqs && ChoiceOk(s.w, s.reqs[rid], ch)
    case _ => true
  }

  function Next(s: State, e: Event): State
    requires Enabled(s, e)
  {
    match e
    case Spawn(rid, r) => s.(reqs := s.reqs[rid := r])
    case Go(rid, ch) =>
      var (w', r') := Act(s.w, rid, s.reqs[rid], ch);
      State(w', s.reqs[rid := r'])
    case Tick(ms) => s.(w := s.w.(now := s.w.now + ms))
    case ExpireCounter(u) => s.(w := s.w.(sem := s.w.sem - {u}))
    case ExpireQuota(u) => s.(w := s.w.(quotaCache := s.w.quotaCache - {u}))
    case ExpireDedup(k) => s.(w := s.w.(dedup := s.w.dedup - {k}))
    case ExpireMeta(id) => s.(w := s.w.(meta := s.w.meta - {id}))
  }

  /** The service before any request: empty stores, except that quota rows may have been provisioned with any
      limits for users who have stored nothing yet. */
  predicate Init(s: State) {
    && s.reqs == map[] && ValidConfig(s.w.config)
    && s.w.sem == map[] && s.w.quotaCache == map[] && s.w.media == map[] && s.w.objects == map[]
    && s.w.dedup == map[] && s.w.meta == map[] && s.w.issued == map[] && s.w.log == []
    && s.w.board == Alerts.EMPTY
    && forall u :: u in s.w.quota ==>
         s.w.quota[u].storageUsed == 0 && s.w.quota[u].filesCount == 0 && s.w.quota[u].dailyUploads == 0
  }

  /** A run: every event is possible where it happens. */
  predicate Run(s: State, events: seq<Event>)
    decreases |events|
  {
    events == [] || (Enabled(s, events[0]) && Run(Next(s, events[0]), events[1..]))
  }

  function After(s: State, events: seq<Event>): State
    requires Run(s, events)
    decreases |events|
  {
    if events == [] then s else After(Next(s, events[0]), events[1..])
  }

  /** Every event of the run satisfies `p` where it happens. */
  ghost predicate Along(s: State, events: seq<Event>, p: (State, Event) -> bool)
    requires Run(s, events)
    decreases |events|
  {
    events == [] || (p(s, events[0]) && Along(Next(s, events[0]), events[1..], p))
  }
}
