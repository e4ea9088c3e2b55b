/**
 * What the service loses when one condition of the other modules is dropped: runs built event by event, which keep
 * the remaining conditions on the counters and on the quota cache.
 *
 * A DEL that hits a counter in use, a quota row cached late, or one left cached by a failed invalidation lifts the
 * overshoot bound; two dedup merges that read before either wrote lose a reader; a media deleted before its own
 * upload is recorded leaves its charge behind; a media whose dedup SET throws after its save is never charged; a
 * metadata entry cached late keeps serving a deleted media.
 */
module Anomalies {
  import opened Base
  import opened Acl
  import opened Quota
  import opened Admission
  import opened Paths
  import opened Protocol
  import opened Semaphore
  import opened Overshoot
  import opened Witnesses

  // One step of a request of any kind, its effect spelled out.
  lemma GoRequest(s: State, before: seq<Event>, t: State, rid: ReqId, ch: Choice, c: Care)
    returns (events: seq<Event>, t': State)
    requires Leads(s, before, t, c) && rid in t.reqs && !t.reqs[rid].Upload? && Kept(c, t, Go(rid, ch))
    ensures Leads(s, events, t', c)
    ensures var (w', r') := Act(t.w, rid, t.reqs[rid], ch); t' == State(w', t.reqs[rid := r'])
  {
    hide Act, Leads, Kept;
    Extend(s, before, t, Go(rid, ch), c);
    events, t' := before + [Go(rid, ch)], Next(t, Go(rid, ch));
  }

  lemma Begins(s: State, before: seq<Event>, t: State, rid: ReqId, r: Req, c: Care)
    returns (events: seq<Event>, t': State)
    requires Leads(s, before, t, c) && rid !in t.reqs && AtStart(r)
    ensures Leads(s, events, t', c) && t' == t.(reqs := t.reqs[rid := r])
  {
    hide Leads, AtStart;
    Extend(s, before, t, Spawn(rid, r), c);
    events, t' := before + [Spawn(rid, r)], Next(t, Spawn(rid, r));
  }

  // ----- a late quota SET -----

  const ALERT: ReqId := 9

  // A recorded upload drops the cached row and gives its slot back to a user who holds others.
  lemma FlushAndRelease(s: State, before: seq<Event>, t: State, rid: ReqId, a: UploadArgs, id: MediaId, c: Care)
    returns (events: seq<Event>, t': State)
    requires Leads(s, before, t, c) && rid in t.reqs && t.reqs[rid] == Upload(a, Recorded(id))
    requires Counter(t.w, a.owner) > 1
    ensures Leads(s, events, t', c)
    ensures t' == State(t.w.(quotaCache := t.w.quotaCache - {a.owner},
                             sem := t.w.sem[a.owner := Counter(t.w, a.owner) - 1]),
                        t.reqs[rid := Upload(a, UploadDone(Uploaded(id)))])
  {
    hide Leads;
    var t1: State;
    events, t1 := GoUpload(s, before, t, rid, Yes(), c);
    assert t1 == State(t.w.(quotaCache := t.w.quotaCache - {a.owner}),
                        t.reqs[rid := Upload(a, Releasing(Uploaded(id)))]);
    events, t' := GoUpload(s, events, t1, rid, Yes(), c);
    assert t'.reqs == t.reqs[rid := Upload(a, UploadDone(Uploaded(id)))];
  }

  lemma AlertReads(s: State, c: Care) returns (events: seq<Event>, t: State)
    requires s == START
    ensures Leads(s, events, t, c) && t == s.(reqs := map[ALERT := Alert(OWNER, AlertRead(ONE_UPLOAD))])
  {
    Begin(s, c);
    hide Leads, FreshRow;
    events, t := Begins(s, [], s, ALERT, Alert(OWNER, AlertStart), c);
    events, t := GoRequest(s, events, t, ALERT, Yes(), c);
    assert t.w == s.w && t.reqs[ALERT] == Alert(OWNER, AlertMiss);
    events, t := GoRequest(s, events, t, ALERT, Yes(), c);
    assert t.w == s.w && t.reqs == map[ALERT := Alert(OWNER, AlertRead(ONE_UPLOAD))];
  }

  // A quota alert reads the row before three uploads and caches it after they were recorded: a fourth upload is
  // let in on the old row, and the storage used exceeds the limit by three uploads instead of two.
  lemma LateSetLiftsBound() returns (s: State, events: seq<Event>)
    ensures Init(s) && Run(s, events) && Along(s, events, SemClean) && Along(s, events, ChargeFlushed)
    ensures OWNER in After(s, events).w.quota
    ensures After(s, events).w.quota[OWNER].storageUsed
         == After(s, events).w.quota[OWNER].storageLimit + 3 * UPLOAD_MAX_BYTES
  {
    hide Leads, BigArgs, KeyOf, UploadStep, IsUuid, Id, Rehydrate, Dehydrate;
    s := START;
    StartIsInitial();
    IdIsUuid('3');
    BigKeys(1, []);
    RehydrateDehydrate(ONE_UPLOAD);
    var c := Care(true, false, true);
    var t: State;
    events, t := AlertReads(s, c);
    events, t := ThreeRun(s, events, t, c);
    events, t := FlushAndRelease(s, events, t, 0, BigArgs(0, []), Id('0'), c);
    events, t := GoRequest(s, events, t, ALERT, Yes(), c);
    assert t.w.quotaCache[OWNER] == Dehydrate(ONE_UPLOAD);
    events, t := EnterByCache(s, events, t, 3, BigArgs(1, []), c);
    events, t := StoreAndRecord(s, events, t, 3, BigArgs(1, []), Id('3'), c);
    LeadsTo(s, events, t, c);
  }

  // ----- a failed invalidation -----

  // The same upload when its invalidation fails: the failure is swallowed, the slot is given back.
  lemma ReleaseUnflushed(s: State, before: seq<Event>, t: State, rid: ReqId, a: UploadArgs, id: MediaId, c: Care)
    returns (events: seq<Event>, t': State)
    requires Leads(s, before, t, c) && rid in t.reqs && t.reqs[rid] == Upload(a, Recorded(id))
    requires Counter(t.w, a.owner) > 1 && !c.flushes
    ensures Leads(s, events, t', c)
    ensures t' == State(t.w.(sem := t.w.sem[a.owner := Counter(t.w, a.owner) - 1]),
                        t.reqs[rid := Upload(a, UploadDone(Uploaded(id)))])
  {
    hide Leads;
    var t1: State;
    events, t1 := GoUpload(s, before, t, rid, Choice(false, true, "", ""), c);
    assert t1 == State(t.w, t.reqs[rid := Upload(a, Releasing(Uploaded(id)))]);
    events, t' := GoUpload(s, events, t1, rid, Yes(), c);
    assert t'.reqs == t.reqs[rid := Upload(a, UploadDone(Uploaded(id)))];
  }

  // An upload whose cache invalidation fails leaves the old row cached, and a fourth upload is let in on it.
  lemma FailedFlushLiftsBound() returns (s: State, events: seq<Event>)
    ensures Init(s) && Run(s, events) && Along(s, events, SemClean) && Along(s, events, SetClean)
    ensures OWNER in After(s, events).w.quota
    ensures After(s, events).w.quota[OWNER].storageUsed
         == After(s, events).w.quota[OWNER].storageLimit + 3 * UPLOAD_MAX_BYTES
  {
    hide Leads, BigArgs, KeyOf, UploadStep, IsUuid, Id, Rehydrate, Dehydrate;
    s := START;
    StartIsInitial();
    IdIsUuid('3');
    BigKeys(1, []);
    RehydrateDehydrate(ONE_UPLOAD);
    var c := Care(true, true, false);
    Begin(s, c);
    var t: State;
    events, t := ThreeRun(s, [], s, c);
    events, t := ReleaseUnflushed(s, events, t, 0, BigArgs(0, []), Id('0'), c);
    events, t := EnterByCache(s, events, t, 3, BigArgs(1, []), c);
    events, t := StoreAndRecord(s, events, t, 3, BigArgs(1, []), Id('3'), c);
    LeadsTo(s, events, t, c);
  }

  // ----- a DEL between -----

  const ICON: ReqId := 8

  // A refused icon upload is between its DECR and its DEL when three big uploads get in; its DEL wipes their count
  // and a fourth gets in beside them.
  lemma FourBigInside(s: State, c: Care) returns (events: seq<Event>, t: State)
    requires s == START && !c.sem
    ensures Leads(s, events, t, c)
    ensures var a := BigArgs(0, []);
      forall rid: ReqId :: rid < 4 ==> rid in t.reqs && t.reqs[rid] == Upload(a, Fresh)
    ensures OWNER in t.w.quota && t.w.quota[OWNER] == ONE_UPLOAD && t.w.issued == map[]
  {
    hide Leads, BigArgs, KeyOf, UploadStep, Rehydrate, Dehydrate;
    RehydrateDehydrate(ONE_UPLOAD);
    Begin(s, c);
    events, t := Arrive(s, [], s, ICON, IconArgs(), c);
    events, t := RefuseOne(s, events, t, ICON, c);
    events, t := ThreeEnter(s, events, t, c);
    events, t := DropKey(s, events, t, ICON, UploadFailed(NotAuthorized), c);
    events, t := EnterByCache(s, events, t, 3, BigArgs(0, []), c);
  }

  // Four uploads inside at once exceed the storage limit by three, every cache SET and invalidation in order.
  lemma SplitReleaseLiftsBound() returns (s: State, events: seq<Event>)
    ensures Init(s) && Run(s, events) && Along(s, events, SetClean) && Along(s, events, ChargeFlushed)
    ensures OWNER in After(s, events).w.quota
    ensures After(s, events).w.quota[OWNER].storageUsed
         == After(s, events).w.quota[OWNER].storageLimit + 3 * UPLOAD_MAX_BYTES
  {
    hide Leads, BigArgs;
    s := START;
    StartIsInitial();
    var c := Care(false, true, true);
    var t: State;
    events, t := FourBigInside(s, c);
    events, t := FourRecorded(s, events, t, c);
    LeadsTo(s, events, t, c);
  }

  // Four uploads that are all inside go on to store and record one after the other.
  lemma FourRecorded(s: State, before: seq<Event>, t: State, c: Care) returns (events: seq<Event>, t': State)
    requires Leads(s, before, t, c) && OWNER in t.w.quota && t.w.quota[OWNER] == ONE_UPLOAD && t.w.issued == map[]
    requires forall rid: ReqId :: rid < 4 ==> rid in t.reqs && t.reqs[rid] == Upload(BigArgs(0, []), Fresh)
    ensures Leads(s, events, t', c) && OWNER in t'.w.quota
    ensures t'.w.quota[OWNER].storageUsed == t'.w.quota[OWNER].storageLimit + 3 * UPLOAD_MAX_BYTES
  {
    hide Leads, BigArgs, KeyOf, UploadStep, IsUuid, Id, RecordedAs;
    IdIsUuid('0');
    IdIsUuid('1');
    IdIsUuid('2');
    IdIsUuid('3');
    var a := BigArgs(0, []);
    var t1, t2, t3: State;
    events, t1 := StoreAndRecord(s, before, t, 0, a, Id('0'), c);
    AfterRecording(t, t1, 0, a, Id('0'));
    events, t2 := StoreAndRecord(s, events, t1, 1, a, Id('1'), c);
    AfterRecording(t1, t2, 1, a, Id('1'));
    events, t3 := StoreAndRecord(s, events, t2, 2, a, Id('2'), c);
    AfterRecording(t2, t3, 2, a, Id('2'));
    events, t' := StoreAndRecord(s, events, t3, 3, a, Id('3'), c);
    Recordings(t, t1, 0, a, Id('0'));
    Recordings(t1, t2, 1, a, Id('1'));
    Recordings(t2, t3, 2, a, Id('2'));
    Recordings(t3, t', 3, a, Id('3'));
  }

  // ----- one media, to be spoiled -----

  /** Upload 0 has saved its media and holds its slot; nothing is recorded yet. */
  ghost predicate OneSaved(t: State) {
    var a, id := BigArgs(0, []), Id('0');
    && t.reqs == map[0 := Upload(a, Saved(id))] && Counter(t.w, OWNER) == 1
    && t.w.media.Keys == {id} && t.w.media[id].isActive && t.w.media[id].ownerId == OWNER
    && t.w.media[id].sharedWith == None && t.w.media[id].thumbnailPath == None
    && t.w.media[id].blobSize == UPLOAD_MAX_BYTES
    && t.w.quota == map[OWNER := ONE_UPLOAD] && t.w.quotaCache == map[OWNER := Dehydrate(ONE_UPLOAD)]
    && t.w.meta == map[]
  }

  lemma SaveOne(s: State, c: Care) returns (events: seq<Event>, t: State)
    requires s == START
    ensures Leads(s, events, t, c) && OneSaved(t)
  {
    var a := BigArgs(0, []);
    Begin(s, c);
    BigFacts(a);
    IdIsUuid('0');
    assert OWNER == Id('0');
    hide Leads, BigArgs, KeyOf, UploadStep, IsUuid, Id, Rehydrate, Dehydrate, NewRow;
    var t1: State;
    events, t1 := EnterByTable(s, [], s, 0, a, c);
    events, t := StoreAndSave(s, events, t1, 0, a, Id('0'), c);
    SavedFromStart(t1, t, a, Id('0'));
  }

  // What that leaves, told from the world in which the upload was let in.
  lemma SavedFromStart(t1: State, t: State, a: UploadArgs, id: MediaId)
    requires LetIn(START, t1, 0, a) && t1.w.quotaCache == map[OWNER := Dehydrate(ONE_UPLOAD)]
    requires a == BigArgs(0, []) && id == Id('0') && UuidsOk(a, id)
    requires t.reqs == t1.reqs[0 := Upload(a, Saved(id))]
    requires t.w == t1.w.(objects := t.w.objects, issued := t1.w.issued[id := OriginOf(t1.w, 0, a)],
                          media := t1.w.media[id := NewRow(t1.w, a, id, ExpiryOf(t1.w, a))])
    ensures OneSaved(t)
  {
    hide BigArgs, KeyOf, IsUuid, UuidsOk, Id, Dehydrate, NewRow, OriginOf;
    BigFacts(a);
    BigRow(t1.w, a, id);
  }

  lemma BigRow(w: World, a: UploadArgs, id: MediaId)
    requires Big(a) && a.sharedWith == [] && UuidsOk(a, id)
    ensures var row := NewRow(w, a, id, ExpiryOf(w, a));
      && row.isActive && row.ownerId == OWNER && row.sharedWith == None && row.thumbnailPath == None
      && row.blobSize == UPLOAD_MAX_BYTES
  {
    hide BlobPath, UuidsOk;
    assert Union([], [], a.owner) == [];
  }

  /** The row once a delete by request `rid` has found it. */
  function SoftDeleted(row: Media, rid: ReqId): Media {
    row.(isActive := false, history := row.history.(deletedBy := Some(rid)))
  }

  /** An active media of OWNER of full size. */
  predicate KeptBig(row: Media) {
    row.isActive && row.ownerId == OWNER && row.blobSize == UPLOAD_MAX_BYTES
  }

  /** Some row of OWNER that a delete may take: active, without a thumbnail, of full size. */
  ghost predicate Deletable(row: Media) {
    KeptBig(row) && row.thumbnailPath == None
  }

  // A delete of it, up to the point where the blob is gone.
  lemma SoftDelete(s: State, before: seq<Event>, t: State, id: MediaId, row: Media, c: Care)
    returns (events: seq<Event>, t': State)
    requires Leads(s, before, t, c) && 1 !in t.reqs
    requires id in t.w.media && t.w.media[id] == row && Deletable(row)
    ensures Leads(s, events, t', c)
    ensures t'.reqs == t.reqs[1 := Delete(id, OWNER, DroppingMeta(row))]
    ensures t'.w == t.w.(media := t.w.media[id := SoftDeleted(row, 1)], objects := t'.w.objects)
  {
    hide Leads, UploadStep;
    var t1, t2: State;
    events, t1 := Begins(s, before, t, 1, Delete(id, OWNER, Finding), c);
    events, t2 := GoRequest(s, events, t1, 1, Yes(), c);
    assert t2.reqs == t.reqs[1 := Delete(id, OWNER, RemovingBlob(row))];
    events, t' := GoRequest(s, events, t2, 1, Yes(), c);
    assert t'.reqs == t.reqs[1 := Delete(id, OWNER, DroppingMeta(row))];
  }

  // The rest of that delete, up to the refund.
  lemma DropAndRefund(s: State, before: seq<Event>, t: State, id: MediaId, row: Media, c: Care)
    returns (events: seq<Event>, t': State)
    requires Leads(s, before, t, c) && 1 in t.reqs && t.reqs[1] == Delete(id, OWNER, DroppingMeta(row))
    requires id in t.w.media && OWNER in t.w.quota && Deletable(row)
    ensures Leads(s, events, t', c)
    ensures t'.reqs == t.reqs[1 := Delete(id, OWNER, Uncaching(row))]
    ensures t'.w == t.w.(
      meta := t.w.meta - {id},
      quota := t.w.quota[OWNER := Refund(t.w.quota[OWNER], UPLOAD_MAX_BYTES)],
      media := t.w.media[id := t.w.media[id].(history := t.w.media[id].history.(released := true))])
  {
    hide Leads, UploadStep, Refund;
    var t1: State;
    events, t1 := GoRequest(s, before, t, 1, Yes(), c);
    assert t1 == State(t.w.(meta := t.w.meta - {id}), t.reqs[1 := Delete(id, OWNER, Refunding(row))]);
    events, t' := GoRequest(s, events, t1, 1, Yes(), c);
    assert t'.reqs == t.reqs[1 := Delete(id, OWNER, Uncaching(row))];
  }

  // ----- an early delete -----

  // A media deleted before its own upload is recorded: the refund is clamped away, the charge comes after it,
  // and with no media left the user stays charged for 100 MB and one file.
  lemma EarlyDeleteLeaks() returns (s: State, events: seq<Event>)
    ensures Init(s) && Run(s, events) && Along(s, events, BothClean)
    ensures var w := After(s, events).w;
      && (forall id :: id in w.media ==>
            !w.media[id].isActive && w.media[id].history.recorded && w.media[id].history.released)
      && OWNER in w.quota && w.quota[OWNER].storageUsed == UPLOAD_MAX_BYTES && w.quota[OWNER].filesCount == 1
  {
    hide Leads, BigArgs, KeyOf, IsUuid, Id, Rehydrate, Dehydrate, UploadStep, Refund, Charge;
    s := START;
    StartIsInitial();
    var c := STRICT;
    var t, t1: State;
    events, t := SaveOne(s, c);
    var row := t.w.media[Id('0')];
    events, t := SoftDelete(s, events, t, Id('0'), row, c);
    events, t := DropAndRefund(s, events, t, Id('0'), row, c);
    RefundThenCharge();
    events, t1 := IndexAndRecordOne(s, events, t, c);
    LeadsTo(s, events, t1, c);
  }

  // A refund on an empty row is clamped away; the charge is not.
  lemma RefundThenCharge()
    ensures var row := Charge(Refund(ONE_UPLOAD, UPLOAD_MAX_BYTES), UPLOAD_MAX_BYTES);
      row.storageUsed == UPLOAD_MAX_BYTES && row.filesCount == 1
  {}

  // The upload of the spoiled media goes on to its charge.
  lemma IndexAndRecordOne(s: State, before: seq<Event>, t: State, c: Care)
    returns (events: seq<Event>, t': State)
    requires Leads(s, before, t, c) && 0 in t.reqs && t.reqs[0] == Upload(BigArgs(0, []), Saved(Id('0')))
    requires OWNER in t.w.quota && Id('0') in t.w.media
    ensures Leads(s, events, t', c)
    ensures OWNER in t'.w.quota && t'.w.quota[OWNER] == Charge(t.w.quota[OWNER], UPLOAD_MAX_BYTES)
    ensures var row := t.w.media[Id('0')];
      t'.w.media == t.w.media[Id('0') := row.(history := row.history.(recorded := true))]
  {
    hide Leads, BigArgs, KeyOf, IsUuid, Id, UploadStep, Charge;
    var a := BigArgs(0, []);
    var t1: State;
    events, t1 := Index(s, before, t, 0, a, Id('0'), c);
    events, t' := Record(s, events, t1, 0, a, Id('0'), c);
  }

  // ----- a late metadata SET -----

  // A metadata read finds the media and pauses before caching it.
  lemma LoadMeta(s: State, before: seq<Event>, t: State, rid: ReqId, id: MediaId, c: Care)
    returns (events: seq<Event>, t': State)
    requires Leads(s, before, t, c) && rid !in t.reqs && id !in t.w.meta
    requires id in t.w.media && t.w.media[id].isActive && t.w.media[id].ownerId == OWNER
    ensures Leads(s, events, t', c)
    ensures t' == State(t.w, t.reqs[rid := GetMeta(id, OWNER, MetaLoaded(EntryOf(id, t.w.media[id])))])
  {
    hide Leads, UploadStep, EntryOf;
    var t1, t2: State;
    events, t1 := Begins(s, before, t, rid, GetMeta(id, OWNER, MetaStart), c);
    events, t2 := GoRequest(s, events, t1, rid, Yes(), c);
    assert t2 == State(t.w, t.reqs[rid := GetMeta(id, OWNER, MetaMiss)]);
    events, t' := GoRequest(s, events, t2, rid, Yes(), c);
    assert t'.reqs == t.reqs[rid := GetMeta(id, OWNER, MetaLoaded(EntryOf(id, t.w.media[id])))];
  }

  // It caches what it loaded, and the next read answers from that entry.
  lemma CacheAndServe(s: State, before: seq<Event>, t: State, rid: ReqId, next: ReqId,
                      id: MediaId, entry: CachedMeta, c: Care)
    returns (events: seq<Event>, t': State)
    requires Leads(s, before, t, c) && next !in t.reqs && rid != next
    requires rid in t.reqs && t.reqs[rid] == GetMeta(id, OWNER, MetaLoaded(entry)) && entry.dto.ownerId == OWNER
    ensures Leads(s, events, t', c) && next in t'.reqs
    ensures t'.reqs[next] == GetMeta(id, OWNER, MetaDone(Found(entry.dto))) && t'.w.media == t.w.media
  {
    hide Leads, UploadStep;
    events, t' := GoRequest(s, before, t, rid, Yes(), c);
    assert t'.w == t.w.(meta := t.w.meta[id := entry]);
    events, t' := Begins(s, events, t', next, GetMeta(id, OWNER, MetaStart), c);
    events, t' := GoRequest(s, events, t', next, Yes(), c);
  }

  // A read that found the media caches it after a delete has dropped the entry: a request that starts when the
  // delete is over still gets the media, which the table would refuse.
  lemma LateMetaServesDeleted() returns (s: State, events: seq<Event>, id: MediaId)
    ensures Init(s) && Run(s, events) && Along(s, events, BothClean)
    ensures var t := After(s, events);
      && MetaFromTable(t.w, id, OWNER) == MetaNotFound
      && 3 in t.reqs && t.reqs[3].GetMeta? && t.reqs[3].id == id && t.reqs[3].requester == OWNER
      && t.reqs[3].mpc.MetaDone? && t.reqs[3].mpc.result.Found?
  {
    hide Leads, BigArgs, IsUuid, Id, Dehydrate, Refund, UploadStep;
    s, id := START, Id('0');
    StartIsInitial();
    var c := STRICT;
    var t: State;
    events, t := SaveOne(s, c);
    var row := t.w.media[id];
    events, t := LoadMeta(s, events, t, 2, id, c);
    events, t := SoftDelete(s, events, t, id, row, c);
    events, t := DropAndRefund(s, events, t, id, row, c);
    events, t := CacheAndServe(s, events, t, 2, 3, id, EntryOf(id, row), c);
    LeadsTo(s, events, t, c);
  }

  // ----- a stale merge -----

  const BOB: UserId := Id('7')
  const CAROL: UserId := Id('8')

  lemma ReadersAreUsers()
    ensures IsUuid(BOB) && IsUuid(CAROL) && BOB != CAROL && Eligible(BOB, OWNER) && Eligible(CAROL, OWNER)
  {
    assert OWNER == Id('0');
    IdIsUuid('7');
    IdIsUuid('8');
  }

  lemma UnionOfOne(uid: UserId, owner: UserId)
    requires Eligible(uid, owner)
    ensures Union([], [uid], owner) == [uid]
  {
    assert Distinct([]) == [];
    assert [uid][..0] == [] && [uid][0] == uid;
    assert AddAll([], [], owner) == [];
  }

  // A dedup hit that shares with one user reads the empty list and pauses before writing.
  lemma MergeReads(s: State, before: seq<Event>, t: State, rid: ReqId, id: MediaId, uid: UserId, c: Care)
    returns (events: seq<Event>, t': State)
    requires Leads(s, before, t, c) && rid in t.reqs && t.reqs[rid] == Upload(BigArgs(0, [uid]), Checked)
    requires KeyOf(BigArgs(0, [])) in t.w.dedup && t.w.dedup[KeyOf(BigArgs(0, []))] == id && Eligible(uid, OWNER)
    requires id in t.w.media && t.w.media[id].isActive && t.w.media[id].ownerId == OWNER
    requires t.w.media[id].sharedWith == None
    ensures Leads(s, events, t', c)
    ensures t' == State(t.w, t.reqs[rid := Upload(BigArgs(0, [uid]), MergeWrite(id, [uid]))])
  {
    hide Leads, BigArgs, KeyOf, Union, Eligible;
    var a := BigArgs(0, [uid]);
    BigKeys(0, [uid]);
    UnionOfOne(uid, OWNER);
    var t1: State;
    events, t1 := GoUpload(s, before, t, rid, Yes(), c);
    assert t1 == State(t.w, t.reqs[rid := Upload(a, DedupHit(id))]);
    events, t' := GoUpload(s, events, t1, rid, Yes(), c);
    assert t'.reqs == t.reqs[rid := Upload(a, MergeWrite(id, [uid]))];
  }

  lemma Write(s: State, before: seq<Event>, t: State, rid: ReqId, a: UploadArgs,
              id: MediaId, next: seq<UserId>, c: Care)
    returns (events: seq<Event>, t': State)
    requires Leads(s, before, t, c) && rid in t.reqs && t.reqs[rid] == Upload(a, MergeWrite(id, next))
    requires id in t.w.media
    ensures Leads(s, events, t', c)
    ensures t' == State(t.w.(media := t.w.media[id := t.w.media[id].(sharedWith := Some(next))]),
                        t.reqs[rid := Upload(a, MergeUncache(id))])
  {
    hide Leads;
    events, t' := GoUpload(s, before, t, rid, Yes(), c);
  }

  // Two uploads of an existing blob, one shared with bob and one with carol, both read the list before either
  // writes it. Both writes are made; bob is not on the list.
  lemma StaleMergeLosesReader() returns (s: State, events: seq<Event>, id: MediaId)
    ensures Init(s) && Run(s, events) && Along(s, events, BothClean)
    ensures IsUuid(BOB) && IsUuid(CAROL) && BOB != CAROL
    ensures var t := After(s, events);
      && id in t.w.media && t.w.media[id].isActive && t.w.media[id].sharedWith == Some([CAROL])
      && 1 in t.reqs && t.reqs[1] == Upload(BigArgs(0, [BOB]), MergeUncache(id))
      && 2 in t.reqs && t.reqs[2] == Upload(BigArgs(0, [CAROL]), MergeUncache(id))
  {
    hide Leads, BigArgs, KeyOf, IsUuid, Id, Dehydrate, Rehydrate, UploadStep;
    s, id := START, Id('0');
    StartIsInitial();
    ReadersAreUsers();
    RehydrateDehydrate(ONE_UPLOAD);
    var bob, carol := BigArgs(0, [BOB]), BigArgs(0, [CAROL]);
    var c := STRICT;
    var t: State;
    events, t := SaveOne(s, c);
    events, t := Index(s, events, t, 0, BigArgs(0, []), id, c);
    events, t := AdmitByCache(s, events, t, 1, bob, c);
    events, t := AdmitByCache(s, events, t, 2, carol, c);
    events, t := MergeReads(s, events, t, 1, id, BOB, c);
    events, t := MergeReads(s, events, t, 2, id, CAROL, c);
    events, t := Write(s, events, t, 1, bob, id, [BOB], c);
    events, t := Write(s, events, t, 2, carol, id, [CAROL], c);
    LeadsTo(s, events, t, c);
  }

  // ----- an upload that is never recorded -----

  /** OWNER is idle and charged for nothing, with these media active; none of them is in the dedup index. */
  ghost predicate UnpaidFor(t: State, ids: seq<MediaId>) {
    && Counter(t.w, OWNER) == 0 && t.w.dedup == map[]
    && OWNER in t.w.quota && t.w.quota[OWNER] == ONE_UPLOAD
    && (OWNER in t.w.quotaCache ==> t.w.quotaCache[OWNER] == Dehydrate(ONE_UPLOAD))
    && (forall id :: id in t.w.issued ==> id in ids)
    && (forall id :: id in t.w.media <==> id in ids)
    && forall id :: id in ids ==> KeptBig(t.w.media[id])
  }

  ghost predicate AllOver(t: State, n: nat) {
    forall rid :: rid in t.reqs ==> rid < n && t.reqs[rid].Upload? && t.reqs[rid].upc.UploadDone?
  }

  // One more upload, let in on the row that nothing is charged to.
  lemma EnterUncharged(s: State, before: seq<Event>, t: State, rid: ReqId, a: UploadArgs, c: Care)
    returns (events: seq<Event>, t': State)
    requires Leads(s, before, t, c) && rid !in t.reqs && Big(a) && Counter(t.w, OWNER) == 0 && t.w.dedup == map[]
    requires OWNER in t.w.quota && t.w.quota[OWNER] == ONE_UPLOAD
    requires OWNER in t.w.quotaCache ==> t.w.quotaCache[OWNER] == Dehydrate(ONE_UPLOAD)
    ensures Leads(s, events, t', c) && LetIn(t, t', rid, a)
    ensures OWNER in t'.w.quotaCache ==> t'.w.quotaCache[OWNER] == Dehydrate(ONE_UPLOAD)
  {
    hide Leads, Big, KeyOf, Dehydrate, Rehydrate;
    RehydrateDehydrate(ONE_UPLOAD);
    if OWNER in t.w.quotaCache {
      events, t' := EnterByCache(s, before, t, rid, a, c);
    } else {
      events, t' := EnterByTable(s, before, t, rid, a, c);
    }
  }

  // A failed upload gives the last slot back.
  lemma ReleaseLast(s: State, before: seq<Event>, t: State, rid: ReqId, a: UploadArgs, result: UploadResult, c: Care)
    returns (events: seq<Event>, t': State)
    requires Leads(s, before, t, c) && rid in t.reqs && t.reqs[rid] == Upload(a, Releasing(result))
    requires Counter(t.w, a.owner) == 1
    ensures Leads(s, events, t', c)
    ensures t' == State(t.w.(sem := t.w.sem - {a.owner}), t.reqs[rid := Upload(a, UploadDone(result))])
  {
    hide Leads;
    var t1: State;
    events, t1 := GoUpload(s, before, t, rid, Yes(), c);
    assert t1 == State(t.w.(sem := t.w.sem[a.owner := 0]), t.reqs[rid := Upload(a, DroppingKey(result))]);
    events, t' := GoUpload(s, events, t1, rid, Yes(), c);
    assert t'.reqs == t.reqs[rid := Upload(a, UploadDone(result))];
  }

  // The dedup SET throws: the row stays, the slot is given back, nothing is recorded.
  lemma IndexThrows(s: State, before: seq<Event>, t: State, rid: ReqId, a: UploadArgs, id: MediaId, c: Care)
    returns (events: seq<Event>, t': State)
    requires Leads(s, before, t, c) && rid in t.reqs && t.reqs[rid] == Upload(a, Saved(id))
         && Counter(t.w, a.owner) == 1
    ensures Leads(s, events, t', c)
    ensures t' == State(t.w.(sem := t.w.sem - {a.owner}),
                        t.reqs[rid := Upload(a, UploadDone(UploadFailed(CommandFailed)))])
  {
    hide Leads;
    var t1: State;
    events, t1 := GoUpload(s, before, t, rid, No(), c);
    assert t1 == State(t.w, t.reqs[rid := Upload(a, Releasing(UploadFailed(CommandFailed)))]);
    events, t' := ReleaseLast(s, events, t1, rid, a, UploadFailed(CommandFailed), c);
  }

  lemma StillUnpaid(t: State, t': State, ids: seq<MediaId>, id: MediaId, a: UploadArgs,
                    row: Media, result: UploadResult)
    requires UnpaidFor(t, ids) && AllOver(t, |ids|) && id !in ids && KeptBig(row)
    requires t'.reqs == t.reqs[|ids| := Upload(a, UploadDone(result))]
    requires t'.w.media == t.w.media[id := row] && t'.w.issued.Keys == t.w.issued.Keys + {id}
    requires t'.w.quota == t.w.quota && t'.w.dedup == t.w.dedup && Counter(t'.w, OWNER) == 0
    requires OWNER in t'.w.quotaCache ==> t'.w.quotaCache[OWNER] == Dehydrate(ONE_UPLOAD)
    ensures UnpaidFor(t', ids + [id]) && AllOver(t', |ids| + 1)
  {
    hide Dehydrate, KeptBig;
  }

  // Such an upload up to its save.
  lemma SaveUncharged(s: State, before: seq<Event>, t: State, rid: ReqId, a: UploadArgs, id: MediaId, c: Care)
    returns (events: seq<Event>, t': State)
    requires Leads(s, before, t, c) && rid !in t.reqs && Counter(t.w, OWNER) == 0 && t.w.dedup == map[]
    requires Big(a) && a.sharedWith == [] && UuidsOk(a, id) && id !in t.w.issued
    requires OWNER in t.w.quota && t.w.quota[OWNER] == ONE_UPLOAD
    requires OWNER in t.w.quotaCache ==> t.w.quotaCache[OWNER] == Dehydrate(ONE_UPLOAD)
    ensures Leads(s, events, t', c) && t'.reqs == t.reqs[rid := Upload(a, Saved(id))] && Counter(t'.w, OWNER) == 1
    ensures id in t'.w.media && KeptBig(t'.w.media[id]) && t'.w.media == t.w.media[id := t'.w.media[id]]
    ensures t'.w.issued.Keys == t.w.issued.Keys + {id} && t'.w.quota == t.w.quota && t'.w.dedup == t.w.dedup
    ensures OWNER in t'.w.quotaCache ==> t'.w.quotaCache[OWNER] == Dehydrate(ONE_UPLOAD)
  {
    BigFacts(a);
    hide Leads, KeyOf, UuidsOk, Dehydrate, NewRow, OriginOf, UploadStep, IsUuid, KeptBig, ExpiryOf, LetIn;
    var t1: State;
    events, t1 := EnterUncharged(s, before, t, rid, a, c);
    LetInKeeps(t, t1, rid, a);
    events, t' := StoreAndSave(s, events, t1, rid, a, id, c);
    SavedBig(t1.w, t'.w, a, id);
  }

  lemma LetInKeeps(t: State, t': State, rid: ReqId, a: UploadArgs)
    requires LetIn(t, t', rid, a)
    ensures t'.reqs == t.reqs[rid := Upload(a, Fresh)] && Counter(t'.w, OWNER) == Counter(t.w, OWNER) + 1
    ensures t'.w.media == t.w.media && t'.w.issued == t.w.issued && t'.w.quota == t.w.quota && t'.w.dedup == t.w.dedup
  {}

  lemma SavedBig(w: World, w': World, a: UploadArgs, id: MediaId)
    requires Big(a) && a.sharedWith == [] && UuidsOk(a, id)
    requires w'.media == w.media[id := NewRow(w, a, id, ExpiryOf(w, a))]
    ensures id in w'.media && KeptBig(w'.media[id])
  {
    hide UuidsOk, NewRow, ExpiryOf;
    BigRow(w, a, id);
  }

  lemma UnpaidFacts(t: State, ids: seq<MediaId>, id: MediaId)
    requires UnpaidFor(t, ids) && AllOver(t, |ids|) && id !in ids
    ensures |ids| !in t.reqs && id !in t.w.issued && Counter(t.w, OWNER) == 0 && t.w.dedup == map[]
    ensures OWNER in t.w.quota && t.w.quota[OWNER] == ONE_UPLOAD
    ensures OWNER in t.w.quotaCache ==> t.w.quotaCache[OWNER] == Dehydrate(ONE_UPLOAD)
  {}

  lemma OneMoreUnpaid(s: State, before: seq<Event>, t: State, ids: seq<MediaId>, id: MediaId, c: Care)
    returns (events: seq<Event>, t': State)
    requires Leads(s, before, t, c) && UnpaidFor(t, ids) && AllOver(t, |ids|) && IsUuid(id) && id !in ids
    ensures Leads(s, events, t', c) && UnpaidFor(t', ids + [id]) && AllOver(t', |ids| + 1)
  {
    IdIsUuid('0');
    assert OWNER == Id('0');
    UnpaidFacts(t, ids, id);
    hide Leads, BigArgs, Big, KeyOf, UploadStep, IsUuid, Id, Dehydrate, KeptBig, UnpaidFor, AllOver;
    var a, rid := BigArgs(0, []), |ids|;
    BigFacts(a);
    var t1: State;
    events, t1 := SaveUncharged(s, before, t, rid, a, id, c);
    events, t' := IndexThrows(s, events, t1, rid, a, id, c);
    assert t'.reqs == t.reqs[rid := Upload(a, UploadDone(UploadFailed(CommandFailed)))];
    StillUnpaid(t, t', ids, id, a, t1.w.media[id], UploadFailed(CommandFailed));
  }

  // A dedup SET that throws after the save leaves an active media that is never charged, so its owner is let in again
  // on the same row: with room for a single upload, any number of 100 MB media are kept while nothing counts as used.
  lemma {:induction false} UnpaidWithoutEnd(ids: seq<MediaId>) returns (s: State, events: seq<Event>)
    requires NoDuplicates(ids) && forall id :: id in ids ==> IsUuid(id)
    ensures Init(s) && Run(s, events) && Along(s, events, BothClean)
    ensures var t := After(s, events);
      && (forall id :: id in t.w.media <==> id in ids) && (forall id :: id in ids ==> KeptBig(t.w.media[id]))
      && (forall rid :: rid in t.reqs ==> t.reqs[rid].Upload? && t.reqs[rid].upc.UploadDone?)
      && OWNER in t.w.quota && t.w.quota[OWNER].storageUsed == 0 && t.w.quota[OWNER].storageLimit == UPLOAD_MAX_BYTES
  {
    s := START;
    StartIsInitial();
    var t: State;
    events, t := UnpaidRun(ids, STRICT);
    hide Leads;
    LeadsTo(s, events, t, STRICT);
  }

  lemma {:induction false} UnpaidRun(ids: seq<MediaId>, c: Care) returns (events: seq<Event>, t: State)
    requires NoDuplicates(ids) && forall id :: id in ids ==> IsUuid(id)
    ensures Leads(START, events, t, c) && UnpaidFor(t, ids) && AllOver(t, |ids|)
  {
    if ids == [] {
      Begin(START, c);
      events, t := [], START;
    } else {
      var n := |ids| - 1;
      hide Leads, IsUuid, UnpaidFor, AllOver;
      events, t := UnpaidRun(ids[..n], c);
      events, t := OneMoreUnpaid(START, events, t, ids[..n], ids[n], c);
      assert ids[..n] + [ids[n]] == ids;
    }
  }
}
