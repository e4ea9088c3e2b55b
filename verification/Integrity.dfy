/** What holds of the media table, the object store and the dedup index at every step of every interleaving. */
module Integrity {
  import opened Base
  import opened Paths
  import opened Quota
  import opened Acl
  import opened Admission
  import opened Protocol
  import opened Invariant
  import opened OtherSteps

  // ----- runs -----

  lemma InvGo(s: State, rid: ReqId, ch: Choice)
    requires Inv(s) && Enabled(s, Go(rid, ch))
    ensures Inv(Next(s, Go(rid, ch)))
  {
    hide StoreInv, Guarantee, Local, Act, ChoiceOk;
    var r := s.reqs[rid];
    var (w', r') := Act(s.w, rid, r, ch);
    ActFine(s.w, rid, r, ch);
    var s' := Next(s, Go(rid, ch));
    forall other | other in s'.reqs ensures Local(s'.w, other, s'.reqs[other]) {
      if other != rid {
        Stable(s.w, w', rid, other, s.reqs[other]);
      }
    }
  }

  lemma RowsLater(w: World, w': World)
    requires RowsOk(w) && w.now <= w'.now
    requires w' == w.(now := w'.now, sem := w'.sem, quotaCache := w'.quotaCache, dedup := w'.dedup, meta := w'.meta)
    ensures RowsOk(w')
  {
    hide Admissible, BlobPath, ThumbPath, IsUuid, WellFormed, ObjectIdOf;
    forall i | i in w'.media ensures RowShape(w', i, w'.media[i]) && Backed(w', i, w'.media[i]) {
      assert RowShape(w, i, w.media[i]) && Backed(w, i, w.media[i]);
    }
  }

  lemma StoresLater(w: World, w': World)
    requires StoreInv(w) && w.now <= w'.now
    requires w' == w.(now := w'.now, sem := w'.sem, quotaCache := w'.quotaCache, dedup := w'.dedup, meta := w'.meta)
    requires w'.quotaCache.Keys <= w.quotaCache.Keys && w'.dedup.Keys <= w.dedup.Keys
    requires forall key :: key in w'.dedup ==> w'.dedup[key] == w.dedup[key]
    ensures StoreInv(w')
  {
    RowsLater(w, w');
    hide RowsOk, WellFormed, ObjectIdOf;
    forall key | key in w'.dedup ensures Matches(w', w'.dedup[key], key) {
      assert Matches(w, w.dedup[key], key);
    }
  }

  // Clock ticks and expiring keys disturb nobody.
  lemma InvEnvironment(s: State, e: Event)
    requires Inv(s) && !e.Go? && !e.Spawn?
    ensures Inv(Next(s, e))
  {
    var w, w' := s.w, Next(s, e).w;
    StoresLater(w, w');
    hide StoreInv, Admissible, WellFormed, BlobPath, ThumbPath, IsUuid, UploadLocal;
    forall rid | rid in s.reqs ensures Local(w', rid, s.reqs[rid]) {
      LocalIgnoresClock(w, w', rid, s.reqs[rid]);
    }
  }

  lemma LocalIgnoresClock(w: World, w': World, rid: ReqId, r: Req)
    requires Local(w, rid, r) && w.now <= w'.now
    requires w' == w.(now := w'.now, sem := w'.sem, quotaCache := w'.quotaCache, dedup := w'.dedup, meta := w'.meta)
    ensures Local(w', rid, r)
  {
    hide Admissible, WellFormed, BlobPath, ThumbPath, IsUuid;
  }

  lemma InvStep(s: State, e: Event)
    requires Inv(s) && Enabled(s, e)
    ensures Inv(Next(s, e))
  {
    hide Inv, Act;
    match e
    case Go(rid, ch) => InvGo(s, rid, ch);
    case Spawn(rid, r) => InvSpawn(s, rid, r);
    case _ => InvEnvironment(s, e);
  }

  lemma InvSpawn(s: State, rid: ReqId, r: Req)
    requires Inv(s) && Enabled(s, Spawn(rid, r))
    ensures Inv(Next(s, Spawn(rid, r)))
  {
    hide StoreInv;
  }

  lemma InitInv(s: State)
    requires Init(s)
    ensures Inv(s)
  {}

  lemma {:induction false} InvRun(s: State, events: seq<Event>)
    requires Inv(s) && Run(s, events)
    ensures Inv(After(s, events))
    decreases |events|
  {
    hide Inv, Next, Enabled;
    if events != [] {
      InvStep(s, events[0]);
      InvRun(Next(s, events[0]), events[1..]);
    }
  }

  lemma Reachable(s: State, events: seq<Event>)
    requires Init(s) && Run(s, events)
    ensures Inv(After(s, events))
  {
    InitInv(s);
    InvRun(s, events);
  }

  // ----- what the invariant means to a client -----

  // At every step of every interleaving, an active media has its blob in the object store, and its thumbnail
  // exactly when one was uploaded with it, both byte for byte as uploaded.
  lemma ActiveMeansStored(s: State, events: seq<Event>, id: MediaId)
    requires Init(s) && Run(s, events)
    ensures var w := After(s, events).w;
      id in w.media && w.media[id].isActive ==>
        && id in w.issued
        && w.media[id].storagePath in w.objects && w.objects[w.media[id].storagePath] == w.issued[id].content
        && (w.media[id].thumbnailPath.Some? <==> w.issued[id].thumb.Some?)
        && (w.media[id].thumbnailPath.Some? ==>
              && w.media[id].thumbnailPath.value in w.objects
              && w.objects[w.media[id].thumbnailPath.value] == w.issued[id].thumb.value)
  {
    Reachable(s, events);
    var w := After(s, events).w;
    if id in w.media {
      RowFacts(w, id);
    }
  }

  // Every row ever saved passed admission: a size within its context's limit, a type on its context's allowlist
  // and, opaque blobs excepted, content carrying a signature of exactly that type. Messages, and only they, have
  // an expiry: one message lifetime after a moment between the generation of the id and the creation of the row.
  lemma SavedMeansAdmitted(s: State, events: seq<Event>, id: MediaId)
    requires Init(s) && Run(s, events)
    ensures var w := After(s, events).w;
      id in w.media ==>
        var row := w.media[id];
        && id in w.issued && row.contentType in Allowlist(row.context)
        && 0 <= row.blobSize <= (if row.context == Message then 104_857_600 else 5_242_880)
        && (row.contentType == OCTET_STREAM
            || (Signatures(row.contentType).Some?
                && MatchesAny(w.issued[id].content, Signatures(row.contentType).value)))
        && (row.expiresAt.Some? <==> row.context == Message)
        && (row.context == Message ==>
              w.issued[id].at <= row.expiresAt.value - w.config.messageTtlDays * 86_400_000 <= row.createdAt <= w.now)
  {
    hide Allowlist, MatchesAny, Signatures, Inv;
    Reachable(s, events);
    var w := After(s, events).w;
    if id in w.media {
      InvRow(After(s, events), id);
      AdmissibleMeans(File(w.issued[id].content, w.media[id].blobSize, w.media[id].contentType), w.media[id].context);
    }
  }

  lemma InvRow(s: State, id: MediaId)
    requires Inv(s) && id in s.w.media
    ensures RowShape(s.w, id, s.w.media[id]) && Backed(s.w, id, s.w.media[id])
  {
    RowFacts(s.w, id);
  }

  // No step of a delete removes an object of another media, nor one that another upload is still working on.
  lemma DeleteSparesOthers(s: State, events: seq<Event>, rid: ReqId, ch: Choice, p: Path)
    requires Init(s) && Run(s, events) && Enabled(After(s, events), Go(rid, ch))
    requires After(s, events).reqs[rid].Delete?
    ensures var t := After(s, events);
      ObjectIdOf(p) != t.reqs[rid].id ==>
        var w' := Next(t, Go(rid, ch)).w;
        (p in t.w.objects <==> p in w'.objects) && (p in t.w.objects ==> w'.objects[p] == t.w.objects[p])
  {
    hide Inv, Init, Run;
    Reachable(s, events);
    if ObjectIdOf(p) != After(s, events).reqs[rid].id {
      DeleteStepSparesOthers(After(s, events), rid, ch, p);
    }
  }

  lemma DeleteStepSparesOthers(t: State, rid: ReqId, ch: Choice, p: Path)
    requires Inv(t) && rid in t.reqs && t.reqs[rid].Delete? && ObjectIdOf(p) != t.reqs[rid].id
    ensures var w' := Act(t.w, rid, t.reqs[rid], ch).0;
        (p in t.w.objects <==> p in w'.objects) && (p in t.w.objects ==> w'.objects[p] == t.w.objects[p])
  {
    hide StoreInv, ObjectIdOf, BlobPath, ThumbPath, IsUuid, Admissible, ValidBlobSize, Refund, Backed;
    var r := t.reqs[rid];
    assert Local(t.w, rid, r);
    if r.dpc.RemovingBlob? || r.dpc.RemovingThumb? {
      InvRow(t, r.id);
      PathIds(r.dpc.row.context, r.dpc.row.ownerId, r.id);
    }
  }

  // A failed save whose cleanup deletes succeeded has left nothing behind: neither row nor object of its id
  // exists, now or at any later moment, and before the upload generated that id no such object existed either.
  lemma CleanedMeansGone(s: State, events: seq<Event>, rid: ReqId, id: MediaId)
    requires Init(s) && Run(s, events)
    requires var t := After(s, events);
      && rid in t.reqs && t.reqs[rid].Upload? && HasResult(t.reqs[rid].upc)
      && t.reqs[rid].upc.result == UploadFailed(SaveFailed(id, true))
    ensures var t := After(s, events);
      var a := t.reqs[rid].args;
      && UuidsOk(a, id) && id !in t.w.media
      && BlobPath(a.context, a.owner, id) !in t.w.objects
      && (a.thumb.Some? ==> ThumbPath(a.owner, id) !in t.w.objects)
  {
    hide Init, Run, After, BlobPath, ThumbPath, IsUuid, Admissible, WellFormed, StoreInv, UuidsOk;
    Reachable(s, events);
    var t := After(s, events);
    assert Local(t.w, rid, t.reqs[rid]);
  }

  lemma UnissuedMeansAbsent(s: State, events: seq<Event>, context: Context, owner: UserId, id: MediaId)
    requires Init(s) && Run(s, events) && IsUuid(owner) && IsUuid(id)
    requires id !in After(s, events).w.issued
    ensures BlobPath(context, owner, id) !in After(s, events).w.objects
    ensures ThumbPath(owner, id) !in After(s, events).w.objects
  {
    Reachable(s, events);
    PathIds(context, owner, id);
    hide BlobPath, ThumbPath, IsUuid, Admissible, WellFormed, Init, Run;
    assert ObjectsOwned(After(s, events).w);
  }

  // Dedup soundness: whatever was deleted or raced, an index entry names a row of the same owner, context and
  // bytes; if that row is active a hit hands out an object with exactly the bytes of the new upload, and if it
  // is not, the upload goes on as a fresh one.
  lemma DedupHitIsIdentical(s: State, events: seq<Event>, rid: ReqId, ch: Choice)
    requires Init(s) && Run(s, events) && Enabled(After(s, events), Go(rid, ch))
    requires After(s, events).reqs[rid].Upload? && After(s, events).reqs[rid].upc.DedupHit? && ch.ok
    ensures var t := After(s, events);
      var a, id, pc' := t.reqs[rid].args, t.reqs[rid].upc.id, Next(t, Go(rid, ch)).reqs[rid].upc;
      && id in t.w.media && t.w.media[id].ownerId == a.owner && t.w.media[id].context == a.context
      && (t.w.media[id].isActive ==>
            && t.w.media[id].storagePath in t.w.objects
            && t.w.objects[t.w.media[id].storagePath] == a.file.content
            && (pc' == Releasing(Uploaded(id)) || pc'.MergeWrite?))
      && (!t.w.media[id].isActive ==> pc' == Fresh)
  {
    Reachable(s, events);
    var t := After(s, events);
    hide Init, Run, After, BlobPath, ThumbPath, IsUuid, Admissible, WellFormed, Union;
    assert Local(t.w, rid, t.reqs[rid]);
    RowFacts(t.w, t.reqs[rid].upc.id);
    hide StoreInv;
  }

  // The result an upload reports is a row of its own owner and context whose bytes are those it sent.
  lemma UploadedMeansOwnContent(s: State, events: seq<Event>, rid: ReqId, id: MediaId)
    requires Init(s) && Run(s, events)
    requires rid in After(s, events).reqs && After(s, events).reqs[rid].Upload?
    requires After(s, events).reqs[rid].upc == UploadDone(Uploaded(id))
    ensures var t := After(s, events);
      var a := t.reqs[rid].args;
      && id in t.w.media && id in t.w.issued
      && t.w.media[id].ownerId == a.owner && t.w.media[id].context == a.context
      && t.w.issued[id].content == a.file.content
  {
    Reachable(s, events);
    var t := After(s, events);
    hide Init, Run, After, BlobPath, ThumbPath, IsUuid, Admissible, WellFormed, StoreInv;
    assert Local(t.w, rid, t.reqs[rid]);
  }
}
