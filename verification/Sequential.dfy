/**
 * One call running alone, from its first command to its last: the machine's own steps, one after the other.
 *
 * These functions specify the methods of the two services. A call that runs alone is also a run of the machine,
 * so what holds of all runs holds of it.
 */
module Sequential {
  import opened Base
  import opened Paths
  import opened Acl
  import opened Protocol

  /** How the outside world answers one upload: which commands succeed, which caches answer, the UUID drawn. */
  datatype Fate = Fate(
    authorised: bool,
    quotaHit: bool, quotaTableOk: bool, quotaSetOk: bool,
    safe: bool, dedupHit: bool, findOk: bool, mergeOk: bool, uncacheOk: bool,
    id: MediaId, putOk: bool, thumbPutOk: bool, saveOk: bool, blobCleanOk: bool, thumbCleanOk: bool,
    indexOk: bool, recordOk: bool, flushOk: bool)

  function Answer(ok: bool): Choice {
    Choice(ok, true, "", "")
  }

  function ChoiceAt(f: Fate, pc: UploadPc): Choice {
    match pc
    case Admitted => Choice(f.authorised, f.quotaHit, "", "")
    case QuotaMiss => Answer(f.quotaTableOk)
    case QuotaRead(_) => Answer(f.quotaSetOk)
    case Checked => Choice(f.safe, f.dedupHit, "", "")
    case DedupHit(_) => Answer(f.findOk)
    case MergeWrite(_, _) => Answer(f.mergeOk)
    case MergeUncache(_) => Answer(f.uncacheOk)
    case Fresh => Choice(f.putOk, true, f.id, "")
    case BlobPut(_) => Answer(f.thumbPutOk)
    case ReadyToSave(_, _) => Answer(f.saveOk)
    case CleanBlob(_) => Answer(f.blobCleanOk)
    case CleanThumb(_, _) => Answer(f.thumbCleanOk)
    case Saved(_) => Answer(f.indexOk)
    case Indexed(_) => Answer(f.recordOk)
    case Recorded(_) => Answer(f.flushOk)
    case _ => Answer(true)
  }

  /** An upper bound on the steps still to come. */
  function Rank(pc: UploadPc): nat {
    match pc
    case Arriving => 15
    case Admitted => 14
    case QuotaMiss => 13
    case QuotaRead(_) => 12
    case Checked => 11
    case DedupHit(_) => 10
    case MergeWrite(_, _) => 9
    case MergeUncache(_) => 8
    case Fresh => 9
    case BlobPut(_) => 8
    case ReadyToSave(_, _) => 7
    case CleanBlob(_) => 4
    case CleanThumb(_, _) => 3
    case Saved(_) => 6
    case Indexed(_) => 5
    case Recorded(_) => 4
    case Releasing(_) => 2
    case DroppingKey(_) => 1
    case Rejecting => 1
    case UploadDone(_) => 0
  }

  lemma RankDrops(w: World, rid: ReqId, a: UploadArgs, pc: UploadPc, ch: Choice)
    requires !pc.UploadDone?
    ensures Rank(UploadStep(w, rid, a, pc, ch).1) < Rank(pc)
  {
    hide AdmissionError, ThumbnailError, UuidsOk, ActiveRow, Union;
  }

  function UploadAlone(w: World, rid: ReqId, a: UploadArgs, pc: UploadPc, f: Fate): (World, UploadResult)
    decreases Rank(pc)
  {
    if pc.UploadDone? then (w, pc.result)
    else
      var (w', pc') := UploadStep(w, rid, a, pc, ChoiceAt(f, pc));
      RankDrops(w, rid, a, pc, ChoiceAt(f, pc));
      UploadAlone(w', rid, a, pc', f)
  }

  function DeleteRank(pc: DeletePc): nat {
    match pc
    case Finding => 6
    case RemovingBlob(_) => 5
    case RemovingThumb(_) => 4
    case DroppingMeta(_) => 3
    case Refunding(_) => 2
    case Uncaching(_) => 1
    case DeleteDone(_) => 0
  }

  function DeleteAlone(w: World, rid: ReqId, id: MediaId, requester: UserId, pc: DeletePc, flushOk: bool)
    : (World, DeleteResult)
    decreases DeleteRank(pc)
  {
    if pc.DeleteDone? then (w, pc.result)
    else
      var (w', pc') := DeleteStep(w, rid, id, requester, pc, Answer(flushOk));
      DeleteAlone(w', rid, id, requester, pc', flushOk)
  }

  function ShareAlone(w: World, id: MediaId, requester: UserId, users: seq<UserId>): (World, ShareResult) {
    var (w1, pc1) := ShareStep(w, id, requester, users, Sharing);
    if pc1.ShareDone? then (w1, pc1.result)
    else
      var (w2, pc2) := ShareStep(w1, id, requester, users, pc1);
      (w2, pc2.result)
  }

  function MetaAlone(w: World, id: MediaId, requester: UserId): (World, MetaResult) {
    var (w1, pc1) := MetaStep(w, id, requester, MetaStart);
    if pc1.MetaDone? then (w1, pc1.result)
    else
      var (w2, pc2) := MetaStep(w1, id, requester, pc1);
      if pc2.MetaDone? then (w2, pc2.result)
      else
        var (w3, pc3) := MetaStep(w2, id, requester, pc2);
        (w3, pc3.result)
  }

  // ----- a call alone is a run of the machine -----

  /** The id has still to be drawn. */
  predicate BeforeId(pc: UploadPc) {
    pc.Arriving? || pc.Admitted? || pc.QuotaMiss? || pc.QuotaRead? || pc.Checked? || pc.DedupHit? || pc.Fresh?
  }

  lemma IdStaysUnissued(w: World, rid: ReqId, a: UploadArgs, pc: UploadPc, ch: Choice)
    ensures var (w', pc') := UploadStep(w, rid, a, pc, ch); BeforeId(pc') ==> BeforeId(pc) && w'.issued == w.issued
  {
    hide AdmissionError, ThumbnailError, UuidsOk, ActiveRow, Union;
  }

  /** After these events request `rid` is done and the world is as its run alone leaves it. */
  ghost predicate Finishes(s: State, events: seq<Event>, rid: ReqId, a: UploadArgs,
                           f: Fate, end: (World, UploadResult)) {
    Run(s, events) && After(s, events) == State(end.0, s.reqs[rid := Upload(a, UploadDone(end.1))])
  }

  lemma {:induction false} UploadRunsOnMachine(s: State, rid: ReqId, a: UploadArgs, pc: UploadPc, f: Fate)
    returns (events: seq<Event>)
    requires rid in s.reqs && s.reqs[rid] == Upload(a, pc)
    requires IsUuid(f.id) && (BeforeId(pc) ==> f.id !in s.w.issued)
    ensures Finishes(s, events, rid, a, f, UploadAlone(s.w, rid, a, pc, f))
    decreases Rank(pc)
  {
    hide UploadStep, IsUuid;
    if pc.UploadDone? {
      events := [];
      assert s.reqs[rid := Upload(a, pc)] == s.reqs;
    } else {
      var ch := ChoiceAt(f, pc);
      RankDrops(s.w, rid, a, pc, ch);
      IdStaysUnissued(s.w, rid, a, pc, ch);
      var e, t := Go(rid, ch), Next(s, Go(rid, ch));
      assert Enabled(s, e);
      var pc' := UploadStep(s.w, rid, a, pc, ch).1;
      assert t.reqs == s.reqs[rid := Upload(a, pc')];
      var rest := UploadRunsOnMachine(t, rid, a, pc', f);
      events := [e] + rest;
      assert events[1..] == rest;
      assert t.reqs[rid := Upload(a, UploadDone(UploadAlone(s.w, rid, a, pc, f).1))]
          == s.reqs[rid := Upload(a, UploadDone(UploadAlone(s.w, rid, a, pc, f).1))];
    }
  }

  lemma {:induction false} DeleteRunsOnMachine(s: State, rid: ReqId, id: MediaId, requester: UserId, pc: DeletePc,
                                                flushOk: bool)
    returns (events: seq<Event>)
    requires rid in s.reqs && s.reqs[rid] == Delete(id, requester, pc)
    ensures var (w', result) := DeleteAlone(s.w, rid, id, requester, pc, flushOk);
      Run(s, events) && After(s, events) == State(w', s.reqs[rid := Delete(id, requester, DeleteDone(result))])
    decreases DeleteRank(pc)
  {
    if pc.DeleteDone? {
      events := [];
      assert s.reqs[rid := Delete(id, requester, pc)] == s.reqs;
    } else {
      var ch := Answer(flushOk);
      var e, t := Go(rid, ch), Next(s, Go(rid, ch));
      var pc' := DeleteStep(s.w, rid, id, requester, pc, ch).1;
      assert Enabled(s, e) && DeleteRank(pc') < DeleteRank(pc);
      hide DeleteStep;
      var rest := DeleteRunsOnMachine(t, rid, id, requester, pc', flushOk);
      events := [e] + rest;
      assert events[1..] == rest;
      var last := Delete(id, requester, DeleteDone(DeleteAlone(s.w, rid, id, requester, pc, flushOk).1));
      assert t.reqs[rid := last] == s.reqs[rid := last];
    }
  }
}
