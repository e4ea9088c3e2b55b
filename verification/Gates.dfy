/**
 * What the outside world refuses stays refused, over whole runs.
 *
 * Two answers come from outside: the group service authorises a group icon, and the content-safety checks pass the
 * bytes. No id is generated, no stored media is reused and no row is saved for an upload before both were given; an
 * upload that was denied one of them ends with that error, and no object is ever stored for it.
 */
module Gates {
  import opened Base
  import opened Admission
  import opened Protocol
  import opened Frames
  import opened Invariant
  import opened Integrity

  datatype Gate = Authorisation | Safety

  /** The upload is past this gate, or has ended in a way that is only possible behind it. */
  predicate Behind(g: Gate, pc: UploadPc) {
    || (g == Authorisation && (pc.QuotaMiss? || pc.QuotaRead? || pc.Checked?))
    || pc.DedupHit? || pc.MergeWrite? || pc.MergeUncache? || pc.Fresh? || pc.BlobPut? || pc.ReadyToSave?
    || pc.CleanBlob? || pc.CleanThumb? || pc.Saved? || pc.Indexed? || pc.Recorded?
    || (HasResult(pc) && (pc.result.Uploaded? || pc.result.error.SaveFailed?))
  }

  ghost predicate HasId(w: World, rid: ReqId) {
    exists id :: id in w.issued && w.issued[id].rid == rid
  }

  ghost predicate Past(g: Gate, s: State, rid: ReqId) {
    (rid in s.reqs && s.reqs[rid].Upload? && Behind(g, s.reqs[rid].upc)) || HasId(s.w, rid)
  }

  /** Upload `rid` is given this answer: an uploader of a group icon is an admin, the bytes are safe. */
  predicate Answered(g: Gate, s: State, e: Event, rid: ReqId) {
    && e.Go? && e.rid == rid && rid in s.reqs && s.reqs[rid].Upload?
    && match g
       case Authorisation => s.reqs[rid].upc == Admitted && (s.reqs[rid].args.context == GroupIcon ==> e.ch.ok)
       case Safety => s.reqs[rid].upc == Checked && e.ch.ok
  }

  /** At some moment of the run upload `rid` was given this answer. */
  ghost predicate WasAnswered(g: Gate, s: State, events: seq<Event>, rid: ReqId)
    requires Run(s, events)
    decreases |events|
  {
    events != [] && (Answered(g, s, events[0], rid) || WasAnswered(g, Next(s, events[0]), events[1..], rid))
  }

  // ----- one step -----

  lemma UploadGate(g: Gate, w: World, rid: ReqId, a: UploadArgs, pc: UploadPc, ch: Choice)
    ensures var (w', pc') := UploadStep(w, rid, a, pc, ch);
      && (Behind(g, pc') && !Behind(g, pc) ==>
            match g
            case Authorisation => pc == Admitted && (a.context == GroupIcon ==> ch.ok)
            case Safety => pc == Checked && ch.ok)
  {
    hide MagicOk, Allowlist, ThumbnailError, UuidsOk, NewRow, BlobPath, ThumbPath, RowOrFresh, ActiveRow, KeyOf;
  }

  // Only behind both gates is an id generated, and it is this upload's.
  lemma UploadIssues(w: World, rid: ReqId, a: UploadArgs, pc: UploadPc, ch: Choice)
    ensures var w' := UploadStep(w, rid, a, pc, ch).0;
      w'.issued == w.issued
      || (pc == Fresh && ch.id in w'.issued && w'.issued == w.issued[ch.id := w'.issued[ch.id]]
          && w'.issued[ch.id].rid == rid)
  {
    hide AdmissionError, ThumbnailError, UuidsOk, NewRow, BlobPath, ThumbPath, RowOrFresh, ActiveRow, KeyOf;
  }

  lemma PastStep(g: Gate, s: State, e: Event, rid: ReqId)
    requires Enabled(s, e) && Past(g, Next(s, e), rid)
    ensures Past(g, s, rid) || Answered(g, s, e, rid)
  {
    var s' := Next(s, e);
    if e.Go? {
      var r := s.reqs[e.rid];
      if r.Upload? {
        UploadGate(g, s.w, e.rid, r.args, r.upc, e.ch);
        UploadIssues(s.w, e.rid, r.args, r.upc, e.ch);
        hide UploadStep;
        if HasId(s'.w, rid) && !HasId(s.w, rid) {
          var id :| id in s'.w.issued && s'.w.issued[id].rid == rid;
          assert id == e.ch.id;
        }
      } else {
        OtherFrame(s.w, e.rid, r, e.ch);
        hide Act;
        assert HasId(s'.w, rid) <==> HasId(s.w, rid);
      }
    } else {
      assert HasId(s'.w, rid) <==> HasId(s.w, rid);
    }
  }

  lemma {:induction false} PastRun(g: Gate, s: State, events: seq<Event>, rid: ReqId)
    requires Run(s, events) && Past(g, After(s, events), rid)
    ensures Past(g, s, rid) || WasAnswered(g, s, events, rid)
    decreases |events|
  {
    hide Past, Answered, Next, Enabled;
    if events != [] {
      PastRun(g, Next(s, events[0]), events[1..], rid);
      if Past(g, Next(s, events[0]), rid) {
        PastStep(g, s, events[0], rid);
      }
    }
  }

  // ----- nothing without both answers -----

  // Every row ever saved belongs to an upload that was authorised, if it is a group icon, and whose bytes the
  // content-safety checks passed.
  lemma SavedWasAnswered(s: State, events: seq<Event>, id: MediaId, g: Gate)
    requires Init(s) && Run(s, events) && id in After(s, events).w.media
    ensures var w := After(s, events).w; id in w.issued && WasAnswered(g, s, events, w.issued[id].rid)
  {
    Reachable(s, events);
    InvRow(After(s, events), id);
    hide Inv, RowShape, Backed, Run, After;
    PastRun(g, s, events, After(s, events).w.issued[id].rid);
  }

  // Neither is a stored media reused, nor reported, for an upload that was not.
  lemma ReusedWasAnswered(s: State, events: seq<Event>, rid: ReqId, g: Gate)
    requires Init(s) && Run(s, events) && rid in After(s, events).reqs && After(s, events).reqs[rid].Upload?
    requires var pc := After(s, events).reqs[rid].upc;
      pc.DedupHit? || pc.MergeWrite? || pc.MergeUncache? || (HasResult(pc) && pc.result.Uploaded?)
    ensures WasAnswered(g, s, events, rid)
  {
    PastRun(g, s, events, rid);
  }

  // ----- a refusal is final -----

  /** The upload has ended, or is giving its slot back, with this error, and no id was ever generated for it. */
  ghost predicate Ended(s: State, rid: ReqId, error: UploadError) {
    && rid in s.reqs && s.reqs[rid].Upload? && HasResult(s.reqs[rid].upc)
    && s.reqs[rid].upc.result == UploadFailed(error) && !HasId(s.w, rid)
  }

  lemma ResultStays(w: World, rid: ReqId, a: UploadArgs, pc: UploadPc, ch: Choice)
    requires HasResult(pc)
    ensures var (w', pc') := UploadStep(w, rid, a, pc, ch);
      HasResult(pc') && pc'.result == pc.result && w'.issued == w.issued
  {}

  lemma EndedStep(s: State, e: Event, rid: ReqId, error: UploadError)
    requires Enabled(s, e) && Ended(s, rid, error)
    ensures Ended(Next(s, e), rid, error)
  {
    var s' := Next(s, e);
    if e.Go? {
      var r := s.reqs[e.rid];
      if r.Upload? {
        UploadIssues(s.w, e.rid, r.args, r.upc, e.ch);
        if HasResult(r.upc) {
          ResultStays(s.w, e.rid, r.args, r.upc, e.ch);
        }
      } else {
        OtherFrame(s.w, e.rid, r, e.ch);
      }
      hide UploadStep;
      assert !HasId(s'.w, rid) by {
        forall id | id in s'.w.issued ensures s'.w.issued[id].rid != rid {
          assert id in s.w.issued ==> s.w.issued[id].rid != rid;
        }
      }
    } else {
      assert HasId(s'.w, rid) <==> HasId(s.w, rid);
    }
  }

  lemma {:induction false} EndedRun(s: State, events: seq<Event>, rid: ReqId, error: UploadError)
    requires Run(s, events) && Ended(s, rid, error)
    ensures Ended(After(s, events), rid, error)
    decreases |events|
  {
    hide Ended, Next, Enabled;
    if events != [] {
      EndedStep(s, events[0], rid, error);
      EndedRun(Next(s, events[0]), events[1..], rid, error);
    }
  }

  /** An upload that has generated an id has passed the step that does. */
  ghost predicate IdsDrawn(s: State) {
    forall id :: id in s.w.issued ==>
      var rid := s.w.issued[id].rid;
      rid in s.reqs && s.reqs[rid].Upload? && AfterId(s.reqs[rid].upc)
  }

  predicate AfterId(pc: UploadPc) {
    || pc.BlobPut? || pc.ReadyToSave? || pc.CleanBlob? || pc.CleanThumb? || pc.Saved? || pc.Indexed? || pc.Recorded?
    || HasResult(pc)
  }

  lemma UploadDraws(w: World, rid: ReqId, a: UploadArgs, pc: UploadPc, ch: Choice)
    ensures var (w', pc') := UploadStep(w, rid, a, pc, ch); AfterId(pc) || w'.issued != w.issued ==> AfterId(pc')
  {
    hide AdmissionError, ThumbnailError, UuidsOk, NewRow, BlobPath, ThumbPath, RowOrFresh, ActiveRow, KeyOf;
  }

  lemma DrawnStep(s: State, e: Event)
    requires Enabled(s, e) && IdsDrawn(s)
    ensures IdsDrawn(Next(s, e))
  {
    var s' := Next(s, e);
    if e.Go? {
      var r := s.reqs[e.rid];
      if r.Upload? {
        UploadIssues(s.w, e.rid, r.args, r.upc, e.ch);
        UploadDraws(s.w, e.rid, r.args, r.upc, e.ch);
      } else {
        OtherFrame(s.w, e.rid, r, e.ch);
      }
      hide UploadStep, AfterId;
    }
  }

  lemma {:induction false} DrawnRun(s: State, events: seq<Event>)
    requires Run(s, events) && IdsDrawn(s)
    ensures IdsDrawn(After(s, events))
    decreases |events|
  {
    hide IdsDrawn, Next, Enabled;
    if events != [] {
      DrawnStep(s, events[0]);
      DrawnRun(Next(s, events[0]), events[1..]);
    }
  }

  lemma NoIdYet(s: State, rid: ReqId)
    requires IdsDrawn(s) && rid in s.reqs && s.reqs[rid].Upload? && !AfterId(s.reqs[rid].upc)
    ensures !HasId(s.w, rid)
  {}

  lemma DeniedStep(w: World, rid: ReqId, a: UploadArgs, pc: UploadPc, ch: Choice)
    requires !ch.ok && (pc == Checked || (pc == Admitted && a.context == GroupIcon))
    ensures UploadStep(w, rid, a, pc, ch)
         == (w, Releasing(UploadFailed(if pc == Checked then Unsafe else NotAuthorized)))
  {}

  // An upload that is denied an answer ends with that error, whatever follows, and no id is ever generated for it,
  // so that no object, no row and no index entry of it exists at any later moment.
  lemma DeniedMeansNothing(s: State, before: seq<Event>, rid: ReqId, ch: Choice, more: seq<Event>)
    requires Init(s) && Run(s, before) && rid in After(s, before).reqs && After(s, before).reqs[rid].Upload?
    requires var r := After(s, before).reqs[rid];
      !ch.ok && (r.upc == Checked || (r.upc == Admitted && r.args.context == GroupIcon))
    requires Run(Next(After(s, before), Go(rid, ch)), more)
    ensures var t := After(Next(After(s, before), Go(rid, ch)), more);
      && rid in t.reqs && t.reqs[rid].Upload? && HasResult(t.reqs[rid].upc)
      && t.reqs[rid].upc.result
           == UploadFailed(if After(s, before).reqs[rid].upc == Checked then Unsafe else NotAuthorized)
      && forall id :: id in t.w.issued ==> t.w.issued[id].rid != rid
  {
    var t := After(s, before);
    var error := if t.reqs[rid].upc == Checked then Unsafe else NotAuthorized;
    DrawnRun(s, before);
    hide Init, Run, After, UploadStep, IdsDrawn;
    NoIdYet(t, rid);
    var t1 := Next(t, Go(rid, ch));
    DeniedStep(t.w, rid, t.reqs[rid].args, t.reqs[rid].upc, ch);
    assert t1.w == t.w && t1.reqs[rid].upc == Releasing(UploadFailed(error));
    EndedRun(t1, more, rid, error);
  }
}
