/**
 * The quota cache against the quota table: a cached entry equals its row whenever no invalidation for that user
 * is outstanding, so the pre-upload check then decides as it would from the database.
 */
module QuotaCache {
  import opened Base
  import opened Quota
  import opened Protocol
  import opened Frames
  import opened Invariant
  import opened Integrity
  import opened Overshoot

  /** The request has changed the row of `u` and has not yet dropped the cached copy. */
  predicate Owes(r: Req, u: UserId) {
    || (r.Upload? && r.upc.Recorded? && r.args.owner == u)
    || (r.Delete? && r.dpc.Uncaching? && r.requester == u)
    || (r.Reset? && r.rpc.ResetUncache? && u in r.rpc.users)
  }

  ghost predicate Outstanding(s: State, u: UserId) {
    exists rid :: rid in s.reqs && Owes(s.reqs[rid], u)
  }

  predicate EntryCurrent(w: World, u: UserId) {
    u in w.quotaCache ==> u in w.quota && w.quotaCache[u] == Dehydrate(w.quota[u])
  }

  ghost predicate AgreeInv(s: State, u: UserId) {
    EntryCurrent(s.w, u) || Outstanding(s, u)
  }

  /** The invalidations after a refund and after the daily reset do not fail. */
  predicate RefundFlushed(s: State, e: Event) {
    e.Go? && e.rid in s.reqs ==>
      match s.reqs[e.rid]
      case Delete(_, _, Uncaching(_)) => e.ch.ok
      case Reset(ResetUncache(_)) => e.ch.ok
      case _ => true
  }

  /** No cache SET is late and no invalidation fails. */
  predicate AgreeClean(s: State, e: Event) {
    QuotaClean(s, e) && RefundFlushed(s, e)
  }

  // ----- what a step of each request does to one user -----

  /** A changed row leaves an invalidation outstanding, a changed entry is current, and an invalidation is done
      only by dropping the entry. */
  predicate Accounts(w: World, w': World, r: Req, r': Req, u: UserId) {
    && (SameRow(w, w', u) || Owes(r', u) || (u !in w.quota && u in w'.quota))
    && EntryFollows(w, w', u)
    && (Owes(r, u) && !Owes(r', u) ==> u !in w'.quotaCache)
  }

  lemma UploadAccounts(w: World, rid: ReqId, a: UploadArgs, pc: UploadPc, ch: Choice, u: UserId)
    requires pc.QuotaRead? && ch.ok ==> a.owner in w.quota && w.quota[a.owner] == pc.row
    requires pc.Recorded? ==> ch.ok
    ensures var (w', pc') := UploadStep(w, rid, a, pc, ch);
      Accounts(w, w', Upload(a, pc), Upload(a, pc'), u)
  {
    UploadRow(w, rid, a, pc, ch, u);
    UploadEntry(w, rid, a, pc, ch, u);
    OnlyRecordedOwes(w, rid, a, pc, ch);
    hide UploadStep, Dehydrate, Charge;
  }

  lemma OnlyRecordedOwes(w: World, rid: ReqId, a: UploadArgs, pc: UploadPc, ch: Choice)
    ensures pc.Recorded? ==> !UploadStep(w, rid, a, pc, ch).1.Recorded?
  {}

  lemma DeleteAccounts(w: World, rid: ReqId, id: MediaId, requester: UserId, pc: DeletePc, ch: Choice, u: UserId)
    requires pc.Uncaching? ==> ch.ok
    ensures var (w', pc') := DeleteStep(w, rid, id, requester, pc, ch);
      Accounts(w, w', Delete(id, requester, pc), Delete(id, requester, pc'), u)
  {
    hide Dehydrate, Refund;
  }

  lemma AlertAccounts(w: World, v: UserId, pc: AlertPc, ch: Choice, u: UserId)
    requires pc.AlertRead? && ch.ok ==> v in w.quota && w.quota[v] == pc.row
    ensures var (w', pc') := AlertStep(w, v, pc, ch); Accounts(w, w', Alert(v, pc), Alert(v, pc'), u)
  {
    hide Dehydrate, Rehydrate;
  }

  lemma ResetAccounts(w: World, pc: ResetPc, ch: Choice, u: UserId)
    requires pc.ResetUncache? ==> ch.ok
    ensures var (w', pc') := ResetStep(w, pc, ch); Accounts(w, w', Reset(pc), Reset(pc'), u)
  {
    hide Dehydrate;
    if pc.ResetStart? && u in w.quota {
      ResetUsersExact(w.quota, Today(w), u);
    }
  }

  lemma ActAccounts(s: State, rid: ReqId, ch: Choice, u: UserId)
    requires rid in s.reqs && AgreeClean(s, Go(rid, ch))
    ensures var (w', r') := Act(s.w, rid, s.reqs[rid], ch); Accounts(s.w, w', s.reqs[rid], r', u)
  {
    hide UploadStep, DeleteStep, ShareStep, MetaStep, BlobStep, AlertStep, ResetStep, Dehydrate;
    var w := s.w;
    match s.reqs[rid]
    case Upload(a, pc) => UploadAccounts(w, rid, a, pc, ch, u);
    case Delete(id, requester, pc) => DeleteAccounts(w, rid, id, requester, pc, ch, u);
    case Share(id, requester, users, pc) => ShareFrame(w, id, requester, users, pc);
    case GetMeta(id, requester, pc) => MetaFrame(w, id, requester, pc);
    case GetBlob(id, requester, pc) => BlobFrame(w, id, requester, pc);
    case Alert(v, pc) => AlertAccounts(w, v, pc, ch, u);
    case Reset(pc) => ResetAccounts(w, pc, ch, u);
  }

  // ----- one step -----

  lemma AgreeGo(s: State, rid: ReqId, ch: Choice, u: UserId)
    requires Inv(s) && Enabled(s, Go(rid, ch)) && AgreeInv(s, u) && AgreeClean(s, Go(rid, ch))
    ensures AgreeInv(Next(s, Go(rid, ch)), u)
  {
    CacheRows(s.w);
    ActAccounts(s, rid, ch, u);
    hide Inv, Act, Dehydrate;
    var s' := Next(s, Go(rid, ch));
    if Outstanding(s, u) {
      var other :| other in s.reqs && Owes(s.reqs[other], u);
      if other != rid {
        assert s'.reqs[other] == s.reqs[other];
      }
    }
    assert rid in s'.reqs;
  }

  lemma AgreeStep(s: State, e: Event, u: UserId)
    requires Inv(s) && Enabled(s, e) && AgreeInv(s, u) && AgreeClean(s, e)
    ensures AgreeInv(Next(s, e), u)
  {
    if e.Go? {
      AgreeGo(s, e.rid, e.ch, u);
    } else {
      hide Inv, Dehydrate;
      var s' := Next(s, e);
      if Outstanding(s, u) {
        var other :| other in s.reqs && Owes(s.reqs[other], u);
        assert other in s'.reqs && s'.reqs[other] == s.reqs[other];
      }
    }
  }

  lemma {:induction false} AgreeRun(s: State, events: seq<Event>, u: UserId)
    requires Inv(s) && AgreeInv(s, u) && Run(s, events) && Along(s, events, AgreeClean)
    ensures AgreeInv(After(s, events), u)
    decreases |events|
  {
    hide Inv, AgreeInv, Next, Enabled;
    if events != [] {
      InvStep(s, events[0]);
      AgreeStep(s, events[0], u);
      AgreeRun(Next(s, events[0]), events[1..], u);
    }
  }

  // With no invalidation outstanding, the cached entry is the row and every check decides as the table would.
  lemma CacheDecidesLikeTable(s: State, events: seq<Event>, u: UserId, size: int)
    requires Init(s) && Run(s, events) && Along(s, events, AgreeClean)
    requires !Outstanding(After(s, events), u) && u in After(s, events).w.quotaCache
    ensures var w := After(s, events).w;
      && u in w.quota && Rehydrate(w.quotaCache[u]) == w.quota[u]
      && Verdict(Rehydrate(w.quotaCache[u]), size) == Verdict(w.quota[u], size)
  {
    InitInv(s);
    assert EntryCurrent(s.w, u);
    hide Init, Inv, Dehydrate, Rehydrate, Verdict, Run, After;
    AgreeRun(s, events, u);
    RehydrateDehydrate(After(s, events).w.quota[u]);
  }

  /** The row that a request is about to SET into the cache of `u`. */
  predicate AboutToSet(r: Req, u: UserId, row: QuotaRow) {
    (r.Upload? && r.args.owner == u && r.upc == QuotaRead(row)) || r == Alert(u, AlertRead(row))
  }

  // Exactly which SETs are harmless: with no invalidation outstanding, a SET keeps cache and table in agreement
  // if and only if the row has not changed since it was read.
  lemma SetExact(s: State, rid: ReqId, ch: Choice, u: UserId, row: QuotaRow)
    requires Inv(s) && rid in s.reqs && AboutToSet(s.reqs[rid], u, row) && ch.ok
    requires !Outstanding(s, u)
    ensures AgreeInv(Next(s, Go(rid, ch)), u) <==> u in s.w.quota && s.w.quota[u] == row
  {
    assert Local(s.w, rid, s.reqs[rid]);
    var s' := Next(s, Go(rid, ch));
    NobodyOwesAfterSet(s, rid, ch, u, row);
    hide Inv, Local, Decide;
    DehydrateInjective(s.w.quota[u], row);
    hide Dehydrate;
  }

  lemma NobodyOwesAfterSet(s: State, rid: ReqId, ch: Choice, u: UserId, row: QuotaRow)
    requires rid in s.reqs && AboutToSet(s.reqs[rid], u, row) && !Outstanding(s, u)
    ensures !Outstanding(State(Act(s.w, rid, s.reqs[rid], ch).0, s.reqs[rid := Act(s.w, rid, s.reqs[rid], ch).1]), u)
  {
    hide AdmissionError, Dehydrate;
    var r' := Act(s.w, rid, s.reqs[rid], ch).1;
    assert !Owes(r', u);
    hide Act;
    forall other | other in s.reqs ensures !Owes(s.reqs[rid := r'][other], u) {
      assert other != rid ==> !Owes(s.reqs[other], u);
    }
  }
}
