/**
 * The upload counter in Redis, with INCR, DECR, DEL and key expiry as separate commands.
 *
 * Whatever the interleaving, the counter never exceeds the number of uploads between their INCR and their
 * DECR. It equals that number exactly as long as no DEL or expiry ever hits a counter that is not zero, and then
 * at most three uploads of a user are past `acquireSemaphore`. Once it no longer does, the limit may still happen
 * to hold, but nothing secures it: some continuation without any further such DEL has four uploads inside.
 */
module Semaphore {
  import opened Base
  import opened Sums
  import opened Admission
  import opened Protocol
  import opened Frames

  predicate HoldsPc(pc: UploadPc) {
    !pc.Arriving? && !pc.DroppingKey? && !pc.UploadDone?
  }

  /** Between INCR and DECR. */
  predicate Holds(r: Req, u: UserId) {
    r.Upload? && r.args.owner == u && HoldsPc(r.upc)
  }

  /** Past `acquireSemaphore` and not yet released. */
  predicate Inside(r: Req, u: UserId) {
    Holds(r, u) && !r.upc.Rejecting?
  }

  ghost function HoldsF(u: UserId): Req -> int {
    (r: Req) => if Holds(r, u) then 1 else 0
  }

  ghost function InsideF(u: UserId): Req -> int {
    (r: Req) => if Inside(r, u) then 1 else 0
  }

  ghost function Holders(s: State, u: UserId): set<ReqId> {
    set rid | rid in s.reqs && Holds(s.reqs[rid], u)
  }

  ghost function Insiders(s: State, u: UserId): set<ReqId> {
    set rid | rid in s.reqs && Inside(s.reqs[rid], u)
  }

  ghost predicate CounterAgrees(s: State, u: UserId) {
    Counter(s.w, u) == Sum(s.reqs, HoldsF(u))
  }

  ghost predicate SemInv(s: State, u: UserId) {
    CounterAgrees(s, u) && Sum(s.reqs, InsideF(u)) <= MAX_CONCURRENT_UPLOADS
  }

  /** A DEL or an expiry finds the counter at zero. */
  predicate SemClean(s: State, e: Event) {
    match e
    case ExpireCounter(u) => Counter(s.w, u) == 0
    case Go(rid, ch) =>
      rid in s.reqs && s.reqs[rid].Upload? && s.reqs[rid].upc.DroppingKey? ==>
        Counter(s.w, s.reqs[rid].args.owner) == 0
    case _ => true
  }

  lemma SumsAreCounts(s: State, u: UserId)
    ensures Sum(s.reqs, HoldsF(u)) == |Holders(s, u)|
    ensures Sum(s.reqs, InsideF(u)) == |Insiders(s, u)|
  {
    var f, g := HoldsF(u), InsideF(u);
    SumCounts(s.reqs, f);
    SumCounts(s.reqs, g);
    assert Holders(s, u) == Marked(s.reqs, f);
    assert Insiders(s, u) == Marked(s.reqs, g);
  }

  // ----- one step -----

  // An upload moves its own user's counter exactly with its slot, except for the DEL.
  lemma UploadCounter(w: World, rid: ReqId, a: UploadArgs, pc: UploadPc, ch: Choice, v: UserId)
    ensures var (w', pc') := UploadStep(w, rid, a, pc, ch);
      && (v != a.owner ==> Counter(w', v) == Counter(w, v))
      && (pc.DroppingKey? ==> pc'.UploadDone? && Counter(w', a.owner) == 0)
      && (!pc.DroppingKey? ==>
            Counter(w', a.owner) - Counter(w, a.owner)
            == (if HoldsPc(pc') then 1 else 0) - (if HoldsPc(pc) then 1 else 0))
      && (pc.Arriving? ==> (pc'.Rejecting? <==> Counter(w', a.owner) > MAX_CONCURRENT_UPLOADS) && HoldsPc(pc'))
      && (!pc.Arriving? ==> !pc'.Rejecting? && !pc'.Arriving?)
      && (pc.Rejecting? ==> pc'.UploadDone?)
      && (!HoldsPc(pc) && !pc.Arriving? ==> !HoldsPc(pc'))
  {
    hide AdmissionError, ThumbnailError, UuidsOk, NewRow, BlobPath, ThumbPath, RowOrFresh;
  }

  lemma OthersLeaveCounter(w: World, rid: ReqId, r: Req, ch: Choice)
    requires !r.Upload?
    ensures Act(w, rid, r, ch).0.sem == w.sem && !Act(w, rid, r, ch).1.Upload?
  {
    OtherFrame(w, rid, r, ch);
  }

  // How one event changes the counter and the two sums of one user.
  lemma Effects(s: State, e: Event, u: UserId)
    requires Enabled(s, e)
    ensures var s' := Next(s, e);
      && (SemClean(s, e) ==>
            Counter(s'.w, u) - Counter(s.w, u) == Sum(s'.reqs, HoldsF(u)) - Sum(s.reqs, HoldsF(u)))
      && (Counter(s.w, u) <= Sum(s.reqs, HoldsF(u)) ==> Counter(s'.w, u) <= Sum(s'.reqs, HoldsF(u)))
      && (Counter(s'.w, u) == 0
          || Counter(s'.w, u) - Counter(s.w, u) == Sum(s'.reqs, HoldsF(u)) - Sum(s.reqs, HoldsF(u)))
      && (Sum(s'.reqs, InsideF(u)) <= Sum(s.reqs, InsideF(u))
          || (Sum(s'.reqs, InsideF(u)) <= Sum(s.reqs, InsideF(u)) + 1 && Counter(s'.w, u) <= MAX_CONCURRENT_UPLOADS
              && Counter(s'.w, u) == Counter(s.w, u) + 1))
  {
    var s' := Next(s, e);
    SumNonNegative(s.reqs, HoldsF(u));
    match e
    case Spawn(rid, r) =>
      SumUpdate(s.reqs, rid, r, HoldsF(u));
      SumUpdate(s.reqs, rid, r, InsideF(u));
    case Go(rid, ch) =>
      var r := s.reqs[rid];
      var r' := Act(s.w, rid, r, ch).1;
      SumUpdate(s.reqs, rid, r', HoldsF(u));
      SumUpdate(s.reqs, rid, r', InsideF(u));
      SumNonNegative(s'.reqs, HoldsF(u));
      GoEffects(s, rid, ch, u);
    case _ =>
  }

  lemma GoEffects(s: State, rid: ReqId, ch: Choice, u: UserId)
    requires rid in s.reqs && ChoiceOk(s.w, s.reqs[rid], ch)
    ensures var r := s.reqs[rid];
            var (w', r') := Act(s.w, rid, r, ch);
      && (Counter(w', u) - Counter(s.w, u) == HoldsF(u)(r') - HoldsF(u)(r)
          || (r.Upload? && r.upc.DroppingKey? && r.args.owner == u && Counter(w', u) == 0
              && HoldsF(u)(r') == HoldsF(u)(r) == 0))
      && (InsideF(u)(r') <= InsideF(u)(r)
          || (InsideF(u)(r') == 1 && Counter(w', u) == Counter(s.w, u) + 1 <= MAX_CONCURRENT_UPLOADS))
  {
    var r := s.reqs[rid];
    if r.Upload? {
      UploadCounter(s.w, rid, r.args, r.upc, ch, u);
    } else {
      OthersLeaveCounter(s.w, rid, r, ch);
    }
  }

  lemma InsideAtMostHolders(s: State, u: UserId)
    ensures Sum(s.reqs, InsideF(u)) <= Sum(s.reqs, HoldsF(u))
  {
    SumScaled(s.reqs, InsideF(u), HoldsF(u), 1);
  }

  lemma SemStep(s: State, e: Event, u: UserId)
    requires Enabled(s, e) && SemInv(s, u) && SemClean(s, e)
    ensures SemInv(Next(s, e), u)
  {
    Effects(s, e, u);
    InsideAtMostHolders(s, u);
    InsideAtMostHolders(Next(s, e), u);
  }

  // From agreement on every user, a step keeps agreement exactly when it is clean.
  lemma AgreementStepExact(s: State, e: Event)
    requires Enabled(s, e) && forall u :: CounterAgrees(s, u)
    ensures (forall u :: CounterAgrees(Next(s, e), u)) <==> SemClean(s, e)
  {
    var s' := Next(s, e);
    if SemClean(s, e) {
      forall u ensures CounterAgrees(s', u) {
        assert CounterAgrees(s, u);
        Effects(s, e, u);
      }
    } else {
      match e
      case ExpireCounter(u) =>
        assert CounterAgrees(s, u);
        assert !CounterAgrees(s', u);
      case Go(rid, ch) =>
        var r := s.reqs[rid];
        var u := r.args.owner;
        UploadCounter(s.w, rid, r.args, r.upc, ch, u);
        SumUpdate(s.reqs, rid, Act(s.w, rid, r, ch).1, HoldsF(u));
        assert CounterAgrees(s, u);
        assert !CounterAgrees(s', u);
    }
  }

  // ----- whole runs -----

  lemma InitSem(s: State, u: UserId)
    requires Init(s)
    ensures SemInv(s, u)
  {}

  lemma {:induction false} SemRun(s: State, events: seq<Event>, u: UserId)
    requires Run(s, events) && SemInv(s, u) && Along(s, events, SemClean)
    ensures SemInv(After(s, events), u)
    decreases |events|
  {
    if events != [] {
      SemStep(s, events[0], u);
      SemRun(Next(s, events[0]), events[1..], u);
    }
  }

  // Clean runs: the counter equals the number of uploads holding a slot, and at most three are inside.
  lemma AtMostThreeInside(s: State, events: seq<Event>, u: UserId)
    requires Init(s) && Run(s, events) && Along(s, events, SemClean)
    ensures Counter(After(s, events).w, u) == |Holders(After(s, events), u)|
    ensures |Insiders(After(s, events), u)| <= 3
  {
    InitSem(s, u);
    SemRun(s, events, u);
    SumsAreCounts(After(s, events), u);
  }

  lemma {:induction false} NeverAboveRun(s: State, events: seq<Event>, u: UserId)
    requires Run(s, events) && Counter(s.w, u) <= Sum(s.reqs, HoldsF(u))
    ensures Counter(After(s, events).w, u) <= Sum(After(s, events).reqs, HoldsF(u))
    decreases |events|
  {
    if events != [] {
      Effects(s, events[0], u);
      NeverAboveRun(Next(s, events[0]), events[1..], u);
    }
  }

  // All runs, every command and expiry interleaved freely: the counter never exceeds the number of holders,
  // so once all uploads of a user are done no slot stays occupied and the next upload is let in.
  lemma NoSlotLeaks(s: State, events: seq<Event>, u: UserId)
    requires Init(s) && Run(s, events)
    ensures Counter(After(s, events).w, u) <= |Holders(After(s, events), u)|
    ensures Holders(After(s, events), u) == {} ==>
      forall rid: ReqId, a: UploadArgs, ch: Choice :: a.owner == u ==>
        UploadStep(After(s, events).w, rid, a, Arriving, ch).1 == Admitted
  {
    InitSem(s, u);
    NeverAboveRun(s, events, u);
    SumsAreCounts(After(s, events), u);
  }

  /** The counters agree with the holders at every moment of the run. */
  ghost predicate AlwaysAgree(s: State, events: seq<Event>)
    requires Run(s, events)
    decreases |events|
  {
    && (forall u :: CounterAgrees(s, u))
    && (events == [] || AlwaysAgree(Next(s, events[0]), events[1..]))
  }

  lemma {:induction false} AlwaysAgreeExactFrom(s: State, events: seq<Event>)
    requires Run(s, events) && forall u :: CounterAgrees(s, u)
    ensures AlwaysAgree(s, events) <==> Along(s, events, SemClean)
    decreases |events|
  {
    if events != [] {
      AgreementStepExact(s, events[0]);
      if SemClean(s, events[0]) {
        AlwaysAgreeExactFrom(Next(s, events[0]), events[1..]);
      }
    }
  }

  // The exact condition: counters and holders agree throughout a run if and only if no DEL and no expiry ever
  // hits a counter that is not zero.
  lemma AlwaysAgreeExact(s: State, events: seq<Event>)
    requires Init(s) && Run(s, events)
    ensures AlwaysAgree(s, events) <==> Along(s, events, SemClean)
  {
    forall u ensures CounterAgrees(s, u) {
      InitSem(s, u);
    }
    AlwaysAgreeExactFrom(s, events);
  }

  // ----- when the limit is secure -----

  /** As long as no DEL and no expiry hits a counter in use from here on, at most three uploads are inside. */
  ghost predicate LimitSecure(s: State, u: UserId) {
    forall more: seq<Event> :: Run(s, more) && Along(s, more, SemClean) ==>
      |Insiders(After(s, more), u)| <= 3
  }

  /** What every run keeps, clean or not: a counter that agrees, be it by chance, has let at most three in. */
  ghost predicate ChanceInv(s: State, u: UserId) {
    && Counter(s.w, u) <= Sum(s.reqs, HoldsF(u))
    && (CounterAgrees(s, u) ==> Sum(s.reqs, InsideF(u)) <= MAX_CONCURRENT_UPLOADS)
  }

  lemma ChanceStep(s: State, e: Event, u: UserId)
    requires Enabled(s, e) && ChanceInv(s, u)
    ensures ChanceInv(Next(s, e), u)
  {
    Effects(s, e, u);
    InsideAtMostHolders(s, u);
    InsideAtMostHolders(Next(s, e), u);
  }

  lemma {:induction false} ChanceRun(s: State, events: seq<Event>, u: UserId)
    requires Run(s, events) && ChanceInv(s, u)
    ensures ChanceInv(After(s, events), u)
    decreases |events|
  {
    hide ChanceInv, Next, Enabled;
    if events != [] {
      ChanceStep(s, events[0], u);
      ChanceRun(Next(s, events[0]), events[1..], u);
    }
  }

  // Request ids never run out.
  lemma FreshReq(ids: set<ReqId>) returns (rid: ReqId)
    ensures forall id :: id in ids ==> id < rid
  {
    rid := 0;
    if ids != {} {
      var id :| id in ids;
      var above := FreshReq(ids - {id});
      rid := if id < above then above else id + 1;
      assert forall k :: k in ids ==> k == id || k in ids - {id};
    }
  }

  ghost predicate Reaches(s: State, events: seq<Event>, t: State) {
    Run(s, events) && Along(s, events, SemClean) && After(s, events) == t
  }

  lemma ReachesMore(s: State, e: Event, rest: seq<Event>, t: State)
    requires Enabled(s, e) && SemClean(s, e) && Reaches(Next(s, e), rest, t)
    ensures Reaches(s, [e] + rest, t)
  {
    hide Next, Enabled, SemClean;
    var events := [e] + rest;
    assert events[0] == e && events[1..] == rest;
  }

  /** A refused upload has not given its count back yet. */
  predicate IsRejecting(r: Req, u: UserId) {
    Holds(r, u) && r.upc.Rejecting?
  }

  // With nobody refused and waiting, all holders are inside.
  lemma HoldersAreInside(s: State, u: UserId)
    requires forall rid :: rid in s.reqs ==> !IsRejecting(s.reqs[rid], u)
    ensures Sum(s.reqs, HoldsF(u)) <= Sum(s.reqs, InsideF(u))
  {
    SumScaled(s.reqs, HoldsF(u), InsideF(u), 1);
  }

  // A refused upload gives its count back: the distance between counter and holders stays.
  lemma GiveBack(s: State, rid: ReqId, u: UserId, ch: Choice)
    requires rid in s.reqs && IsRejecting(s.reqs[rid], u)
    ensures Enabled(s, Go(rid, ch)) && SemClean(s, Go(rid, ch))
    ensures var s' := Next(s, Go(rid, ch));
      && Counter(s'.w, u) == Counter(s.w, u) - 1
      && Sum(s'.reqs, HoldsF(u)) == Sum(s.reqs, HoldsF(u)) - 1
      && Sum(s'.reqs, InsideF(u)) == Sum(s.reqs, InsideF(u))
  {
    var r := s.reqs[rid];
    UploadCounter(s.w, rid, r.args, r.upc, ch, u);
    var r' := Act(s.w, rid, r, ch).1;
    SumUpdate(s.reqs, rid, r', HoldsF(u));
    SumUpdate(s.reqs, rid, r', InsideF(u));
    hide UploadStep;
  }

  // A new upload is let in below a count of three.
  lemma LetOneIn(s: State, rid: ReqId, u: UserId, a: UploadArgs, ch: Choice)
    requires rid !in s.reqs && a.owner == u && Counter(s.w, u) < MAX_CONCURRENT_UPLOADS
    ensures var e := Spawn(rid, Upload(a, Arriving));
      && Enabled(s, e) && SemClean(s, e)
      && var s1 := Next(s, e);
         && Enabled(s1, Go(rid, ch)) && SemClean(s1, Go(rid, ch))
         && var s2 := Next(s1, Go(rid, ch));
            && Counter(s2.w, u) == Counter(s.w, u) + 1
            && Sum(s2.reqs, HoldsF(u)) == Sum(s.reqs, HoldsF(u)) + 1
            && Sum(s2.reqs, InsideF(u)) == Sum(s.reqs, InsideF(u)) + 1
  {
    var s1 := Next(s, Spawn(rid, Upload(a, Arriving)));
    UploadCounter(s.w, rid, a, Arriving, ch, u);
    SumUpdate(s.reqs, rid, Upload(a, Arriving), HoldsF(u));
    SumUpdate(s.reqs, rid, Upload(a, Arriving), InsideF(u));
    SumUpdate(s1.reqs, rid, Act(s.w, rid, Upload(a, Arriving), ch).1, HoldsF(u));
    SumUpdate(s1.reqs, rid, Act(s.w, rid, Upload(a, Arriving), ch).1, InsideF(u));
  }

  // While the counter is below the number of holders, uploads can go on, every release in order, until four are
  // inside: the refused give their counts back, then new ones come in.
  lemma {:induction false} ReachFour(s: State, u: UserId) returns (events: seq<Event>, t: State)
    requires Counter(s.w, u) < Sum(s.reqs, HoldsF(u))
    ensures Reaches(s, events, t) && Sum(t.reqs, InsideF(u)) > MAX_CONCURRENT_UPLOADS
    decreases Sum(s.reqs, HoldsF(u)) - Sum(s.reqs, InsideF(u)), MAX_CONCURRENT_UPLOADS - Sum(s.reqs, InsideF(u))
  {
    hide UploadStep, HoldsF, InsideF, Sum, IsRejecting, Next, Enabled, SemClean;
    var ch := Choice(true, true, "", "");
    InsideAtMostHolders(s, u);
    if Sum(s.reqs, InsideF(u)) > MAX_CONCURRENT_UPLOADS {
      events, t := [], s;
    } else if rid :| rid in s.reqs && IsRejecting(s.reqs[rid], u) {
      GiveBack(s, rid, u, ch);
      var e := Go(rid, ch);
      InsideAtMostHolders(Next(s, e), u);
      events, t := ReachFour(Next(s, e), u);
      ReachesMore(s, e, events, t);
      events := [e] + events;
    } else {
      HoldersAreInside(s, u);
      var rid := FreshReq(s.reqs.Keys);
      var a := UploadArgs(u, File([], 0, ""), Message, None, []);
      LetOneIn(s, rid, u, a, ch);
      var e, go := Spawn(rid, Upload(a, Arriving)), Go(rid, ch);
      var s1 := Next(s, e);
      events, t := ReachFour(Next(s1, go), u);
      ReachesMore(s1, go, events, t);
      ReachesMore(s, e, [go] + events, t);
      events := [e] + ([go] + events);
    }
  }

  lemma SecureWhileAgreeing(t: State, u: UserId)
    requires ChanceInv(t, u)
    ensures CounterAgrees(t, u) <==> LimitSecure(t, u)
  {
    if CounterAgrees(t, u) {
      forall more: seq<Event> | Run(t, more) && Along(t, more, SemClean)
        ensures |Insiders(After(t, more), u)| <= MAX_CONCURRENT_UPLOADS
      {
        SemRun(t, more, u);
        SumsAreCounts(After(t, more), u);
      }
    } else {
      var more, end := ReachFour(t, u);
      SumsAreCounts(end, u);
      assert Run(t, more) && Along(t, more, SemClean) && After(t, more) == end;
    }
  }

  // In every reachable state, whatever led there, the three-slot limit is secure from there on exactly when the
  // counter agrees with the holders.
  lemma LimitSecureExact(s: State, events: seq<Event>, u: UserId)
    requires Init(s) && Run(s, events)
    ensures CounterAgrees(After(s, events), u) <==> LimitSecure(After(s, events), u)
  {
    InitSem(s, u);
    ChanceRun(s, events, u);
    SecureWhileAgreeing(After(s, events), u);
  }

  /** The limit is secure for every user at every moment of the run. */
  ghost predicate AlwaysSecure(s: State, events: seq<Event>)
    requires Run(s, events)
    decreases |events|
  {
    (forall u :: LimitSecure(s, u)) && (events == [] || AlwaysSecure(Next(s, events[0]), events[1..]))
  }

  lemma {:induction false} SecureMeansAgree(s: State, events: seq<Event>)
    requires Run(s, events) && forall u :: ChanceInv(s, u)
    ensures AlwaysSecure(s, events) <==> AlwaysAgree(s, events)
    decreases |events|
  {
    hide ChanceInv, LimitSecure, CounterAgrees, Next, Enabled;
    forall u ensures CounterAgrees(s, u) <==> LimitSecure(s, u) {
      SecureWhileAgreeing(s, u);
    }
    if events != [] {
      forall u ensures ChanceInv(Next(s, events[0]), u) {
        ChanceStep(s, events[0], u);
      }
      SecureMeansAgree(Next(s, events[0]), events[1..]);
    }
  }

  // The exact condition for the limit itself: it is secure for everybody throughout a run if and only if no DEL and
  // no expiry in it ever hits a counter that is not zero.
  lemma AlwaysSecureExact(s: State, events: seq<Event>)
    requires Init(s) && Run(s, events)
    ensures AlwaysSecure(s, events) <==> Along(s, events, SemClean)
  {
    forall u ensures ChanceInv(s, u) {
      InitSem(s, u);
    }
    hide ChanceInv;
    SecureMeansAgree(s, events);
    AlwaysAgreeExact(s, events);
  }
}
