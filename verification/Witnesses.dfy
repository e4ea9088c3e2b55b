/**
 * Runs that show the conditions of the other modules are needed, and that the overshoot bound is reached.
 *
 * Each lemma builds its run event by event from an initial state.
 */
module Witnesses {
  import opened Base
  import opened Quota
  import opened Admission
  import opened Paths
  import opened Protocol
  import opened Semaphore
  import opened Overshoot

  const OWNER: UserId := "00000000-0000-4000-8000-000000000000"

  /** Which conditions a run keeps: on the counters, on cache SETs, on the invalidations after uploads. */
  datatype Care = Care(sem: bool, sets: bool, flushes: bool)

  const STRICT: Care := Care(true, true, true)

  predicate Kept(c: Care, s: State, e: Event) {
    (c.sem ==> SemClean(s, e)) && (c.sets ==> SetClean(s, e)) && (c.flushes ==> ChargeFlushed(s, e))
  }

  ghost function KeptBy(c: Care): (State, Event) -> bool {
    (s: State, e: Event) => Kept(c, s, e)
  }

  /** A run from `s` that ends in `t` and keeps the conditions in `c`. */
  ghost predicate Leads(s: State, events: seq<Event>, t: State, c: Care) {
    Run(s, events) && After(s, events) == t && Along(s, events, KeptBy(c))
  }

  lemma One(s: State, e: Event, c: Care)
    requires Enabled(s, e) && Kept(c, s, e)
    ensures Leads(s, [e], Next(s, e), c)
  {
    hide Next, Enabled, Kept;
    var rest := [e][1..];
    assert rest == [];
    assert Run(Next(s, e), rest) && After(Next(s, e), rest) == Next(s, e);
    assert Along(Next(s, e), rest, KeptBy(c));
  }

  // Appending one possible event to a run.
  lemma {:induction false} Extend(s: State, events: seq<Event>, t: State, e: Event, c: Care)
    requires Leads(s, events, t, c) && Enabled(t, e) && Kept(c, t, e)
    ensures Leads(s, events + [e], Next(t, e), c)
    decreases |events|
  {
    hide Next, Enabled, Kept;
    if events == [] {
      assert events + [e] == [e];
      One(s, e, c);
    } else {
      var head, rest := events[0], events[1..];
      Extend(Next(s, head), rest, t, e, c);
      assert (events + [e])[0] == head && (events + [e])[1..] == rest + [e];
    }
  }

  lemma {:induction false} LeadsTo(s: State, events: seq<Event>, t: State, c: Care)
    requires Leads(s, events, t, c)
    ensures Run(s, events) && After(s, events) == t
    ensures (c.sem ==> Along(s, events, SemClean)) && (c.sets ==> Along(s, events, SetClean))
    ensures (c.flushes ==> Along(s, events, ChargeFlushed)) && (c == STRICT ==> Along(s, events, BothClean))
    decreases |events|
  {
    hide Next, Enabled, SemClean, SetClean, ChargeFlushed;
    if events != [] {
      assert KeptBy(c)(s, events[0]);
      LeadsTo(Next(s, events[0]), events[1..], t, c);
    }
  }

  lemma Begin(s: State, c: Care)
    ensures Leads(s, [], s, c)
  {}

  function Yes(): Choice {
    Choice(true, true, "", "")
  }

  function Miss(): Choice {
    Choice(true, false, "", "")
  }

  function WithId(id: MediaId): Choice {
    Choice(true, false, id, "")
  }

  // ----- DECR and DEL apart let a fourth upload in -----

  function No(): Choice {
    Choice(false, true, "", "")
  }

  /** A group icon, whose uploader turns out not to be an admin of the group. */
  function IconArgs(): UploadArgs {
    UploadArgs(OWNER, File([], 0, "image/png"), GroupIcon, None, [])
  }

  // A step of an upload, its effect spelled out.
  lemma GoUpload(s: State, before: seq<Event>, t: State, rid: ReqId, ch: Choice, c: Care)
    returns (events: seq<Event>, t': State)
    requires Leads(s, before, t, c) && rid in t.reqs && t.reqs[rid].Upload? && ChoiceOk(t.w, t.reqs[rid], ch)
    requires Kept(c, t, Go(rid, ch))
    ensures Leads(s, events, t', c)
    ensures var a := t.reqs[rid].args;
      var (w', pc') := UploadStep(t.w, rid, a, t.reqs[rid].upc, ch);
      t' == State(w', t.reqs[rid := Upload(a, pc')])
  {
    hide UploadStep, Kept, Leads, ChoiceOk;
    var e := Go(rid, ch);
    Extend(s, before, t, e, c);
    events, t' := before + [e], Next(t, e);
  }

  lemma Arrive(s: State, before: seq<Event>, t: State, rid: ReqId, a: UploadArgs, c: Care)
    returns (events: seq<Event>, t': State)
    requires Leads(s, before, t, c) && rid !in t.reqs
    requires Counter(t.w, a.owner) < MAX_CONCURRENT_UPLOADS
    ensures Leads(s, events, t', c)
    ensures t' == State(t.w.(sem := t.w.sem[a.owner := Counter(t.w, a.owner) + 1]), t.reqs[rid := Upload(a, Admitted)])
  {
    var e := Spawn(rid, Upload(a, Arriving));
    Extend(s, before, t, e, c);
    events, t' := GoUpload(s, before + [e], Next(t, e), rid, Yes(), c);
    assert t.reqs[rid := Upload(a, Arriving)][rid := Upload(a, Admitted)] == t.reqs[rid := Upload(a, Admitted)];
  }

  // A refused upload gives its slot back: DECR, but not yet DEL.
  lemma RefuseOne(s: State, before: seq<Event>, t: State, rid: ReqId, c: Care)
    returns (events: seq<Event>, t': State)
    requires Leads(s, before, t, c) && rid in t.reqs && t.reqs[rid] == Upload(IconArgs(), Admitted)
    requires Counter(t.w, OWNER) == 1
    ensures Leads(s, events, t', c)
    ensures t' == State(t.w.(sem := t.w.sem[OWNER := 0]),
                        t.reqs[rid := Upload(IconArgs(), DroppingKey(UploadFailed(NotAuthorized)))])
  {
    var t1: State;
    events, t1 := GoUpload(s, before, t, rid, No(), c);
    assert t1 == State(t.w, t.reqs[rid := Upload(IconArgs(), Releasing(UploadFailed(NotAuthorized)))]);
    events, t' := GoUpload(s, events, t1, rid, Yes(), c);
  }

  lemma DropKey(s: State, before: seq<Event>, t: State, rid: ReqId, result: UploadResult, c: Care)
    returns (events: seq<Event>, t': State)
    requires Leads(s, before, t, c) && rid in t.reqs && t.reqs[rid] == Upload(IconArgs(), DroppingKey(result))
    requires !c.sem
    ensures Leads(s, events, t', c)
    ensures t' == State(t.w.(sem := t.w.sem - {OWNER}), t.reqs[rid := Upload(IconArgs(), UploadDone(result))])
  {
    events, t' := GoUpload(s, before, t, rid, Yes(), c);
  }

  // An upload has done its DECR but not its DEL when three others do their INCR.
  lemma ThreeBeforeDel(s: State, c: Care) returns (events: seq<Event>, t: State)
    requires Init(s)
    ensures Leads(s, events, t, c)
    ensures var a := IconArgs();
      && t.reqs == map[0 := Upload(a, DroppingKey(UploadFailed(NotAuthorized))),
                       1 := Upload(a, Admitted), 2 := Upload(a, Admitted), 3 := Upload(a, Admitted)]
  {
    var a := IconArgs();
    Begin(s, c);
    assert s.reqs == map[] && Counter(s.w, OWNER) == 0;
    hide Init, Act, UploadStep, Leads;
    events, t := Arrive(s, [], s, 0, a, c);
    events, t := RefuseOne(s, events, t, 0, c);
    events, t := Arrive(s, events, t, 1, a, c);
    events, t := Arrive(s, events, t, 2, a, c);
    events, t := Arrive(s, events, t, 3, a, c);
  }

  // DECR and DEL are two commands: a run in which the INCRs of three other uploads fall between them, the DEL
  // wipes their count, and a fourth upload gets in beside them.
  lemma SplitReleaseLetsFourIn(s: State) returns (events: seq<Event>)
    requires Init(s)
    ensures Run(s, events) && |Insiders(After(s, events), OWNER)| > 3
  {
    var a, c := IconArgs(), Care(false, true, true);
    hide Init, Act, UploadStep, Leads, Insiders;
    var t: State;
    events, t := ThreeBeforeDel(s, c);
    events, t := DropKey(s, events, t, 0, UploadFailed(NotAuthorized), c);
    events, t := Arrive(s, events, t, 4, a, c);
    FourInside(t);
    LeadsTo(s, events, t, c);
  }

  lemma FourInside(t: State)
    requires forall rid: ReqId :: rid in {1, 2, 3, 4} ==> rid in t.reqs && Inside(t.reqs[rid], OWNER)
    ensures |Insiders(t, OWNER)| > 3
  {
    assert {1, 2, 3, 4} <= Insiders(t, OWNER);
    SubsetCard({1, 2, 3, 4}, Insiders(t, OWNER));
  }

  lemma SubsetCard<T>(a: set<T>, b: set<T>)
    requires a <= b
    ensures |a| <= |b|
  {
    if a != {} {
      var x :| x in a;
      SubsetCard(a - {x}, b - {x});
    }
  }

  // ----- full-size uploads -----

  /** An opaque 100 MB message blob of OWNER, without a thumbnail. */
  predicate Big(a: UploadArgs) {
    && a.owner == OWNER && a.context == Message && a.thumb == None
    && a.file.size == |a.file.content| == UPLOAD_MAX_BYTES && a.file.mime == OCTET_STREAM
  }

  function BigArgs(fill: byte, users: seq<UserId>): (a: UploadArgs)
    ensures Big(a) && a.sharedWith == users
  {
    UploadArgs(OWNER, File(seq(UPLOAD_MAX_BYTES, i => fill), UPLOAD_MAX_BYTES, OCTET_STREAM), Message, None, users)
  }

  // The dedup key of a big upload is its content: the users it is shared with do not matter, the bytes do.
  lemma BigKeys(fill: byte, users: seq<UserId>)
    ensures KeyOf(BigArgs(fill, users)) == KeyOf(BigArgs(fill, []))
    ensures KeyOf(BigArgs(0, [])) != KeyOf(BigArgs(1, users))
  {
    assert BigArgs(0, []).file.content[0] != BigArgs(1, users).file.content[0];
  }

  // Octet-stream is shorter or longer than every type that has signatures.
  lemma OctetStreamIsOpaque()
    ensures Signatures(Normalise(OCTET_STREAM)).None? && OCTET_STREAM in Allowlist(Message)
  {
    hide Normalise;
    assert |OCTET_STREAM| == 24;
    AllowlistIsPlain(OCTET_STREAM);
    NormalisePlain(OCTET_STREAM);
    assert OCTET_STREAM == OTHER_TYPES[2];
  }

  lemma BigPasses(a: UploadArgs, q: QuotaRow)
    requires Big(a) && Verdict(q, UPLOAD_MAX_BYTES) == Allowed
    ensures Decide(a, q) == Checked && ValidBlobSize(a.file.size)
  {
    hide Signatures, Normalise, Allowlist, Verdict;
    OctetStreamIsOpaque();
    assert MagicOk(a.file.content, a.file.mime);
  }

  function Id(c: char): MediaId {
    "00000000-0000-4000-8000-00000000000" + [c]
  }

  lemma IdIsUuid(c: char)
    requires '0' <= c <= '9'
    ensures IsUuid(Id(c))
    ensures forall d: char :: Id(d) == Id(c) ==> d == c
  {
    forall d: char | Id(d) == Id(c) ensures d == c {
      assert Id(d)[35] == Id(c)[35];
    }
  }

  /** Upload `rid` has passed the quota check and missed the dedup index; nothing else has changed but its slot. */
  ghost predicate LetIn(t: State, t': State, rid: ReqId, a: UploadArgs) {
    && t'.reqs == t.reqs[rid := Upload(a, Fresh)]
    && t'.w == t.w.(sem := t'.w.sem, quotaCache := t'.w.quotaCache)
    && Counter(t'.w, OWNER) == Counter(t.w, OWNER) + 1
  }

  // An upload that the cached entry admits.
  lemma AdmitByCache(s: State, before: seq<Event>, t: State, rid: ReqId, a: UploadArgs, c: Care)
    returns (events: seq<Event>, t': State)
    requires Leads(s, before, t, c) && rid !in t.reqs && Big(a)
    requires Counter(t.w, OWNER) < MAX_CONCURRENT_UPLOADS
    requires OWNER in t.w.quotaCache && Verdict(Rehydrate(t.w.quotaCache[OWNER]), UPLOAD_MAX_BYTES) == Allowed
    ensures Leads(s, events, t', c)
    ensures t' == State(t.w.(sem := t.w.sem[OWNER := Counter(t.w, OWNER) + 1]), t.reqs[rid := Upload(a, Checked)])
  {
    hide Leads, Big, Verdict, Rehydrate, Decide;
    BigFacts(a);
    BigPasses(a, Rehydrate(t.w.quotaCache[OWNER]));
    var t1: State;
    events, t1 := Arrive(s, before, t, rid, a, c);
    assert t1.reqs[rid] == Upload(a, Admitted);
    events, t' := GoUpload(s, events, t1, rid, Yes(), c);
    assert t' == State(t1.w, t1.reqs[rid := Upload(a, Checked)]);
    assert t'.reqs == t.reqs[rid := Upload(a, Checked)];
  }

  lemma EnterByCache(s: State, before: seq<Event>, t: State, rid: ReqId, a: UploadArgs, c: Care)
    returns (events: seq<Event>, t': State)
    requires Leads(s, before, t, c) && rid !in t.reqs && Big(a)
    requires Counter(t.w, OWNER) < MAX_CONCURRENT_UPLOADS && KeyOf(a) !in t.w.dedup
    requires OWNER in t.w.quotaCache && Verdict(Rehydrate(t.w.quotaCache[OWNER]), UPLOAD_MAX_BYTES) == Allowed
    ensures Leads(s, events, t', c) && LetIn(t, t', rid, a) && t'.w.quotaCache == t.w.quotaCache
  {
    hide Leads, Big, Verdict, Rehydrate, KeyOf, UploadStep;
    var t1: State;
    events, t1 := AdmitByCache(s, before, t, rid, a, c);
    events, t' := PassScan(s, events, t1, rid, a, c);
    assert t'.reqs == t.reqs[rid := Upload(a, Fresh)];
  }

  lemma BigFacts(a: UploadArgs)
    requires Big(a)
    ensures a.owner == OWNER && a.context == Message && a.thumb == None
    ensures a.file.size == UPLOAD_MAX_BYTES && ValidBlobSize(a.file.size)
  {}

  // An upload that passes the scan and misses the dedup index.
  lemma PassScan(s: State, before: seq<Event>, t: State, rid: ReqId, a: UploadArgs, c: Care)
    returns (events: seq<Event>, t': State)
    requires Leads(s, before, t, c) && rid in t.reqs && t.reqs[rid] == Upload(a, Checked)
    requires KeyOf(a) !in t.w.dedup
    ensures Leads(s, events, t', c) && t' == State(t.w, t.reqs[rid := Upload(a, Fresh)])
  {
    hide Leads, KeyOf;
    events, t' := GoUpload(s, before, t, rid, Yes(), c);
  }

  // A read-through with nothing in between: the row is read and cached.
  lemma ReadThrough(s: State, before: seq<Event>, t: State, rid: ReqId, a: UploadArgs, c: Care)
    returns (events: seq<Event>, t': State)
    requires Leads(s, before, t, c) && rid in t.reqs && t.reqs[rid] == Upload(a, QuotaMiss)
    requires a.owner in t.w.quota
    ensures Leads(s, events, t', c)
    ensures var row := t.w.quota[a.owner];
      && t'.reqs == t.reqs[rid := Upload(a, Decide(a, row))]
      && t'.w == t.w.(quotaCache := t.w.quotaCache[a.owner := Dehydrate(row)])
  {
    hide Leads, Decide, Dehydrate, FreshRow;
    var t1: State;
    var row := t.w.quota[a.owner];
    events, t1 := GoUpload(s, before, t, rid, Yes(), c);
    assert t1.reqs == t.reqs[rid := Upload(a, QuotaRead(row))] && t1.w == t.w;
    events, t' := GoUpload(s, events, t1, rid, Yes(), c);
    assert t'.reqs == t.reqs[rid := Upload(a, Decide(a, row))];
  }

  // The first upload finds no cached entry: it reads the row and caches it.
  lemma EnterByTable(s: State, before: seq<Event>, t: State, rid: ReqId, a: UploadArgs, c: Care)
    returns (events: seq<Event>, t': State)
    requires Leads(s, before, t, c) && rid !in t.reqs && Big(a)
    requires Counter(t.w, OWNER) < MAX_CONCURRENT_UPLOADS && KeyOf(a) !in t.w.dedup
    requires OWNER !in t.w.quotaCache && OWNER in t.w.quota
    requires Verdict(t.w.quota[OWNER], UPLOAD_MAX_BYTES) == Allowed
    ensures Leads(s, events, t', c) && LetIn(t, t', rid, a)
    ensures t'.w.quotaCache == t.w.quotaCache[OWNER := Dehydrate(t.w.quota[OWNER])]
  {
    hide Leads, Big, Verdict, Dehydrate, Decide, UploadStep, KeyOf;
    var row := t.w.quota[OWNER];
    BigFacts(a);
    BigPasses(a, row);
    var t1, t2: State;
    events, t1 := MissCache(s, before, t, rid, a, c);
    events, t2 := ReadThrough(s, events, t1, rid, a, c);
    events, t' := PassScan(s, events, t2, rid, a, c);
    assert t'.reqs == t.reqs[rid := Upload(a, Fresh)];
  }

  lemma MissCache(s: State, before: seq<Event>, t: State, rid: ReqId, a: UploadArgs, c: Care)
    returns (events: seq<Event>, t': State)
    requires Leads(s, before, t, c) && rid !in t.reqs && Big(a)
    requires Counter(t.w, OWNER) < MAX_CONCURRENT_UPLOADS && OWNER !in t.w.quotaCache
    ensures Leads(s, events, t', c)
    ensures t' == State(t.w.(sem := t.w.sem[OWNER := Counter(t.w, OWNER) + 1]), t.reqs[rid := Upload(a, QuotaMiss)])
  {
    hide Leads, Big, Rehydrate, Decide;
    BigFacts(a);
    var t1: State;
    events, t1 := Arrive(s, before, t, rid, a, c);
    events, t' := GoUpload(s, events, t1, rid, Miss(), c);
    assert t'.reqs == t.reqs[rid := Upload(a, QuotaMiss)];
  }

  /** Upload `rid` has stored, saved and recorded media `id`; only its own user's row was charged. */
  ghost predicate RecordedAs(t: State, t': State, rid: ReqId, a: UploadArgs, id: MediaId) {
    && t'.reqs == t.reqs[rid := Upload(a, Recorded(id))]
    && OWNER in t.w.quota && t'.w.quota == t.w.quota[OWNER := Charge(t.w.quota[OWNER], UPLOAD_MAX_BYTES)]
    && t'.w.quotaCache == t.w.quotaCache && t'.w.sem == t.w.sem
    && t'.w.dedup.Keys == t.w.dedup.Keys + {KeyOf(a)} && t'.w.issued.Keys == t.w.issued.Keys + {id}
    && t'.w.media.Keys == t.w.media.Keys + {id}
  }

  lemma StoreAndRecord(s: State, before: seq<Event>, t: State, rid: ReqId, a: UploadArgs, id: MediaId, c: Care)
    returns (events: seq<Event>, t': State)
    requires Leads(s, before, t, c) && rid in t.reqs && t.reqs[rid] == Upload(a, Fresh) && Big(a)
    requires IsUuid(id) && id !in t.w.issued && OWNER in t.w.quota
    ensures Leads(s, events, t', c) && RecordedAs(t, t', rid, a, id)
  {
    hide Leads, Big, IsUuid, NewRow, Charge, UploadStep, KeyOf, RecordedAs;
    BigFacts(a);
    IdIsUuid('0');
    assert OWNER == Id('0');
    var t1, t2: State;
    events, t1 := StoreAndSave(s, before, t, rid, a, id, c);
    events, t2 := Index(s, events, t1, rid, a, id, c);
    events, t' := Record(s, events, t2, rid, a, id, c);
    StoredIsRecorded(t, t2, t', rid, a, id);
  }

  // What saving, indexing and recording come to.
  lemma StoredIsRecorded(t: State, t2: State, t': State, rid: ReqId, a: UploadArgs, id: MediaId)
    requires a.owner == OWNER && a.file.size == UPLOAD_MAX_BYTES && OWNER in t.w.quota
    requires t2.w.quota == t.w.quota && t2.w.quotaCache == t.w.quotaCache && t2.w.sem == t.w.sem
    requires t2.w.dedup.Keys == t.w.dedup.Keys + {KeyOf(a)} && t2.w.issued.Keys == t.w.issued.Keys + {id}
    requires t2.w.media.Keys == t.w.media.Keys + {id} && t2.reqs == t.reqs[rid := Upload(a, Indexed(id))]
    requires t'.reqs == t2.reqs[rid := Upload(a, Recorded(id))]
    requires t'.w == t2.w.(quota := t2.w.quota[OWNER := Charge(t2.w.quota[OWNER], UPLOAD_MAX_BYTES)],
                           media := t'.w.media, log := t'.w.log)
    requires t'.w.media.Keys == t2.w.media.Keys
    ensures RecordedAs(t, t', rid, a, id)
  {
    hide KeyOf, Charge;
  }

  lemma Index(s: State, before: seq<Event>, t: State, rid: ReqId, a: UploadArgs, id: MediaId, c: Care)
    returns (events: seq<Event>, t': State)
    requires Leads(s, before, t, c) && rid in t.reqs && t.reqs[rid] == Upload(a, Saved(id))
    ensures Leads(s, events, t', c) && t'.reqs == t.reqs[rid := Upload(a, Indexed(id))]
    ensures t'.w == t.w.(dedup := t.w.dedup[KeyOf(a) := id])
  {
    hide Leads;
    events, t' := GoUpload(s, before, t, rid, Yes(), c);
  }

  lemma Record(s: State, before: seq<Event>, t: State, rid: ReqId, a: UploadArgs, id: MediaId, c: Care)
    returns (events: seq<Event>, t': State)
    requires Leads(s, before, t, c) && rid in t.reqs && t.reqs[rid] == Upload(a, Indexed(id))
    requires ValidBlobSize(a.file.size) && a.owner in t.w.quota && id in t.w.media
    ensures Leads(s, events, t', c) && t'.reqs == t.reqs[rid := Upload(a, Recorded(id))]
    ensures t'.w == t.w.(quota := t.w.quota[a.owner := Charge(t.w.quota[a.owner], a.file.size)],
                         media := t.w.media[id := t.w.media[id].(history := t.w.media[id].history.(recorded := true))],
                         log := t'.w.log)
  {
    hide Leads, Charge;
    events, t' := GoUpload(s, before, t, rid, Yes(), c);
  }

  lemma StoreAndSave(s: State, before: seq<Event>, t: State, rid: ReqId, a: UploadArgs, id: MediaId, c: Care)
    returns (events: seq<Event>, t': State)
    requires Leads(s, before, t, c) && rid in t.reqs && t.reqs[rid] == Upload(a, Fresh) && a.thumb == None
    requires UuidsOk(a, id) && id !in t.w.issued
    ensures Leads(s, events, t', c) && t'.reqs == t.reqs[rid := Upload(a, Saved(id))]
    ensures t'.w == t.w.(objects := t'.w.objects, issued := t.w.issued[id := OriginOf(t.w, rid, a)],
                         media := t.w.media[id := NewRow(t.w, a, id, ExpiryOf(t.w, a))])
  {
    hide Leads, Big, IsUuid, BlobPath, InitialAcl;
    var t1, t2: State;
    assert ChoiceOk(t.w, t.reqs[rid], WithId(id));
    events, t1 := GoUpload(s, before, t, rid, WithId(id), c);
    assert t1.reqs == t.reqs[rid := Upload(a, BlobPut(id))];
    events, t2 := GoUpload(s, events, t1, rid, Yes(), c);
    assert t2.reqs == t1.reqs[rid := Upload(a, ReadyToSave(id, ExpiryOf(t.w, a)))];
    events, t' := GoUpload(s, events, t2, rid, Yes(), c);
    assert t'.reqs == t2.reqs[rid := Upload(a, Saved(id))];
  }

  // ----- the overshoot bound is reached, and only clean runs keep it -----

  /** Room for exactly one upload in every dimension. */
  const ONE_UPLOAD: QuotaRow := QuotaRow(0, UPLOAD_MAX_BYTES, 0, 1, 0, 1, 0)

  const START: State := State(
    World(0, Config(3600, 30), map[], map[OWNER := ONE_UPLOAD], map[], map[], map[], map[], map[], map[], [],
          Alerts.EMPTY), map[])

  lemma StartIsInitial()
    ensures Init(START)
  {}

  /** OWNER has uploaded nothing yet. */
  ghost predicate Untouched(t: State) {
    && Counter(t.w, OWNER) == 0 && OWNER in t.w.quota && t.w.quota[OWNER] == ONE_UPLOAD
    && OWNER !in t.w.quotaCache && t.w.dedup == map[] && t.w.issued == map[] && t.w.media == map[]
  }

  /** Three uploads of the same blob are stored and recorded, all admitted by the entry cached before the first. */
  ghost predicate ThreeRecorded(t: State, t': State) {
    ThreeCharged(t') && ThreeWaiting(t, t') && Counter(t'.w, OWNER) == 3 && OldCopy(t'.w)
  }

  /** The cached row is still the one from before the first upload. */
  ghost predicate OldCopy(w: World) {
    OWNER in w.quotaCache && w.quotaCache[OWNER] == Dehydrate(ONE_UPLOAD)
  }

  ghost predicate ThreeCharged(t': State) {
    && OWNER in t'.w.quota && t'.w.quota[OWNER] == QuotaRow(3 * UPLOAD_MAX_BYTES, UPLOAD_MAX_BYTES, 3, 1, 3, 1, 0)
    && t'.w.dedup.Keys == {KeyOf(BigArgs(0, []))} && t'.w.issued.Keys == {Id('0'), Id('1'), Id('2')}
  }

  ghost predicate ThreeWaiting(t: State, t': State) {
    && t'.reqs.Keys == t.reqs.Keys + {0, 1, 2} && t'.reqs[0] == Upload(BigArgs(0, []), Recorded(Id('0')))
    && forall rid :: rid in t.reqs && rid !in {0, 1, 2} ==> t'.reqs[rid] == t.reqs[rid]
  }

  lemma ThreeEnter(s: State, before: seq<Event>, t: State, c: Care)
    returns (events: seq<Event>, t': State)
    requires Leads(s, before, t, c) && Untouched(t) && 0 !in t.reqs && 1 !in t.reqs && 2 !in t.reqs
    ensures Leads(s, events, t', c)
    ensures var a := BigArgs(0, []);
      && t'.reqs == t.reqs[0 := Upload(a, Fresh)][1 := Upload(a, Fresh)][2 := Upload(a, Fresh)]
      && t'.w == t.w.(sem := t'.w.sem, quotaCache := t'.w.quotaCache) && Counter(t'.w, OWNER) == 3
    ensures OldCopy(t'.w)
  {
    hide Leads, BigArgs, KeyOf, UploadStep, Dehydrate, Rehydrate;
    var a := BigArgs(0, []);
    RehydrateDehydrate(ONE_UPLOAD);
    events, t' := EnterByTable(s, before, t, 0, a, c);
    events, t' := EnterByCache(s, events, t', 1, a, c);
    events, t' := EnterByCache(s, events, t', 2, a, c);
  }

  // What three recordings add up to.
  lemma ThreeCharges(t1: State, t2: State, t3: State, t4: State)
    requires OWNER in t1.w.quota && t1.w.quota[OWNER] == ONE_UPLOAD && t1.w.dedup == map[] && t1.w.issued == map[]
    requires var a := BigArgs(0, []);
      RecordedAs(t1, t2, 0, a, Id('0')) && RecordedAs(t2, t3, 1, a, Id('1')) && RecordedAs(t3, t4, 2, a, Id('2'))
    ensures ThreeCharged(t4) && t4.w.sem == t1.w.sem
  {
    hide KeyOf, Id, BigArgs, RecordedAs, Charge;
    var a := BigArgs(0, []);
    Recordings(t1, t2, 0, a, Id('0'));
    Recordings(t2, t3, 1, a, Id('1'));
    Recordings(t3, t4, 2, a, Id('2'));
    ChargedThrice();
  }

  lemma Recordings(t: State, t': State, rid: ReqId, a: UploadArgs, id: MediaId)
    requires RecordedAs(t, t', rid, a, id)
    ensures OWNER in t.w.quota && OWNER in t'.w.quota && t'.w.quota[OWNER] == Charge(t.w.quota[OWNER], UPLOAD_MAX_BYTES)
    ensures t'.w.sem == t.w.sem
    ensures t'.w.dedup.Keys == t.w.dedup.Keys + {KeyOf(a)} && t'.w.issued.Keys == t.w.issued.Keys + {id}
  {}

  lemma ChargedThrice()
    ensures Charge(Charge(Charge(ONE_UPLOAD, UPLOAD_MAX_BYTES), UPLOAD_MAX_BYTES), UPLOAD_MAX_BYTES)
         == QuotaRow(3 * UPLOAD_MAX_BYTES, UPLOAD_MAX_BYTES, 3, 1, 3, 1, 0)
  {}

  lemma ThreeWait(t: State, t1: State, t2: State, t3: State, t4: State)
    requires 0 !in t.reqs && 1 !in t.reqs && 2 !in t.reqs
    requires var a := BigArgs(0, []);
      && t1.reqs == t.reqs[0 := Upload(a, Fresh)][1 := Upload(a, Fresh)][2 := Upload(a, Fresh)]
      && t2.reqs == t1.reqs[0 := Upload(a, Recorded(Id('0')))]
      && t3.reqs == t2.reqs[1 := Upload(a, Recorded(Id('1')))]
      && t4.reqs == t3.reqs[2 := Upload(a, Recorded(Id('2')))]
    ensures ThreeWaiting(t, t4)
  {
    hide KeyOf, Id, BigArgs;
  }

  lemma ThreeRun(s: State, before: seq<Event>, t: State, c: Care)
    returns (events: seq<Event>, t': State)
    requires Leads(s, before, t, c) && Untouched(t) && 0 !in t.reqs && 1 !in t.reqs && 2 !in t.reqs
    ensures Leads(s, events, t', c) && ThreeRecorded(t, t')
  {
    hide Leads, BigArgs, KeyOf, UploadStep, IsUuid, Id, Counter, RecordedAs, ThreeCharged, ThreeWaiting, Dehydrate;
    var a := BigArgs(0, []);
    IdIsUuid('0');
    IdIsUuid('1');
    IdIsUuid('2');
    var t1, t2, t3: State;
    events, t1 := ThreeEnter(s, before, t, c);
    events, t2 := StoreAndRecord(s, events, t1, 0, a, Id('0'), c);
    AfterRecording(t1, t2, 0, a, Id('0'));
    events, t3 := StoreAndRecord(s, events, t2, 1, a, Id('1'), c);
    AfterRecording(t2, t3, 1, a, Id('1'));
    events, t' := StoreAndRecord(s, events, t3, 2, a, Id('2'), c);
    AfterRecording(t3, t', 2, a, Id('2'));
    ThreeCharges(t1, t2, t3, t');
    ThreeWait(t, t1, t2, t3, t');
    SameCounter(t1, t');
  }

  lemma AfterRecording(t: State, t': State, rid: ReqId, a: UploadArgs, id: MediaId)
    requires RecordedAs(t, t', rid, a, id)
    ensures OWNER in t'.w.quota && t'.w.issued.Keys == t.w.issued.Keys + {id}
    ensures t'.reqs == t.reqs[rid := Upload(a, Recorded(id))] && t'.w.quotaCache == t.w.quotaCache
  {}

  lemma SameCounter(t: State, t': State)
    requires t'.w.sem == t.w.sem
    ensures Counter(t'.w, OWNER) == Counter(t.w, OWNER)
  {}

  // A clean run reaches the overshoot bound in all three dimensions at once.
  lemma BoundReached() returns (s: State, events: seq<Event>)
    ensures Init(s) && Run(s, events) && Along(s, events, BothClean)
    ensures OWNER in After(s, events).w.quota
    ensures forall d :: Used(After(s, events).w.quota[OWNER], d)
                     == Limit(After(s, events).w.quota[OWNER], d) + 2 * MaxWeight(d)
  {
    StartIsInitial();
    Begin(START, STRICT);
    hide Leads;
    var t: State;
    s := START;
    events, t := ThreeRun(s, [], s, STRICT);
    LeadsTo(s, events, t, STRICT);
  }
}
