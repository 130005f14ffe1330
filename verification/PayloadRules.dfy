/** The session store's payload validator
    (crates/event-service/src/session_store.rs, `validate_delivery_payload`). */
module PayloadRules {
  import opened Protocol

  /** What the store asks of libraries outside the model: the encoded frame
      length, and whether RLP bytes decode to the header of a block. */
  datatype Oracle = Oracle(frameLen: Delivery -> nat, headerMatches: (Bytes, BlockRef) -> bool)

  predicate IsActivationDelivery(d: Delivery, revision: u64) {
    && d.cursor.Some?
    && d.payload.Some? && d.payload.value.Barrier?
    && d.payload.value.id == ActivationId(revision)
    && d.payload.value.at.None?
  }

  predicate IsProgressBarrier(d: Delivery) {
    && d.cursor.Some?
    && d.payload.Some? && d.payload.value.Barrier?
    && d.payload.value.at.None?
    && d.payload.value.id == ProgressId(d.queryRevision, d.cursor.value.nextBlock)
  }

  /** Reorg tips on two distinct descendant branches of the ancestor. */
  predicate ReorgShapeOk(ancestor: BlockRef, oldTip: BlockRef, newTip: BlockRef) {
    && ancestor.number < oldTip.number && ancestor.number < newTip.number
    && ancestor.timestamp < oldTip.timestamp && ancestor.timestamp < newTip.timestamp
    && oldTip.hash != newTip.hash && oldTip.hash != ancestor.hash && newTip.hash != ancestor.hash
    && (oldTip.number == ancestor.number + 1 ==> oldTip.parentHash == ancestor.hash)
    && (newTip.number == ancestor.number + 1 ==> newTip.parentHash == ancestor.hash)
  }

  /** Block explicitly identified by an event: headers and progress only. */
  function ExplicitBlock(e: ChainEvent): Option<BlockRef> {
    match e
    case Log(_) => None
    case BlockHeader(b, _, _, _) => b
    case BlockProgress(b) => b
  }

  function EventNumber(e: ChainEvent): u64 {
    match e
    case Log(log) => log.blockNumber
    case BlockHeader(b, _, _, _) => if b.Some? then b.value.number else 0
    case BlockProgress(b) => if b.Some? then b.value.number else 0
  }

  datatype Order = Order(number: u64, kind: nat, transaction: u64, index: u64)

  function EventOrder(e: ChainEvent): Order {
    match e
    case Log(log) => Order(log.blockNumber, 1, log.transactionIndex, log.logIndex)
    case BlockHeader(_, _, _, _) => Order(EventNumber(e), 0, 0, 0)
    case BlockProgress(_) => Order(EventNumber(e), 2, 0, 0)
  }

  /** Lexicographic order on (height, kind, transaction index, log index). */
  predicate OrderLeq(a: Order, b: Order) {
    a.number < b.number ||
    (a.number == b.number &&
     (a.kind < b.kind ||
      (a.kind == b.kind &&
       (a.transaction < b.transaction ||
        (a.transaction == b.transaction && a.index <= b.index)))))
  }

  predicate IsKnownOwner(ds: DesiredState, id: string) {
    exists i :: 0 <= i < |ds.owners| && !ds.owners[i].canonical && ds.owners[i].ownerId == id
  }

  predicate Distinct<T(==)>(s: seq<T>) {
    forall i, j :: 0 <= i < j < |s| ==> s[i] != s[j]
  }

  /** Either a broadcast naming nobody, or distinct authoritative owners. */
  predicate AudienceOk(ds: DesiredState, r: EventRecord) {
    if r.canonicalAudience then r.ownerIds == []
    else
      && r.ownerIds != []
      && Distinct(r.ownerIds)
      && (forall i :: 0 <= i < |r.ownerIds| ==> r.ownerIds[i] != "" && IsKnownOwner(ds, r.ownerIds[i]))
  }

  predicate LogShapeOk(log: LogEvent) {
    && |log.address| == 20 && |log.blockHash| == 32 && |log.transactionHash| == 32
    && |log.topics| <= 4
    && (forall i :: 0 <= i < |log.topics| ==> |log.topics[i]| == 32)
  }

  predicate EventOk(o: Oracle, e: ChainEvent) {
    match e
    case Log(log) => LogShapeOk(log)
    case BlockHeader(b, rlp, difficulty, size) =>
      && b.Some? && BlockRefOk(b.value)
      && rlp != [] && |difficulty| <= 32 && |size| <= 32
      && o.headerMatches(rlp, b.value)
    case BlockProgress(b) => b.Some? && BlockRefOk(b.value)
  }

  /** What one record must satisfy on its own. */
  predicate RecordOk(o: Oracle, ds: DesiredState, r: EventRecord) {
    && SCOPE_CANONICAL <= r.scope <= SCOPE_OWNER_CATCHUP
    && AudienceOk(ds, r)
    && (r.scope == SCOPE_OWNER_CATCHUP ==> !r.canonicalAudience)
    && r.event.Some? && EventOk(o, r.event.value)
    && (r.scope == SCOPE_OWNER_CATCHUP ==> !r.event.value.BlockProgress?)
  }

  /** Height, hash and timestamp a record claims for its block. */
  function BlockIdentity(e: ChainEvent): (u64, Bytes, u64) {
    match e
    case Log(log) => (log.blockNumber, log.blockHash, log.blockTimestamp)
    case BlockHeader(b, _, _, _) => if b.Some? then (b.value.number, b.value.hash, b.value.timestamp) else (0, [], 0)
    case BlockProgress(b) => if b.Some? then (b.value.number, b.value.hash, b.value.timestamp) else (0, [], 0)
  }

  /** Two logs are different logs of consistently numbered transactions. */
  predicate LogsAgree(a: LogEvent, b: LogEvent) {
    a.blockHash == b.blockHash ==>
      && a.logIndex != b.logIndex
      && (a.transactionHash == b.transactionHash <==> a.transactionIndex == b.transactionIndex)
  }

  /** What an earlier event `a` and a later event `b` must satisfy together. */
  predicate EventsAgree(a: ChainEvent, b: ChainEvent) {
    && OrderLeq(EventOrder(a), EventOrder(b))
    && (a.Log? && b.Log? ==> LogsAgree(a.log, b.log))
    && (a.BlockHeader? && b.BlockHeader? ==> EventNumber(a) != EventNumber(b))
    && (a.BlockProgress? && b.BlockProgress? ==> EventNumber(a) != EventNumber(b))
    && (BlockIdentity(a).0 == BlockIdentity(b).0 ==> BlockIdentity(a) == BlockIdentity(b))
  }

  predicate PairOk(a: EventRecord, b: EventRecord) {
    a.event.Some? && b.event.Some? ==> EventsAgree(a.event.value, b.event.value)
  }

  predicate RecordsOk(o: Oracle, ds: DesiredState, rs: seq<EventRecord>) {
    && (forall i :: 0 <= i < |rs| ==> RecordOk(o, ds, rs[i]))
    && (forall i, j :: 0 <= i < j < |rs| ==> PairOk(rs[i], rs[j]))
  }

  predicate IsCanonicalRecord(r: EventRecord) {
    r.scope != SCOPE_OWNER_CATCHUP && r.event.Some?
  }

  predicate IsCoverageRecord(r: EventRecord) {
    IsCanonicalRecord(r) && !r.event.value.Log?
  }

  /** Every canonical record is at or below some explicit canonical block. */
  ghost predicate CoverageOk(rs: seq<EventRecord>) {
    forall i :: 0 <= i < |rs| && IsCanonicalRecord(rs[i]) ==> Certified(rs, i)
  }

  predicate ControlOk(p: Payload)
    requires !p.Data?
  {
    match p
    case Reorg(a, t, n) =>
      && a.Some? && t.Some? && n.Some?
      && BlockRefOk(a.value) && BlockRefOk(t.value) && BlockRefOk(n.value)
      && ReorgShapeOk(a.value, t.value, n.value)
    case Finality(kind, b) => (kind == 1 || kind == 2) && b.Some? && BlockRefOk(b.value)
    case Barrier(id, b) => id != "" && (b.Some? ==> BlockRefOk(b.value))
  }

  /** The cursor's head is well formed and the checkpoint-neutral flag marks
      exactly the activation and scan-progress barriers. */
  predicate EnvelopeOk(ds: DesiredState, d: Delivery) {
    && (d.cursor.Some? && d.cursor.value.canonicalHead.Some? ==> BlockRefOk(d.cursor.value.canonicalHead.value))
    && d.payload.Some?
    && (d.checkpointNeutral <==> IsActivationDelivery(d, ds.newRevision) || IsProgressBarrier(d))
  }

  /** What the store accepts as a payload, independent of any cursor. */
  ghost predicate PayloadOk(o: Oracle, ds: DesiredState, d: Delivery) {
    && EnvelopeOk(ds, d)
    && (if d.payload.value.Data? then
          var rs := d.payload.value.records;
          rs != [] && RecordsOk(o, ds, rs) && CoverageOk(rs)
        else ControlOk(d.payload.value))
  }

  /** Keys of the lookup tables filled while the records are scanned. */
  datatype Key =
    | HeaderAt(number: u64)
    | ProgressAt(number: u64)
    | BlockAt(number: u64)
    | LogAt(blockHash: Bytes, index: u64)
    | TransactionByHash(blockHash: Bytes, hash: Bytes)
    | TransactionByIndex(blockHash: Bytes, index: u64)

  datatype Fact = Present | Identity(hash: Bytes, timestamp: u64) | Position(index: u64) | Hash(hash: Bytes)

  type Table = map<Key, Fact>

  /** Keys that at most one event may claim; the others must agree. */
  predicate Exclusive(k: Key) {
    k.HeaderAt? || k.ProgressAt? || k.LogAt?
  }

  /** What an event claims under a key. */
  function Claim(e: ChainEvent, k: Key): Option<Fact> {
    match k
    case BlockAt(n) =>
      var (number, hash, timestamp) := BlockIdentity(e);
      if n == number then Some(Identity(hash, timestamp)) else None
    case HeaderAt(n) => if e.BlockHeader? && n == BlockIdentity(e).0 then Some(Present) else None
    case ProgressAt(n) => if e.BlockProgress? && n == BlockIdentity(e).0 then Some(Present) else None
    case LogAt(h, i) => if e.Log? && e.log.blockHash == h && e.log.logIndex == i then Some(Present) else None
    case TransactionByHash(h, t) =>
      if e.Log? && e.log.blockHash == h && e.log.transactionHash == t then Some(Position(e.log.transactionIndex)) else None
    case TransactionByIndex(h, i) =>
      if e.Log? && e.log.blockHash == h && e.log.transactionIndex == i then Some(Hash(e.log.transactionHash)) else None
  }

  function Keys(e: ChainEvent): (ks: seq<Key>)
    ensures forall k :: k in ks <==> Claim(e, k).Some?
  {
    var number := BlockIdentity(e).0;
    match e
    case Log(log) => [
      BlockAt(number), LogAt(log.blockHash, log.logIndex),
      TransactionByHash(log.blockHash, log.transactionHash),
      TransactionByIndex(log.blockHash, log.transactionIndex)]
    case BlockHeader(_, _, _, _) => [BlockAt(number), HeaderAt(number)]
    case BlockProgress(_) => [BlockAt(number), ProgressAt(number)]
  }

  predicate Clashes(t: Table, e: ChainEvent, k: Key) {
    k in t && (Exclusive(k) || Some(t[k]) != Claim(e, k))
  }

  predicate Conflicts(t: Table, e: ChainEvent) {
    exists k :: k in Keys(e) && Clashes(t, e, k)
  }

  function Remember(t: Table, e: ChainEvent): (u: Table)
    ensures forall k :: k in u <==> k in t || Claim(e, k).Some?
    ensures forall k :: k in u ==> u[k] == if Claim(e, k).Some? then Claim(e, k).value else t[k]
  {
    map k | k in t.Keys + (set k | k in Keys(e)) :: if Claim(e, k).Some? then Claim(e, k).value else t[k]
  }

  /** The table holds exactly what the events claimed. */
  ghost predicate Reflects(t: Table, es: seq<ChainEvent>) {
    && (forall i, k :: 0 <= i < |es| && Claim(es[i], k).Some? ==> k in t && Some(t[k]) == Claim(es[i], k))
    && (forall k :: k in t ==> exists i :: 0 <= i < |es| && Claim(es[i], k) == Some(t[k]))
  }

  /** No key is claimed exclusively by both, nor with two values. */
  ghost predicate ClaimsAgree(a: ChainEvent, b: ChainEvent) {
    forall k :: Claim(a, k).Some? && Claim(b, k).Some? ==> !Exclusive(k) && Claim(a, k) == Claim(b, k)
  }

  /** Identity-level agreement of two events, without the order. */
  predicate IdentitiesAgree(a: ChainEvent, b: ChainEvent) {
    && (a.Log? && b.Log? ==> LogsAgree(a.log, b.log))
    && (a.BlockHeader? && b.BlockHeader? ==> BlockIdentity(a).0 != BlockIdentity(b).0)
    && (a.BlockProgress? && b.BlockProgress? ==> BlockIdentity(a).0 != BlockIdentity(b).0)
    && (BlockIdentity(a).0 == BlockIdentity(b).0 ==> BlockIdentity(a) == BlockIdentity(b))
  }

  lemma ClaimsAreIdentities(a: ChainEvent, b: ChainEvent)
    ensures ClaimsAgree(a, b) <==> IdentitiesAgree(a, b)
  {
    if ClaimsAgree(a, b) {
      var number := BlockIdentity(a).0;
      assert Claim(a, BlockAt(number)).Some?;
      assert a.BlockHeader? ==> Claim(a, HeaderAt(number)).Some?;
      assert a.BlockProgress? ==> Claim(a, ProgressAt(number)).Some?;
      if a.Log? && b.Log? && a.log.blockHash == b.log.blockHash {
        assert Claim(a, LogAt(a.log.blockHash, a.log.logIndex)).Some?;
        assert Claim(a, TransactionByHash(a.log.blockHash, a.log.transactionHash)).Some?;
        assert Claim(a, TransactionByIndex(a.log.blockHash, a.log.transactionIndex)).Some?;
      }
    }
  }

  /** Table lookups find a conflict exactly when some earlier event disagrees. */
  lemma ConflictIffDisagreement(t: Table, es: seq<ChainEvent>, e: ChainEvent)
    requires Reflects(t, es)
    ensures Conflicts(t, e) <==> exists i :: 0 <= i < |es| && !ClaimsAgree(es[i], e)
  {
    if Conflicts(t, e) {
      var k :| k in Keys(e) && Clashes(t, e, k);
      var i :| 0 <= i < |es| && Claim(es[i], k) == Some(t[k]);
      assert !ClaimsAgree(es[i], e);
    }
    if i :| 0 <= i < |es| && !ClaimsAgree(es[i], e) {
      var k :| Claim(es[i], k).Some? && Claim(e, k).Some? && !(!Exclusive(k) && Claim(es[i], k) == Claim(e, k));
      assert k in Keys(e) && Clashes(t, e, k);
    }
  }

  /** Remembering a consistent event keeps the table exact. */
  lemma RememberReflects(t: Table, es: seq<ChainEvent>, e: ChainEvent)
    requires Reflects(t, es) && !Conflicts(t, e)
    ensures Reflects(Remember(t, e), es + [e])
  {
    var u := Remember(t, e);
    var all := es + [e];
    forall i, k | 0 <= i < |all| && Claim(all[i], k).Some? ensures k in u && Some(u[k]) == Claim(all[i], k) {
      if i < |es| {
        assert Some(t[k]) == Claim(es[i], k);
        if Claim(e, k).Some? { assert k in Keys(e) && !Clashes(t, e, k); }
      }
    }
    forall k | k in u ensures exists i :: 0 <= i < |all| && Claim(all[i], k) == Some(u[k]) {
      if Claim(e, k).Some? {
        assert all[|es|] == e;
      } else {
        var i :| 0 <= i < |es| && Claim(es[i], k) == Some(t[k]);
        assert all[i] == es[i];
      }
    }
  }

  function EventsOf(rs: seq<EventRecord>): (es: seq<ChainEvent>)
    requires forall i :: 0 <= i < |rs| ==> rs[i].event.Some?
    ensures |es| == |rs| && forall i :: 0 <= i < |rs| ==> es[i] == rs[i].event.value
  {
    seq(|rs|, i requires 0 <= i < |rs| => rs[i].event.value)
  }

  lemma AppendRecord(o: Oracle, ds: DesiredState, rs: seq<EventRecord>, r: EventRecord)
    requires RecordsOk(o, ds, rs)
    ensures RecordsOk(o, ds, rs + [r]) <==>
            RecordOk(o, ds, r) && forall i :: 0 <= i < |rs| ==> PairOk(rs[i], r)
  {
    var all := rs + [r];
    assert all[|rs|] == r && forall i :: 0 <= i < |rs| ==> all[i] == rs[i];
    if RecordsOk(o, ds, all) {
      forall i | 0 <= i < |rs| ensures PairOk(rs[i], r) {
        assert PairOk(all[i], all[|rs|]);
      }
    }
  }

  lemma OrderExtends(rs: seq<EventRecord>, r: EventRecord)
    requires forall i :: 0 <= i < |rs| ==> rs[i].event.Some?
    requires forall i, j :: 0 <= i < j < |rs| ==> PairOk(rs[i], rs[j])
    requires r.event.Some?
    requires rs != [] ==> OrderLeq(EventOrder(rs[|rs| - 1].event.value), EventOrder(r.event.value))
    ensures forall i :: 0 <= i < |rs| ==> OrderLeq(EventOrder(rs[i].event.value), EventOrder(r.event.value))
  {
    forall i | 0 <= i < |rs| ensures OrderLeq(EventOrder(rs[i].event.value), EventOrder(r.event.value)) {
      if i < |rs| - 1 { assert PairOk(rs[i], rs[|rs| - 1]); }
    }
  }

  /** Adding a record to an accepted prefix keeps it accepted exactly when the
      record is well formed, in order and free of conflicts. */
  lemma AdmitRecord(o: Oracle, ds: DesiredState, rs: seq<EventRecord>, t: Table, r: EventRecord)
    requires RecordsOk(o, ds, rs)
    requires Reflects(t, EventsOf(rs))
    ensures RecordsOk(o, ds, rs + [r]) <==>
            && RecordOk(o, ds, r)
            && (rs != [] ==> OrderLeq(EventOrder(rs[|rs| - 1].event.value), EventOrder(r.event.value)))
            && !Conflicts(t, r.event.value)
  {
    AppendRecord(o, ds, rs, r);
    if RecordOk(o, ds, r) {
      var es := EventsOf(rs);
      var e := r.event.value;
      ConflictIffDisagreement(t, es, e);
      forall i | 0 <= i < |rs| ensures ClaimsAgree(es[i], e) <==> IdentitiesAgree(es[i], e) {
        ClaimsAreIdentities(es[i], e);
      }
      if rs != [] ==> OrderLeq(EventOrder(rs[|rs| - 1].event.value), EventOrder(e)) {
        OrderExtends(rs, r);
      }
    }
  }

  predicate MaxOf(best: Option<u64>, n: u64) {
    best.Some? && n <= best.value
  }

  function Raise(best: Option<u64>, n: u64): Option<u64> {
    if best.Some? && n <= best.value then best else Some(n)
  }

  /** The best height is attained by a selected record and bounds them all. */
  ghost predicate IsHighest(best: Option<u64>, rs: seq<EventRecord>, coverage: bool) {
    && (forall i :: 0 <= i < |rs| && Selected(rs[i], coverage) ==>
          MaxOf(best, EventNumber(rs[i].event.value)))
    && (best.Some? ==> exists i :: 0 <= i < |rs| && Selected(rs[i], coverage)
                                   && EventNumber(rs[i].event.value) == best.value)
  }

  predicate Selected(r: EventRecord, coverage: bool) {
    if coverage then IsCoverageRecord(r) else IsCanonicalRecord(r)
  }

  lemma RaiseIsHighest(best: Option<u64>, rs: seq<EventRecord>, coverage: bool, r: EventRecord)
    requires IsHighest(best, rs, coverage) && r.event.Some?
    ensures IsHighest(if Selected(r, coverage) then Raise(best, EventNumber(r.event.value)) else best, rs + [r], coverage)
  {
    var all := rs + [r];
    assert all[|rs|] == r && forall i :: 0 <= i < |rs| ==> all[i] == rs[i];
    if best.Some? {
      var i :| 0 <= i < |rs| && Selected(rs[i], coverage) && EventNumber(rs[i].event.value) == best.value;
      assert Selected(all[i], coverage) && EventNumber(all[i].event.value) == best.value;
    }
    if Selected(r, coverage) {
      assert Selected(all[|rs|], coverage);
    }
  }

  /** Record `i` is certified by an explicit canonical block at or above it. */
  ghost predicate Certified(rs: seq<EventRecord>, i: nat)
    requires i < |rs| && IsCanonicalRecord(rs[i])
  {
    exists j :: 0 <= j < |rs| && IsCoverageRecord(rs[j]) &&
      EventNumber(rs[i].event.value) <= EventNumber(rs[j].event.value)
  }

  lemma CertifiedBelowCoverage(rs: seq<EventRecord>, i: nat, coverage: Option<u64>)
    requires i < |rs| && IsCanonicalRecord(rs[i]) && IsHighest(coverage, rs, true)
    ensures Certified(rs, i) <==> MaxOf(coverage, EventNumber(rs[i].event.value))
  {
    if Certified(rs, i) {
      var j :| 0 <= j < |rs| && IsCoverageRecord(rs[j]) &&
        EventNumber(rs[i].event.value) <= EventNumber(rs[j].event.value);
      assert Selected(rs[j], true);
    }
    if coverage.Some? {
      var j :| 0 <= j < |rs| && Selected(rs[j], true) && EventNumber(rs[j].event.value) == coverage.value;
      assert IsCoverageRecord(rs[j]);
    }
  }

  lemma CoverageFromHighest(rs: seq<EventRecord>, record: Option<u64>, coverage: Option<u64>)
    requires IsHighest(record, rs, false) && IsHighest(coverage, rs, true)
    ensures CoverageOk(rs) <==> (record.Some? ==> MaxOf(coverage, record.value))
  {
    forall i | 0 <= i < |rs| && IsCanonicalRecord(rs[i])
      ensures Certified(rs, i) <==> MaxOf(coverage, EventNumber(rs[i].event.value))
      ensures MaxOf(record, EventNumber(rs[i].event.value))
    {
      CertifiedBelowCoverage(rs, i, coverage);
      assert Selected(rs[i], false);
    }
    if record.Some? {
      var i :| 0 <= i < |rs| && Selected(rs[i], false) && EventNumber(rs[i].event.value) == record.value;
      assert IsCanonicalRecord(rs[i]);
    }
  }

  /** Where the scan stands after an accepted prefix. */
  datatype Scan = Scan(seen: Table, last: Option<Order>, highestRecord: Option<u64>, highestCoverage: Option<u64>)

  ghost predicate ScanOf(o: Oracle, ds: DesiredState, rs: seq<EventRecord>, s: Scan) {
    && RecordsOk(o, ds, rs)
    && Reflects(s.seen, EventsOf(rs))
    && s.last == (if rs == [] then None else Some(EventOrder(rs[|rs| - 1].event.value)))
    && IsHighest(s.highestRecord, rs, false)
    && IsHighest(s.highestCoverage, rs, true)
  }

  predicate Admissible(o: Oracle, ds: DesiredState, s: Scan, r: EventRecord) {
    && RecordOk(o, ds, r)
    && (s.last.Some? ==> OrderLeq(s.last.value, EventOrder(r.event.value)))
    && !Conflicts(s.seen, r.event.value)
  }

  function Advance(s: Scan, r: EventRecord): Scan
    requires r.event.Some?
  {
    var e := r.event.value;
    Scan(Remember(s.seen, e), Some(EventOrder(e)),
         if IsCanonicalRecord(r) then Raise(s.highestRecord, EventNumber(e)) else s.highestRecord,
         if IsCoverageRecord(r) then Raise(s.highestCoverage, EventNumber(e)) else s.highestCoverage)
  }

  lemma ScanStep(o: Oracle, ds: DesiredState, rs: seq<EventRecord>, s: Scan, r: EventRecord)
    requires ScanOf(o, ds, rs, s)
    ensures Admissible(o, ds, s, r) <==> RecordsOk(o, ds, rs + [r])
    ensures Admissible(o, ds, s, r) ==> ScanOf(o, ds, rs + [r], Advance(s, r))
  {
    AdmitRecord(o, ds, rs, s.seen, r);
    if Admissible(o, ds, s, r) {
      RememberReflects(s.seen, EventsOf(rs), r.event.value);
      assert EventsOf(rs + [r]) == EventsOf(rs) + [r.event.value];
      RaiseIsHighest(s.highestRecord, rs, false, r);
      RaiseIsHighest(s.highestCoverage, rs, true, r);
    }
  }

  /** One pass over the records with lookup tables decides the pairwise record
      rules and the coverage rule. */
  method ValidateRecords(o: Oracle, ds: DesiredState, rs: seq<EventRecord>) returns (ok: bool)
    ensures ok <==> RecordsOk(o, ds, rs) && CoverageOk(rs)
  {
    var scan := Scan(map[], None, None, None);
    var i := 0;
    while i < |rs|
      invariant 0 <= i <= |rs|
      invariant ScanOf(o, ds, rs[..i], scan)
    {
      ScanStep(o, ds, rs[..i], scan, rs[i]);
      assert rs[..i + 1] == rs[..i] + [rs[i]];
      if !Admissible(o, ds, scan, rs[i]) {
        PrefixAccepted(o, ds, rs, i + 1);
        return false;
      }
      scan := Advance(scan, rs[i]);
      i := i + 1;
    }
    assert rs[..|rs|] == rs;
    CoverageFromHighest(rs, scan.highestRecord, scan.highestCoverage);
    ok := scan.highestRecord.Some? ==> MaxOf(scan.highestCoverage, scan.highestRecord.value);
  }

  lemma PrefixAccepted(o: Oracle, ds: DesiredState, rs: seq<EventRecord>, n: nat)
    requires n <= |rs|
    ensures RecordsOk(o, ds, rs) ==> RecordsOk(o, ds, rs[..n])
  {
  }

  /** The validator accepts exactly the payloads `PayloadOk` describes. */
  method ValidateDeliveryPayload(o: Oracle, ds: DesiredState, d: Delivery) returns (ok: bool)
    ensures ok <==> PayloadOk(o, ds, d)
  {
    if !EnvelopeOk(ds, d) { return false; }
    if !d.payload.value.Data? { return ControlOk(d.payload.value); }
    if d.payload.value.records == [] { return false; }
    ok := ValidateRecords(o, ds, d.payload.value.records);
  }
}
