/**
 The store file: a checked header and a body of tagged, individually checked records.
 */
module Store {
  import opened Basics
  import opened Types
  import opened Wire
  import opened Serialize
  import opened Crc

  const STORE_MAGIC: U32 := 0x4346_4653
  const FORMAT_VERSION: U32 := 1
  const MAX_FILE_SIZE := 0x1000_0000
  const MAX_RECORDS := 0x10_0000
  const FILE_HEADER := 20

  // ----- records -----

  const EPOCH: Byte := 1
  const WORKLOAD_TAG: Byte := 2
  const TASK_TAG: Byte := 3
  const TASK_STATE: Byte := 4
  const ATTEMPT_TAG: Byte := 5
  const RETRY_COUNT: Byte := 6
  const PLACEMENT_TAG: Byte := 7

  datatype Rec = Rec(tag: Byte, payload: Bytes)

  const STATE_ENTRY: Codec<(Id, Byte)> := Pair(ID, U8)
  const COUNT_ENTRY: Codec<(Id, U32)> := Pair(ID, WORD)
  const PLACEMENT_ENTRY: Codec<(Id, (U64, PlacementDecision))> := Pair(ID, Pair(LONG, PLACEMENT))

  lemma GoodRecords()
    ensures Good(LONG) && Good(WORKLOAD) && Good(TASK) && Good(ATTEMPT)
    ensures Good(STATE_ENTRY) && Good(COUNT_ENTRY) && Good(PLACEMENT_ENTRY)
  {
    GoodLong();
    GoodWorkload();
    GoodTask();
    GoodAttempt();
    GoodPlacement();
    GoodId();
    GoodByte();
    GoodWord();
    hide Good, PLACEMENT;
    GoodPair(ID, U8);
    GoodPair(ID, WORD);
    GoodPair(LONG, PLACEMENT);
    GoodPair(ID, Pair(LONG, PLACEMENT));
  }

  /** A record holding `x`. */
  ghost function Holding<T(!new)>(tag: Byte, c: Codec<T>, x: T): Rec {
    Rec(tag, if Good(c) then Encoded(c, x) else [])
  }

  ghost function WorkloadRecs(m: map<Id, Workload>, ids: seq<Id>): seq<Rec>
    requires forall t :: t in ids ==> t in m
  {
    if ids == [] then [] else [Holding(WORKLOAD_TAG, WORKLOAD, m[ids[0]])] + WorkloadRecs(m, ids[1..])
  }

  ghost function TaskRecs(m: map<Id, ComputeTask>, ids: seq<Id>): seq<Rec>
    requires forall t :: t in ids ==> t in m
  {
    if ids == [] then [] else [Holding(TASK_TAG, TASK, m[ids[0]])] + TaskRecs(m, ids[1..])
  }

  ghost function StateRecs(m: map<Id, TaskState>, ids: seq<Id>): seq<Rec>
    requires forall t :: t in ids ==> t in m
  {
    if ids == [] then [] else [Holding(TASK_STATE, STATE_ENTRY, (ids[0], m[ids[0]]))] + StateRecs(m, ids[1..])
  }

  ghost function AttemptRecs(l: seq<Attempt>): seq<Rec> {
    if l == [] then [] else [Holding(ATTEMPT_TAG, ATTEMPT, l[0])] + AttemptRecs(l[1..])
  }

  ghost function AllAttemptRecs(m: map<Id, seq<Attempt>>, ids: seq<Id>): seq<Rec>
    requires forall t :: t in ids ==> t in m
  {
    if ids == [] then [] else AttemptRecs(m[ids[0]]) + AllAttemptRecs(m, ids[1..])
  }

  ghost function CountRecs(m: map<Id, U32>, ids: seq<Id>): seq<Rec>
    requires forall t :: t in ids ==> t in m
  {
    if ids == [] then [] else [Holding(RETRY_COUNT, COUNT_ENTRY, (ids[0], m[ids[0]]))] + CountRecs(m, ids[1..])
  }

  function PlacementRow(p: StoredPlacement): (Id, (U64, PlacementDecision)) {
    (p.taskId, (p.sequence, p.decision))
  }

  ghost function PlacementRecs(l: seq<StoredPlacement>): seq<Rec> {
    if l == [] then []
    else [Holding(PLACEMENT_TAG, PLACEMENT_ENTRY, PlacementRow(l[0]))] + PlacementRecs(l[1..])
  }

  /** The records of a state, in the order they are written. */
  ghost function Records(d: DurableState): seq<Rec> {
    [Holding(EPOCH, LONG, d.epoch)]
    + (WorkloadRecs(d.workloads, Walk(d.workloads.Keys))
       + (TaskRecs(d.tasks, Walk(d.tasks.Keys))
          + (StateRecs(d.taskStates, Walk(d.taskStates.Keys))
             + (AllAttemptRecs(d.attempts, Walk(d.attempts.Keys))
                + (CountRecs(d.retryCounts, Walk(d.retryCounts.Keys)) + PlacementRecs(d.placements))))))
  }

  // ----- bytes -----

  function RecBytes(r: Rec): Bytes {
    [r.tag] + BigEndian(|r.payload|, 4) + BigEndian(Crc32(r.payload), 4) + r.payload
  }

  function RecsBytes(rs: seq<Rec>): Bytes {
    if rs == [] then [] else RecBytes(rs[0]) + RecsBytes(rs[1..])
  }

  function Body(rs: seq<Rec>): Bytes {
    BigEndian(|rs|, 4) + RecsBytes(rs)
  }

  function FileOf(body: Bytes): Bytes {
    BigEndian(STORE_MAGIC, 4) + BigEndian(FORMAT_VERSION, 4) + BigEndian(|body|, 8) + BigEndian(Crc32(body), 4) + body
  }

  ghost function Save(d: DurableState): Bytes {
    FileOf(Body(Records(d)))
  }

  // ----- reading -----

  function ParseRec(s: Bytes): Option<Parsed<Rec>> {
    if |s| < 9 then None else
    var n := FromBigEndian(s[1..5]);
    if n > MAX_FILE_SIZE || |s| - 9 < n then None else
    var payload := s[9..9 + n];
    if Crc32(payload) != FromBigEndian(s[5..9]) then None else Some(Parsed(Rec(s[0], payload), s[9 + n..]))
  }

  function ParseRecs(n: nat, s: Bytes): Option<seq<Rec>> {
    if n == 0 then Some([]) else
    var p := ParseRec(s);
    if p == None then None else
    var q := ParseRecs(n - 1, p.value.rest);
    if q == None then None else Some([p.value.value] + q.value)
  }

  function ParseBody(s: Bytes): Option<seq<Rec>> {
    if |s| < 4 || FromBigEndian(s[..4]) > MAX_RECORDS then None else ParseRecs(FromBigEndian(s[..4]), s[4..])
  }

  function Filed(m: map<Id, seq<Attempt>>, a: Attempt): map<Id, seq<Attempt>> {
    m[a.taskId := (if a.taskId in m then m[a.taskId] else []) + [a]]
  }

  /** The state with one record taken in. */
  function Apply(d: DurableState, r: Rec): Option<DurableState> {
    if r.tag == EPOCH then
      var p := Decoded(LONG, r.payload);
      if p == None then None else Some(d.(epoch := p.value.value))
    else if r.tag == WORKLOAD_TAG then
      var p := Decoded(WORKLOAD, r.payload);
      if p == None then None else Some(d.(workloads := d.workloads[p.value.value.id := p.value.value]))
    else if r.tag == TASK_TAG then
      var p := Decoded(TASK, r.payload);
      if p == None then None else Some(d.(tasks := d.tasks[p.value.value.id := p.value.value]))
    else if r.tag == TASK_STATE then
      var p := Decoded(STATE_ENTRY, r.payload);
      if p == None then None else Some(d.(taskStates := d.taskStates[p.value.value.0 := p.value.value.1]))
    else if r.tag == ATTEMPT_TAG then
      var p := Decoded(ATTEMPT, r.payload);
      if p == None then None
      else Some(if p.value.value.committed then d.(attempts := Filed(d.attempts, p.value.value)) else d)
    else if r.tag == RETRY_COUNT then
      var p := Decoded(COUNT_ENTRY, r.payload);
      if p == None then None else Some(d.(retryCounts := d.retryCounts[p.value.value.0 := p.value.value.1]))
    else if r.tag == PLACEMENT_TAG then
      var p := Decoded(PLACEMENT_ENTRY, r.payload);
      if p == None then None
      else Some(d.(placements := d.placements
                  + [StoredPlacement(p.value.value.0, p.value.value.1.0, p.value.value.1.1)]))
    else None
  }

  function ApplyAll(d: DurableState, rs: seq<Rec>): Option<DurableState>
    decreases |rs|
  {
    if rs == [] then Some(d) else
    var d1 := Apply(d, rs[0]);
    if d1 == None then None else ApplyAll(d1.value, rs[1..])
  }

  function LoadBody(s: Bytes): Result<DurableState> {
    var rs := ParseBody(s);
    if rs == None then Err(CorruptionDetected) else
    var d := ApplyAll(EMPTY_DISK, rs.value);
    if d == None then Err(CorruptionDetected) else Ok(d.value)
  }

  function CheckHeader(s: Bytes): Outcome {
    if |s| < FILE_HEADER || |s| > MAX_FILE_SIZE then Failed(CorruptionDetected)
    else if FromBigEndian(s[..4]) != STORE_MAGIC then Failed(CorruptionDetected)
    else if FromBigEndian(s[4..8]) != FORMAT_VERSION then Failed(PersistenceError)
    else if FromBigEndian(s[8..16]) != |s| - FILE_HEADER then Failed(CorruptionDetected)
    else if FromBigEndian(s[16..20]) != Crc32(s[20..]) then Failed(CorruptionDetected)
    else Done
  }

  function Load(s: Bytes): Result<DurableState> {
    var h := CheckHeader(s);
    if h.Failed? then Err(h.error) else LoadBody(s[20..])
  }

  // ----- the header guards the body -----

  lemma FileParts(body: Bytes)
    ensures var s := FileOf(body);
            && |s| == FILE_HEADER + |body|
            && s[..4] == BigEndian(STORE_MAGIC, 4) && s[4..8] == BigEndian(FORMAT_VERSION, 4)
            && s[8..16] == BigEndian(|body|, 8) && s[16..20] == BigEndian(Crc32(body), 4) && s[20..] == body
  {
    hide BigEndian, Crc32;
  }

  lemma HeaderIs(body: Bytes)
    requires |body| < TWO_64
    ensures var s := FileOf(body);
            && |s| == FILE_HEADER + |body|
            && FromBigEndian(s[..4]) == STORE_MAGIC && FromBigEndian(s[4..8]) == FORMAT_VERSION
            && FromBigEndian(s[8..16]) == |body| && FromBigEndian(s[16..20]) == Crc32(body) && s[20..] == body
  {
    FileParts(body);
    Widths();
    hide FileOf, Pow256, Crc32;
    BigEndianRoundTrip(STORE_MAGIC, 4);
    BigEndianRoundTrip(FORMAT_VERSION, 4);
    BigEndianRoundTrip(|body|, 8);
    BigEndianRoundTrip(Crc32(body), 4);
  }

  lemma FileAccepted(body: Bytes)
    requires |body| + FILE_HEADER <= MAX_FILE_SIZE
    ensures CheckHeader(FileOf(body)) == Done
  {
    HeaderIs(body);
    hide FileOf, FromBigEndian, Crc32;
  }

  /** What an accepted header says. */
  lemma AcceptedSays(s: Bytes)
    requires Load(s).Ok?
    ensures FILE_HEADER <= |s| && FromBigEndian(s[..4]) == STORE_MAGIC && FromBigEndian(s[4..8]) == FORMAT_VERSION
    ensures FromBigEndian(s[8..16]) == |s| - FILE_HEADER && FromBigEndian(s[16..20]) == Crc32(s[20..])
  {
    hide FromBigEndian, Crc32, LoadBody;
  }

  /** Every strict prefix of a file is rejected, whatever its body. */
  lemma PrefixRejected(body: Bytes, k: nat)
    requires |body| < TWO_64 && k < |FileOf(body)|
    ensures Load(FileOf(body)[..k]).Err?
  {
    HeaderIs(body);
    var s := FileOf(body);
    hide FileOf, FromBigEndian, Crc32, Load;
    if Load(s[..k]).Ok? {
      AcceptedSays(s[..k]);
      SameSize(s, k);
    }
  }

  lemma SameSize(s: Bytes, k: nat)
    requires FILE_HEADER <= k <= |s|
    ensures s[..k][8..16] == s[8..16]
  {
  }

  /** Two accepted files with the same body are the same. */
  lemma HeaderDetermined(s: Bytes, t: Bytes)
    requires FILE_HEADER <= |s| == |t| && s[20..] == t[20..]
    requires FromBigEndian(s[..4]) == FromBigEndian(t[..4]) && FromBigEndian(s[4..8]) == FromBigEndian(t[4..8])
    requires FromBigEndian(s[8..16]) == FromBigEndian(t[8..16]) && FromBigEndian(s[16..20]) == FromBigEndian(t[16..20])
    ensures s == t
  {
    hide FromBigEndian;
    FromBigEndianInjective(s[..4], t[..4]);
    FromBigEndianInjective(s[4..8], t[4..8]);
    FromBigEndianInjective(s[8..16], t[8..16]);
    FromBigEndianInjective(s[16..20], t[16..20]);
    Cut(s);
    Cut(t);
  }

  lemma Cut(s: Bytes)
    requires |s| >= FILE_HEADER
    ensures s == s[..4] + s[4..8] + s[8..16] + s[16..20] + s[20..]
  {
  }

  /** A file whose header differs is rejected, however it differs. */
  lemma DamagedHeaderRejected(body: Bytes, t: Bytes)
    requires |body| < TWO_64 && |t| == |FileOf(body)| && t != FileOf(body) && t[20..] == body
    ensures Load(t).Err?
  {
    HeaderIs(body);
    var s := FileOf(body);
    hide FileOf, FromBigEndian, Crc32, Load;
    if Load(t).Ok? {
      AcceptedSays(t);
      HeaderDetermined(s, t);
    }
  }

  /** A file whose body differs within four consecutive bytes is rejected. */
  lemma DamagedBodyRejected(body: Bytes, t: Bytes, i: nat)
    requires |body| < TWO_64 && |t| == |FileOf(body)|
    requires t[..20] == FileOf(body)[..20] && DifferWithin(body, t[20..], i)
    ensures Load(t).Err?
  {
    HeaderIs(body);
    var s := FileOf(body);
    hide FileOf, FromBigEndian, Crc32, Load;
    DifferenceDetected(body, t[20..], i);
    SameField(s, t);
    if Load(t).Ok? {
      AcceptedSays(t);
    }
  }

  lemma SameField(s: Bytes, t: Bytes)
    requires FILE_HEADER <= |s| && FILE_HEADER <= |t| && s[..20] == t[..20]
    ensures s[16..20] == t[16..20]
  {
    assert s[..20][16..20] == s[16..20] && t[..20][16..20] == t[16..20];
  }

  /** Every change of a single byte is detected. */
  lemma SingleByteRejected(body: Bytes, k: nat, b: Byte)
    requires |body| < TWO_64 && k < |FileOf(body)| && FileOf(body)[k] != b
    ensures Load(FileOf(body)[k := b]).Err?
  {
    HeaderIs(body);
    var s := FileOf(body);
    hide FileOf, Load, Crc32, FromBigEndian, DifferWithin;
    var t := s[k := b];
    assert t[k] != s[k];
    if k < FILE_HEADER {
      TailUnchanged(s, k, b);
      DamagedHeaderRejected(body, t);
    } else {
      OneByteDiffers(s, k, b);
      DamagedBodyRejected(body, t, k - 20);
    }
  }

  lemma TailUnchanged(s: Bytes, k: nat, b: Byte)
    requires k < FILE_HEADER <= |s|
    ensures s[k := b][20..] == s[20..]
  {
  }

  lemma OneByteDiffers(s: Bytes, k: nat, b: Byte)
    requires FILE_HEADER <= k < |s| && s[k] != b
    ensures s[k := b][..20] == s[..20] && DifferWithin(s[20..], s[k := b][20..], k - 20)
  {
    assert s[k := b][20..][k - 20] != s[20..][k - 20];
  }

  // ----- records read back -----

  lemma RecParts(r: Rec, rest: Bytes)
    ensures var s := RecBytes(r) + rest;
            && |s| == 9 + |r.payload| + |rest| && s[0] == r.tag
            && s[1..5] == BigEndian(|r.payload|, 4) && s[5..9] == BigEndian(Crc32(r.payload), 4)
            && s[9..9 + |r.payload|] == r.payload && s[9 + |r.payload|..] == rest
  {
    hide BigEndian, Crc32;
    var a, b := BigEndian(|r.payload|, 4), BigEndian(Crc32(r.payload), 4);
    assert RecBytes(r) + rest == [r.tag] + a + b + r.payload + rest;
  }

  lemma RecReadBack(r: Rec, rest: Bytes)
    requires |r.payload| <= MAX_FILE_SIZE
    ensures ParseRec(RecBytes(r) + rest) == Some(Parsed(r, rest))
  {
    RecParts(r, rest);
    Widths();
    hide RecBytes, Crc32, Pow256;
    BigEndianRoundTrip(|r.payload|, 4);
    BigEndianRoundTrip(Crc32(r.payload), 4);
  }

  lemma {:induction false} RecsReadBack(rs: seq<Rec>, rest: Bytes)
    requires forall r :: r in rs ==> |r.payload| <= MAX_FILE_SIZE
    ensures ParseRecs(|rs|, RecsBytes(rs) + rest) == Some(rs)
    decreases |rs|
  {
    hide RecBytes, ParseRec;
    if rs != [] {
      var tail := RecsBytes(rs[1..]) + rest;
      assert RecsBytes(rs) + rest == RecBytes(rs[0]) + tail;
      RecReadBack(rs[0], tail);
      RecsReadBack(rs[1..], rest);
      HeadAndTail(rs);
    }
  }

  lemma {:induction false} PayloadsFit(rs: seq<Rec>, r: Rec)
    requires r in rs
    ensures |r.payload| <= |RecsBytes(rs)|
    decreases |rs|
  {
    hide BigEndian, Crc32;
    if r != rs[0] {
      PayloadsFit(rs[1..], r);
    }
  }

  lemma BodyReadBack(rs: seq<Rec>)
    requires |rs| <= MAX_RECORDS && |Body(rs)| <= MAX_FILE_SIZE
    ensures ParseBody(Body(rs)) == Some(rs)
  {
    CountRoundTrip(|rs|, RecsBytes(rs));
    assert RecsBytes(rs) + [] == RecsBytes(rs);
    hide BigEndian, FromBigEndian, RecsBytes, ParseRecs;
    forall r | r in rs ensures |r.payload| <= MAX_FILE_SIZE { PayloadsFit(rs, r); }
    RecsReadBack(rs, []);
  }

  // ----- records taken in -----

  lemma {:induction false} ApplyAppend(d: DurableState, rs: seq<Rec>, ts: seq<Rec>)
    requires ApplyAll(d, rs).Some?
    ensures ApplyAll(d, rs + ts) == ApplyAll(ApplyAll(d, rs).value, ts)
    decreases |rs|
  {
    hide Apply;
    if rs == [] {
      assert rs + ts == ts;
    } else {
      assert (rs + ts)[1..] == rs[1..] + ts;
      ApplyAppend(Apply(d, rs[0]).value, rs[1..], ts);
    }
  }

  lemma Held<T(!new)>(tag: Byte, c: Codec<T>, x: T)
    requires Good(c) && c.within(x)
    ensures Decoded(c, Holding(tag, c, x).payload) == Some(Parsed(x, []))
  {
    hide Good, Encoded, Decoded;
    CodecRoundTrip(c, x, []);
    assert Encoded(c, x) + [] == Encoded(c, x);
  }

  function Sub<T>(m: map<Id, T>, ids: seq<Id>): map<Id, T> {
    map k | k in m && k in ids :: m[k]
  }

  lemma SubNext<T>(have: map<Id, T>, m: map<Id, T>, ids: seq<Id>)
    requires ids != [] && ids[0] in m
    ensures have + Sub(m, ids) == have[ids[0] := m[ids[0]]] + Sub(m, ids[1..])
  {
    assert forall k :: k in ids <==> k == ids[0] || k in ids[1..];
  }

  lemma SubNone<T>(have: map<Id, T>, m: map<Id, T>)
    ensures have + Sub(m, []) == have
  {
  }

  lemma SubAll<T>(m: map<Id, T>)
    ensures map[] + Sub(m, Walk(m.Keys)) == m
  {
  }

  // What each kind of record does.

  lemma WorkloadApplied(d: DurableState, w: Workload)
    requires WORKLOAD.within(w)
    ensures Apply(d, Holding(WORKLOAD_TAG, WORKLOAD, w)) == Some(d.(workloads := d.workloads[w.id := w]))
  {
    GoodRecords();
    hide Good, WORKLOAD, Holding, Decoded;
    Held(WORKLOAD_TAG, WORKLOAD, w);
    HeldTag(WORKLOAD_TAG, WORKLOAD, w);
  }

  lemma TaskApplied(d: DurableState, t: ComputeTask)
    requires TASK.within(t)
    ensures Apply(d, Holding(TASK_TAG, TASK, t)) == Some(d.(tasks := d.tasks[t.id := t]))
  {
    GoodRecords();
    hide Good, TASK, Holding, Decoded;
    Held(TASK_TAG, TASK, t);
    HeldTag(TASK_TAG, TASK, t);
  }

  lemma StateApplied(d: DurableState, e: (Id, Byte))
    requires STATE_ENTRY.within(e)
    ensures Apply(d, Holding(TASK_STATE, STATE_ENTRY, e)) == Some(d.(taskStates := d.taskStates[e.0 := e.1]))
  {
    GoodRecords();
    hide Good, STATE_ENTRY, Holding, Decoded;
    Held(TASK_STATE, STATE_ENTRY, e);
    HeldTag(TASK_STATE, STATE_ENTRY, e);
  }

  lemma CountApplied(d: DurableState, e: (Id, U32))
    requires COUNT_ENTRY.within(e)
    ensures Apply(d, Holding(RETRY_COUNT, COUNT_ENTRY, e)) == Some(d.(retryCounts := d.retryCounts[e.0 := e.1]))
  {
    GoodRecords();
    hide Good, COUNT_ENTRY, Holding, Decoded;
    Held(RETRY_COUNT, COUNT_ENTRY, e);
    HeldTag(RETRY_COUNT, COUNT_ENTRY, e);
  }

  lemma AttemptApplied(d: DurableState, a: Attempt)
    requires ATTEMPT.within(a) && a.committed
    ensures Apply(d, Holding(ATTEMPT_TAG, ATTEMPT, a)) == Some(d.(attempts := Filed(d.attempts, a)))
  {
    GoodRecords();
    hide Good, ATTEMPT, Holding, Decoded;
    Held(ATTEMPT_TAG, ATTEMPT, a);
    HeldTag(ATTEMPT_TAG, ATTEMPT, a);
  }

  lemma PlacementApplied(d: DurableState, e: (Id, (U64, PlacementDecision)))
    requires PLACEMENT_ENTRY.within(e)
    ensures Apply(d, Holding(PLACEMENT_TAG, PLACEMENT_ENTRY, e)) == Some(d.(placements := d.placements + [StoredPlacement(e.0, e.1.0, e.1.1)]))
  {
    GoodRecords();
    hide Good, PLACEMENT_ENTRY, Holding, Decoded;
    Held(PLACEMENT_TAG, PLACEMENT_ENTRY, e);
    HeldTag(PLACEMENT_TAG, PLACEMENT_ENTRY, e);
  }

  lemma EpochApplied(d: DurableState, n: U64)
    requires LONG.within(n)
    ensures Apply(d, Holding(EPOCH, LONG, n)) == Some(d.(epoch := n))
  {
    GoodRecords();
    hide Good, LONG, Holding, Decoded;
    Held(EPOCH, LONG, n);
    HeldTag(EPOCH, LONG, n);
  }

  lemma HeldTag<T(!new)>(tag: Byte, c: Codec<T>, x: T)
    ensures Holding(tag, c, x).tag == tag
  {
    hide Good;
  }

  lemma ApplyCons(d: DurableState, r: Rec, rs: seq<Rec>)
    requires Apply(d, r).Some?
    ensures ApplyAll(d, [r] + rs) == ApplyAll(Apply(d, r).value, rs)
  {
    hide Apply;
    assert ([r] + rs)[1..] == rs;
  }

  ghost predicate StorableWorkloads(m: map<Id, Workload>) {
    forall k :: k in m ==> m[k].id == k && WORKLOAD.within(m[k])
  }

  lemma {:induction false} WorkloadsTakenIn(d: DurableState, m: map<Id, Workload>, ids: seq<Id>)
    requires StorableWorkloads(m) && forall t :: t in ids ==> t in m
    ensures ApplyAll(d, WorkloadRecs(m, ids)) == Some(d.(workloads := d.workloads + Sub(m, ids)))
    decreases |ids|
  {
    if ids == [] {
      SubNone(d.workloads, m);
    } else {
      var w := m[ids[0]];
      WorkloadApplied(d, w);
      hide Apply, Holding, WORKLOAD, Sub;
      ApplyCons(d, Holding(WORKLOAD_TAG, WORKLOAD, w), WorkloadRecs(m, ids[1..]));
      SubNext(d.workloads, m, ids);
      WorkloadsTakenIn(d.(workloads := d.workloads[ids[0] := w]), m, ids[1..]);
    }
  }

  ghost predicate StorableTasks(m: map<Id, ComputeTask>) {
    forall k :: k in m ==> m[k].id == k && TASK.within(m[k])
  }

  lemma {:induction false} TasksTakenIn(d: DurableState, m: map<Id, ComputeTask>, ids: seq<Id>)
    requires StorableTasks(m) && forall t :: t in ids ==> t in m
    ensures ApplyAll(d, TaskRecs(m, ids)) == Some(d.(tasks := d.tasks + Sub(m, ids)))
    decreases |ids|
  {
    if ids == [] {
      SubNone(d.tasks, m);
    } else {
      var t := m[ids[0]];
      TaskApplied(d, t);
      hide Apply, Holding, TASK, Sub;
      ApplyCons(d, Holding(TASK_TAG, TASK, t), TaskRecs(m, ids[1..]));
      SubNext(d.tasks, m, ids);
      TasksTakenIn(d.(tasks := d.tasks[ids[0] := t]), m, ids[1..]);
    }
  }

  lemma {:induction false} StatesTakenIn(d: DurableState, m: map<Id, TaskState>, ids: seq<Id>)
    requires forall t :: t in ids ==> t in m
    ensures ApplyAll(d, StateRecs(m, ids)) == Some(d.(taskStates := d.taskStates + Sub(m, ids)))
    decreases |ids|
  {
    if ids == [] {
      SubNone(d.taskStates, m);
    } else {
      StateApplied(d, (ids[0], m[ids[0]]));
      hide Apply, Holding, STATE_ENTRY, Sub;
      ApplyCons(d, Holding(TASK_STATE, STATE_ENTRY, (ids[0], m[ids[0]])), StateRecs(m, ids[1..]));
      SubNext(d.taskStates, m, ids);
      StatesTakenIn(d.(taskStates := d.taskStates[ids[0] := m[ids[0]]]), m, ids[1..]);
    }
  }

  lemma {:induction false} CountsTakenIn(d: DurableState, m: map<Id, U32>, ids: seq<Id>)
    requires forall t :: t in ids ==> t in m
    ensures ApplyAll(d, CountRecs(m, ids)) == Some(d.(retryCounts := d.retryCounts + Sub(m, ids)))
    decreases |ids|
  {
    if ids == [] {
      SubNone(d.retryCounts, m);
    } else {
      CountApplied(d, (ids[0], m[ids[0]]));
      hide Apply, Holding, COUNT_ENTRY, Sub;
      ApplyCons(d, Holding(RETRY_COUNT, COUNT_ENTRY, (ids[0], m[ids[0]])), CountRecs(m, ids[1..]));
      SubNext(d.retryCounts, m, ids);
      CountsTakenIn(d.(retryCounts := d.retryCounts[ids[0] := m[ids[0]]]), m, ids[1..]);
    }
  }

  ghost predicate StorableAttempt(a: Attempt, t: Id) {
    a.taskId == t && a.committed && ATTEMPT.within(a)
  }

  /** `m` with `l` added behind what it has for `t`. */
  function Extended(m: map<Id, seq<Attempt>>, t: Id, l: seq<Attempt>): map<Id, seq<Attempt>> {
    if l == [] then m else m[t := (if t in m then m[t] else []) + l]
  }

  lemma ExtendedNext(m: map<Id, seq<Attempt>>, t: Id, l: seq<Attempt>)
    requires l != [] && l[0].taskId == t
    ensures Extended(m, t, l) == Extended(Filed(m, l[0]), t, l[1..])
  {
    var have := if t in m then m[t] else [];
    assert have + l == have + [l[0]] + l[1..];
    if |l| == 1 {
      assert l == [l[0]];
    }
  }

  lemma ExtendedFresh(m: map<Id, seq<Attempt>>, t: Id, l: seq<Attempt>)
    requires t !in m && l != []
    ensures Extended(m, t, l) == m[t := l]
  {
    assert [] + l == l;
  }

  lemma {:induction false} AttemptsTakenIn(d: DurableState, t: Id, l: seq<Attempt>)
    requires forall a :: a in l ==> StorableAttempt(a, t)
    ensures ApplyAll(d, AttemptRecs(l)) == Some(d.(attempts := Extended(d.attempts, t, l)))
    decreases |l|
  {
    if l != [] {
      assert StorableAttempt(l[0], t);
      AttemptApplied(d, l[0]);
      hide Apply, Holding, ATTEMPT, Extended, Filed;
      ApplyCons(d, Holding(ATTEMPT_TAG, ATTEMPT, l[0]), AttemptRecs(l[1..]));
      ExtendedNext(d.attempts, t, l);
      AttemptsTakenIn(d.(attempts := Filed(d.attempts, l[0])), t, l[1..]);
    }
  }

  lemma OneTaskTakenIn(d: DurableState, t: Id, l: seq<Attempt>)
    requires l != [] && t !in d.attempts && forall a :: a in l ==> StorableAttempt(a, t)
    ensures ApplyAll(d, AttemptRecs(l)) == Some(d.(attempts := d.attempts[t := l]))
  {
    hide StorableAttempt, Extended, AttemptRecs, ApplyAll;
    AttemptsTakenIn(d, t, l);
    ExtendedFresh(d.attempts, t, l);
  }

  ghost predicate StorableAttempts(m: map<Id, seq<Attempt>>) {
    forall t :: t in m ==> m[t] != [] && forall a :: a in m[t] ==> StorableAttempt(a, t)
  }

  lemma NothingTakenIn(d: DurableState)
    ensures ApplyAll(d, []) == Some(d)
  {
  }

  lemma {:induction false} AllAttemptsTakenIn(d: DurableState, m: map<Id, seq<Attempt>>, ids: seq<Id>)
    requires StorableAttempts(m) && Ascending(ids) && forall t :: t in ids ==> t in m && t !in d.attempts
    ensures ApplyAll(d, AllAttemptRecs(m, ids)) == Some(d.(attempts := d.attempts + Sub(m, ids)))
    decreases |ids|
  {
    hide StorableAttempt, AttemptRecs, ApplyAll, Sub;
    if ids == [] {
      SubNone(d.attempts, m);
      NothingTakenIn(d);
    } else {
      var t, rest := ids[0], ids[1..];
      OneTaskTakenIn(d, t, m[t]);
      LaterIds(ids);
      SubNext(d.attempts, m, ids);
      AllAttemptsTakenIn(d.(attempts := d.attempts[t := m[t]]), m, rest);
      ApplyAppend(d, AttemptRecs(m[t]), AllAttemptRecs(m, rest));
    }
  }

  lemma LaterIds(ids: seq<Id>)
    requires Ascending(ids) && ids != []
    ensures Ascending(ids[1..]) && forall u :: u in ids[1..] ==> u in ids && u != ids[0]
  {
  }

  lemma {:induction false} PlacementsTakenIn(d: DurableState, l: seq<StoredPlacement>)
    requires forall p :: p in l ==> PLACEMENT_ENTRY.within(PlacementRow(p))
    ensures ApplyAll(d, PlacementRecs(l)) == Some(d.(placements := d.placements + l))
    decreases |l|
  {
    if l == [] {
      assert d.placements + [] == d.placements;
    } else {
      PlacementApplied(d, PlacementRow(l[0]));
      hide Apply, Holding, PLACEMENT_ENTRY;
      ApplyCons(d, Holding(PLACEMENT_TAG, PLACEMENT_ENTRY, PlacementRow(l[0])), PlacementRecs(l[1..]));
      PlacementsTakenIn(d.(placements := d.placements + [l[0]]), l[1..]);
      OneThenRest(d.placements, l);
    }
  }

  lemma OneThenRest<X>(a: seq<X>, l: seq<X>)
    requires l != []
    ensures a + [l[0]] + l[1..] == a + l
  {
  }

  // ----- the round trip -----

  ghost predicate StorablePlacements(l: seq<StoredPlacement>) {
    forall p :: p in l ==> PLACEMENT_ENTRY.within(PlacementRow(p))
  }

  ghost predicate Storable(d: DurableState) {
    && StorableWorkloads(d.workloads) && StorableTasks(d.tasks) && StorableAttempts(d.attempts)
    && StorablePlacements(d.placements)
    && InBounds(d)
  }

  ghost predicate InBounds(d: DurableState) {
    |Records(d)| <= MAX_RECORDS && |Save(d)| <= MAX_FILE_SIZE
  }

  lemma LateRecordsTakenIn(d: DurableState, have: DurableState)
    requires StorableAttempts(d.attempts) && StorablePlacements(d.placements)
    requires have.attempts == map[] && have.retryCounts == map[] && have.placements == []
    ensures ApplyAll(have, LateRecords(d)) == Some(have.(attempts := d.attempts, retryCounts := d.retryCounts, placements := d.placements))
  {
    var as_, cs := Walk(d.attempts.Keys), Walk(d.retryCounts.Keys);
    hide Apply, ApplyAll, AllAttemptRecs, CountRecs, PlacementRecs, PLACEMENT_ENTRY, StorableAttempts, Walk, Sub;
    AllAttemptsTakenIn(have, d.attempts, as_);
    SubAll(d.attempts);
    var d1 := have.(attempts := d.attempts);
    CountsTakenIn(d1, d.retryCounts, cs);
    SubAll(d.retryCounts);
    var d2 := d1.(retryCounts := d.retryCounts);
    PlacementsTakenIn(d2, d.placements);
    assert [] + d.placements == d.placements;
    ApplyAppend(d1, CountRecs(d.retryCounts, cs), PlacementRecs(d.placements));
    ApplyAppend(have, AllAttemptRecs(d.attempts, as_), CountRecs(d.retryCounts, cs) + PlacementRecs(d.placements));
  }

  ghost function LateRecords(d: DurableState): seq<Rec> {
    AllAttemptRecs(d.attempts, Walk(d.attempts.Keys))
    + (CountRecs(d.retryCounts, Walk(d.retryCounts.Keys)) + PlacementRecs(d.placements))
  }

  ghost function EarlyRecords(d: DurableState, late: seq<Rec>): seq<Rec> {
    WorkloadRecs(d.workloads, Walk(d.workloads.Keys))
    + (TaskRecs(d.tasks, Walk(d.tasks.Keys)) + (StateRecs(d.taskStates, Walk(d.taskStates.Keys)) + late))
  }

  lemma EarlyRecordsTakenIn(d: DurableState, have: DurableState, late: seq<Rec>)
    requires StorableWorkloads(d.workloads) && StorableTasks(d.tasks)
    requires have.workloads == map[] && have.tasks == map[] && have.taskStates == map[]
    ensures ApplyAll(have, EarlyRecords(d, late))
            == ApplyAll(have.(workloads := d.workloads, tasks := d.tasks, taskStates := d.taskStates), late)
  {
    var ws, ts, ss := Walk(d.workloads.Keys), Walk(d.tasks.Keys), Walk(d.taskStates.Keys);
    hide ApplyAll, WorkloadRecs, TaskRecs, StateRecs, StorableWorkloads, StorableTasks, Walk, Sub;
    WorkloadsTakenIn(have, d.workloads, ws);
    SubAll(d.workloads);
    ApplyAppend(have, WorkloadRecs(d.workloads, ws), TaskRecs(d.tasks, ts) + (StateRecs(d.taskStates, ss) + late));
    var d2 := have.(workloads := d.workloads);
    TasksTakenIn(d2, d.tasks, ts);
    SubAll(d.tasks);
    ApplyAppend(d2, TaskRecs(d.tasks, ts), StateRecs(d.taskStates, ss) + late);
    var d3 := d2.(tasks := d.tasks);
    StatesTakenIn(d3, d.taskStates, ss);
    SubAll(d.taskStates);
    ApplyAppend(d3, StateRecs(d.taskStates, ss), late);
  }

  lemma RecordsTakenIn(d: DurableState)
    requires Storable(d)
    ensures ApplyAll(EMPTY_DISK, Records(d)) == Some(d)
  {
    assert LONG.within(d.epoch);
    EpochApplied(EMPTY_DISK, d.epoch);
    assert Records(d) == [Holding(EPOCH, LONG, d.epoch)] + EarlyRecords(d, LateRecords(d));
    var d1 := EMPTY_DISK.(epoch := d.epoch);
    LateRecordsTakenIn(d, d1.(workloads := d.workloads, tasks := d.tasks, taskStates := d.taskStates));
    hide Apply, ApplyAll, Holding, Records, StorableWorkloads, StorableTasks, StorableAttempts, PLACEMENT_ENTRY, Walk,
      Save, LONG;
    ApplyCons(EMPTY_DISK, Holding(EPOCH, LONG, d.epoch), EarlyRecords(d, LateRecords(d)));
    hide EarlyRecords, LateRecords;
    EarlyRecordsTakenIn(d, d1, LateRecords(d));
  }

  /** Loading what was saved gives it back. */
  lemma StoreRoundTrip(d: DurableState)
    requires Storable(d)
    ensures Load(Save(d)) == Ok(d)
  {
    var body := Body(Records(d));
    hide Records, Storable, CheckHeader, Body, FileOf, ParseBody, ApplyAll;
    RecordsTakenIn(d);
    FileParts(body);
    StorableBounds(d);
    FileAccepted(body);
    BodyReadBack(Records(d));
    hide BigEndian, Crc32;
  }

  lemma StorableBounds(d: DurableState)
    requires Storable(d)
    ensures |Records(d)| <= MAX_RECORDS && |FileOf(Body(Records(d)))| <= MAX_FILE_SIZE
    ensures |Body(Records(d))| + FILE_HEADER == |FileOf(Body(Records(d)))|
  {
    FileParts(Body(Records(d)));
    hide Records, FileOf, Body;
  }

  // ----- what can be loaded -----

  /** Well keyed, only committed attempts, every record within the limits. */
  ghost predicate Decent(d: DurableState) {
    && StorableWorkloads(d.workloads) && StorableTasks(d.tasks) && StorableAttempts(d.attempts)
    && StorablePlacements(d.placements)
  }

  lemma DecodedWithin<T(!new)>(c: Codec<T>, s: Bytes)
    requires Good(c) && Decoded(c, s).Some?
    ensures c.within(Decoded(c, s).value.value)
  {
    hide Decode, Fits, Shaped;
    DecodedFits(c.format, s);
  }

  lemma WorkloadDecent(d: DurableState, r: Rec)
    requires Decent(d) && r.tag == WORKLOAD_TAG && Apply(d, r).Some?
    ensures Decent(Apply(d, r).value)
  {
    GoodRecords();
    hide Good, WORKLOAD, Decoded, StorableTasks, StorableAttempts, StorablePlacements;
    DecodedWithin(WORKLOAD, r.payload);
  }

  lemma TaskDecent(d: DurableState, r: Rec)
    requires Decent(d) && r.tag == TASK_TAG && Apply(d, r).Some?
    ensures Decent(Apply(d, r).value)
  {
    GoodRecords();
    hide Good, TASK, Decoded, StorableWorkloads, StorableAttempts, StorablePlacements;
    DecodedWithin(TASK, r.payload);
  }

  lemma FiledDecent(m: map<Id, seq<Attempt>>, a: Attempt)
    requires StorableAttempts(m) && StorableAttempt(a, a.taskId)
    ensures StorableAttempts(Filed(m, a))
  {
    hide StorableAttempt;
  }

  lemma AttemptDecent(d: DurableState, r: Rec)
    requires Decent(d) && r.tag == ATTEMPT_TAG && Apply(d, r).Some?
    ensures Decent(Apply(d, r).value)
  {
    GoodRecords();
    hide Good, ATTEMPT, Decoded, StorableWorkloads, StorableTasks, StorablePlacements, StorableAttempts, Filed;
    DecodedWithin(ATTEMPT, r.payload);
    var a := Decoded(ATTEMPT, r.payload).value.value;
    if a.committed {
      FiledDecent(d.attempts, a);
    }
  }

  lemma PlacementDecent(d: DurableState, r: Rec)
    requires Decent(d) && r.tag == PLACEMENT_TAG && Apply(d, r).Some?
    ensures Decent(Apply(d, r).value)
  {
    GoodRecords();
    hide Good, PLACEMENT_ENTRY, Decoded, StorableWorkloads, StorableTasks, StorableAttempts;
    DecodedWithin(PLACEMENT_ENTRY, r.payload);
    var e := Decoded(PLACEMENT_ENTRY, r.payload).value.value;
    assert PlacementRow(StoredPlacement(e.0, e.1.0, e.1.1)) == e;
  }

  lemma ApplyDecent(d: DurableState, r: Rec)
    requires Decent(d) && Apply(d, r).Some?
    ensures Decent(Apply(d, r).value)
  {
    if r.tag == WORKLOAD_TAG {
      WorkloadDecent(d, r);
    } else if r.tag == TASK_TAG {
      TaskDecent(d, r);
    } else if r.tag == ATTEMPT_TAG {
      AttemptDecent(d, r);
    } else if r.tag == PLACEMENT_TAG {
      PlacementDecent(d, r);
    } else {
      hide Decoded, StorableWorkloads, StorableTasks, StorableAttempts, StorablePlacements;
    }
  }

  lemma {:induction false} ApplyAllDecent(d: DurableState, rs: seq<Rec>)
    requires Decent(d) && ApplyAll(d, rs).Some?
    ensures Decent(ApplyAll(d, rs).value)
    decreases |rs|
  {
    hide Apply, Decent;
    if rs != [] {
      ApplyDecent(d, rs[0]);
      ApplyAllDecent(Apply(d, rs[0]).value, rs[1..]);
    }
  }

  /** Whatever a file holds, a state that loads is well keyed, has only committed attempts
      and is within the limits. */
  lemma LoadedIsDecent(s: Bytes)
    requires Load(s).Ok?
    ensures Decent(Load(s).value)
  {
    assert |s| >= FILE_HEADER;
    hide Decent, ApplyAll, ParseBody, CheckHeader;
    EmptyIsDecent();
    ApplyAllDecent(EMPTY_DISK, ParseBody(s[20..]).value);
  }

  lemma EmptyIsDecent()
    ensures Decent(EMPTY_DISK)
  {
    hide TASK, WORKLOAD, ATTEMPT, PLACEMENT_ENTRY;
  }

  lemma {:induction false} RecsLength(rs: seq<Rec>)
    ensures |RecsBytes(rs)| >= 9 * |rs|
    decreases |rs|
  {
    hide BigEndian, Crc32;
    if rs != [] {
      RecsLength(rs[1..]);
    }
  }

  /** A file that is accepted says how many records it has, and has no more than allowed. */
  lemma AcceptedBounds(rs: seq<Rec>)
    requires Load(FileOf(Body(rs))).Ok?
    ensures |rs| <= MAX_RECORDS && |FileOf(Body(rs))| <= MAX_FILE_SIZE
  {
    var body := Body(rs);
    FileParts(body);
    RecsLength(rs);
    assert |rs| < TWO_32 && body[..4] == BigEndian(|rs|, 4) by {
      hide RecsBytes, ParseBody, FileOf, Crc32;
    }
    Widths();
    BigEndianRoundTrip(|rs|, 4);
    hide RecsBytes, ParseRecs, ApplyAll, FileOf, Crc32, Body, BigEndian;
  }

  /** The states that come back from the file are exactly the storable ones. */
  lemma StoreRoundTripIff(d: DurableState)
    ensures Load(Save(d)) == Ok(d) <==> Storable(d)
  {
    if Storable(d) {
      StoreRoundTrip(d);
    }
    hide Load, Records, FileOf, Body, StorableWorkloads, StorableTasks, StorableAttempts, StorablePlacements;
    if Load(Save(d)) == Ok(d) {
      LoadedIsDecent(Save(d));
      AcceptedBounds(Records(d));
    }
  }

  // ----- the file as written and read -----

  method PutRec(w: BinaryWriter, r: Rec)
    modifies w
    ensures w.buf == old(w.buf) + RecBytes(r)
  {
    hide BigEndian, Crc32;
    w.PutBytes([r.tag]);
    w.PutUnsigned(|r.payload|, 4);
    w.PutUnsigned(Crc32(r.payload), 4);
    w.PutBytes(r.payload);
  }

  /** The records holding the items of a list. */
  ghost function HoldingAll<T(!new)>(tag: Byte, c: Codec<T>, xs: seq<T>): seq<Rec> {
    if xs == [] then [] else [Holding(tag, c, xs[0])] + HoldingAll(tag, c, xs[1..])
  }

  method PutHolding<T(!new)>(w: BinaryWriter, tag: Byte, c: Codec<T>, x: T)
    requires Good(c)
    modifies w
    ensures w.buf == old(w.buf) + RecBytes(Holding(tag, c, x))
  {
    var rec := new BinaryWriter();
    WriteRecord(rec, c, x);
    hide Good, RecBytes, Encoded;
    assert [] + Encoded(c, x) == Encoded(c, x);
    PutRec(w, Rec(tag, rec.buf));
  }

  /** One of the loops of a save: a record for each item. */
  method PutAll<T(!new)>(w: BinaryWriter, tag: Byte, c: Codec<T>, xs: seq<T>)
    requires Good(c)
    modifies w
    ensures w.buf == old(w.buf) + RecsBytes(HoldingAll(tag, c, xs))
  {
    hide RecBytes, Good, Holding;
    ghost var start := w.buf;
    assert xs[0..] == xs;
    for i := 0 to |xs|
      invariant w.buf + RecsBytes(HoldingAll(tag, c, xs[i..])) == start + RecsBytes(HoldingAll(tag, c, xs))
    {
      assert xs[i..][0] == xs[i] && xs[i..][1..] == xs[i + 1..];
      ghost var before := w.buf;
      ghost var rest := HoldingAll(tag, c, xs[i + 1..]);
      FirstRec(Holding(tag, c, xs[i]), rest);
      PutHolding(w, tag, c, xs[i]);
      assert before + (RecBytes(Holding(tag, c, xs[i])) + RecsBytes(rest)) == w.buf + RecsBytes(rest);
    }
    assert w.buf + [] == w.buf;
  }

  lemma FirstRec(r: Rec, rs: seq<Rec>)
    ensures RecsBytes([r] + rs) == RecBytes(r) + RecsBytes(rs)
  {
    hide RecBytes;
    assert ([r] + rs)[1..] == rs;
  }

  lemma {:induction false} RecsAppend(rs: seq<Rec>, ts: seq<Rec>)
    ensures RecsBytes(rs + ts) == RecsBytes(rs) + RecsBytes(ts)
    decreases |rs|
  {
    hide RecBytes;
    if rs == [] {
      assert rs + ts == ts;
    } else {
      assert (rs + ts)[1..] == rs[1..] + ts;
      RecsAppend(rs[1..], ts);
      assert RecBytes(rs[0]) + (RecsBytes(rs[1..]) + RecsBytes(ts)) == RecsBytes(rs) + RecsBytes(ts);
    }
  }

  // The items of each kind, in the order they are written.

  function Picked<T>(m: map<Id, T>, ids: seq<Id>): seq<T>
    requires forall t :: t in ids ==> t in m
  {
    if ids == [] then [] else [m[ids[0]]] + Picked(m, ids[1..])
  }

  function Entries<T>(m: map<Id, T>, ids: seq<Id>): seq<(Id, T)>
    requires forall t :: t in ids ==> t in m
  {
    if ids == [] then [] else [(ids[0], m[ids[0]])] + Entries(m, ids[1..])
  }

  function Rows(l: seq<StoredPlacement>): seq<(Id, (U64, PlacementDecision))> {
    if l == [] then [] else [PlacementRow(l[0])] + Rows(l[1..])
  }

  lemma {:induction false} WorkloadItems(m: map<Id, Workload>, ids: seq<Id>)
    requires forall t :: t in ids ==> t in m
    ensures WorkloadRecs(m, ids) == HoldingAll(WORKLOAD_TAG, WORKLOAD, Picked(m, ids))
    ensures |WorkloadRecs(m, ids)| == |ids|
    decreases |ids|
  {
    hide Holding, WORKLOAD;
    if ids != [] {
      WorkloadItems(m, ids[1..]);
      assert Picked(m, ids)[1..] == Picked(m, ids[1..]);
    }
  }

  lemma {:induction false} TaskItems(m: map<Id, ComputeTask>, ids: seq<Id>)
    requires forall t :: t in ids ==> t in m
    ensures TaskRecs(m, ids) == HoldingAll(TASK_TAG, TASK, Picked(m, ids))
    ensures |TaskRecs(m, ids)| == |ids|
    decreases |ids|
  {
    hide Holding, TASK;
    if ids != [] {
      TaskItems(m, ids[1..]);
      assert Picked(m, ids)[1..] == Picked(m, ids[1..]);
    }
  }

  lemma {:induction false} StateItems(m: map<Id, TaskState>, ids: seq<Id>)
    requires forall t :: t in ids ==> t in m
    ensures StateRecs(m, ids) == HoldingAll(TASK_STATE, STATE_ENTRY, Entries(m, ids))
    ensures |StateRecs(m, ids)| == |ids|
    decreases |ids|
  {
    hide Holding, STATE_ENTRY;
    if ids != [] {
      StateItems(m, ids[1..]);
      assert Entries(m, ids)[1..] == Entries(m, ids[1..]);
    }
  }

  lemma {:induction false} CountItems(m: map<Id, U32>, ids: seq<Id>)
    requires forall t :: t in ids ==> t in m
    ensures CountRecs(m, ids) == HoldingAll(RETRY_COUNT, COUNT_ENTRY, Entries(m, ids))
    ensures |CountRecs(m, ids)| == |ids|
    decreases |ids|
  {
    hide Holding, COUNT_ENTRY;
    if ids != [] {
      CountItems(m, ids[1..]);
      assert Entries(m, ids)[1..] == Entries(m, ids[1..]);
    }
  }

  lemma {:induction false} AttemptItems(l: seq<Attempt>)
    ensures AttemptRecs(l) == HoldingAll(ATTEMPT_TAG, ATTEMPT, l)
    ensures |AttemptRecs(l)| == |l|
    decreases |l|
  {
    hide Holding, ATTEMPT;
    if l != [] {
      AttemptItems(l[1..]);
    }
  }

  lemma {:induction false} PlacementItems(l: seq<StoredPlacement>)
    ensures PlacementRecs(l) == HoldingAll(PLACEMENT_TAG, PLACEMENT_ENTRY, Rows(l))
    ensures |PlacementRecs(l)| == |l|
    decreases |l|
  {
    hide Holding, PLACEMENT_ENTRY;
    if l != [] {
      PlacementItems(l[1..]);
      assert Rows(l)[1..] == Rows(l[1..]);
    }
  }

  /** The number of attempts filed under the given tasks. */
  function Lengths(m: map<Id, seq<Attempt>>, ids: seq<Id>): nat
    requires forall t :: t in ids ==> t in m
  {
    if ids == [] then 0 else |m[ids[0]]| + Lengths(m, ids[1..])
  }

  lemma {:induction false} AllAttemptItems(m: map<Id, seq<Attempt>>, ids: seq<Id>)
    requires forall t :: t in ids ==> t in m
    ensures |AllAttemptRecs(m, ids)| == Lengths(m, ids)
    decreases |ids|
  {
    hide AttemptRecs;
    if ids != [] {
      AttemptItems(m[ids[0]]);
      AllAttemptItems(m, ids[1..]);
    }
  }

  method PutAttempts(w: BinaryWriter, m: map<Id, seq<Attempt>>)
    modifies w
    ensures w.buf == old(w.buf) + RecsBytes(AllAttemptRecs(m, Walk(m.Keys)))
  {
    GoodRecords();
    hide RecsBytes, Good, AttemptRecs, AllAttemptRecs, HoldingAll, ATTEMPT, Walk;
    var ids := Walk(m.Keys);
    ghost var start := w.buf;
    assert ids[0..] == ids;
    for i := 0 to |ids|
      invariant w.buf + RecsBytes(AllAttemptRecs(m, ids[i..])) == start + RecsBytes(AllAttemptRecs(m, ids))
    {
      NextTask(w.buf, m, ids, i);
      AttemptItems(m[ids[i]]);
      PutAll(w, ATTEMPT_TAG, ATTEMPT, m[ids[i]]);
    }
    assert ids[|ids|..] == [];
    NoRecs(m);
    assert w.buf + [] == w.buf;
  }

  lemma NextTask(buf: Bytes, m: map<Id, seq<Attempt>>, ids: seq<Id>, i: nat)
    requires i < |ids| && forall t :: t in ids ==> t in m
    ensures buf + RecsBytes(AllAttemptRecs(m, ids[i..]))
            == (buf + RecsBytes(AttemptRecs(m[ids[i]]))) + RecsBytes(AllAttemptRecs(m, ids[i + 1..]))
  {
    hide RecsBytes, AttemptRecs;
    assert ids[i..][0] == ids[i] && ids[i..][1..] == ids[i + 1..];
    RecsAppend(AttemptRecs(m[ids[i]]), AllAttemptRecs(m, ids[i + 1..]));
  }

  lemma NoRecs(m: map<Id, seq<Attempt>>)
    ensures RecsBytes(AllAttemptRecs(m, [])) == []
  {
  }

  method CountAllAttempts(m: map<Id, seq<Attempt>>) returns (n: nat)
    ensures n == |AllAttemptRecs(m, Walk(m.Keys))|
  {
    hide AllAttemptRecs, Walk;
    var ids := Walk(m.Keys);
    n := 0;
    assert ids[0..] == ids;
    for i := 0 to |ids|
      invariant n + Lengths(m, ids[i..]) == Lengths(m, ids)
    {
      assert ids[i..][0] == ids[i] && ids[i..][1..] == ids[i + 1..];
      n := n + |m[ids[i]]|;
    }
    AllAttemptItems(m, ids);
  }

  ghost function EarlyBytes(d: DurableState): Bytes {
    RecsBytes(WorkloadRecs(d.workloads, Walk(d.workloads.Keys))) + RecsBytes(TaskRecs(d.tasks, Walk(d.tasks.Keys)))
    + RecsBytes(StateRecs(d.taskStates, Walk(d.taskStates.Keys)))
  }

  ghost function LateBytes(d: DurableState): Bytes {
    RecsBytes(AllAttemptRecs(d.attempts, Walk(d.attempts.Keys)))
    + RecsBytes(CountRecs(d.retryCounts, Walk(d.retryCounts.Keys))) + RecsBytes(PlacementRecs(d.placements))
  }

  method PutEarly(w: BinaryWriter, d: DurableState)
    modifies w
    ensures w.buf == old(w.buf) + EarlyBytes(d)
  {
    GoodRecords();
    hide RecsBytes, Good, HoldingAll, WORKLOAD, TASK, STATE_ENTRY, WorkloadRecs, TaskRecs, StateRecs, Walk;
    WorkloadItems(d.workloads, Walk(d.workloads.Keys));
    PutAll(w, WORKLOAD_TAG, WORKLOAD, Picked(d.workloads, Walk(d.workloads.Keys)));
    TaskItems(d.tasks, Walk(d.tasks.Keys));
    PutAll(w, TASK_TAG, TASK, Picked(d.tasks, Walk(d.tasks.Keys)));
    StateItems(d.taskStates, Walk(d.taskStates.Keys));
    PutAll(w, TASK_STATE, STATE_ENTRY, Entries(d.taskStates, Walk(d.taskStates.Keys)));
    Regroup(old(w.buf), RecsBytes(WorkloadRecs(d.workloads, Walk(d.workloads.Keys))),
            RecsBytes(TaskRecs(d.tasks, Walk(d.tasks.Keys))), RecsBytes(StateRecs(d.taskStates, Walk(d.taskStates.Keys))));
  }

  lemma Regroup(a: Bytes, b: Bytes, c: Bytes, d: Bytes)
    ensures a + b + c + d == a + (b + c + d)
  {
  }

  method PutLate(w: BinaryWriter, d: DurableState)
    modifies w
    ensures w.buf == old(w.buf) + LateBytes(d)
  {
    GoodRecords();
    hide RecsBytes, Good, HoldingAll, COUNT_ENTRY, PLACEMENT_ENTRY, AllAttemptRecs, CountRecs, PlacementRecs, Walk;
    PutAttempts(w, d.attempts);
    CountItems(d.retryCounts, Walk(d.retryCounts.Keys));
    PutAll(w, RETRY_COUNT, COUNT_ENTRY, Entries(d.retryCounts, Walk(d.retryCounts.Keys)));
    PlacementItems(d.placements);
    PutAll(w, PLACEMENT_TAG, PLACEMENT_ENTRY, Rows(d.placements));
    Regroup(old(w.buf), RecsBytes(AllAttemptRecs(d.attempts, Walk(d.attempts.Keys))),
            RecsBytes(CountRecs(d.retryCounts, Walk(d.retryCounts.Keys))), RecsBytes(PlacementRecs(d.placements)));
  }

  /** The record count that goes in front. */
  method CountRecords(d: DurableState) returns (n: nat)
    ensures n == |Records(d)|
  {
    hide WorkloadRecs, TaskRecs, StateRecs, AllAttemptRecs, CountRecs, PlacementRecs, Holding, Walk;
    var attempts := CountAllAttempts(d.attempts);
    n := 1 + |d.workloads| + |d.tasks| + |d.taskStates| + attempts + |d.retryCounts| + |d.placements|;
    WorkloadItems(d.workloads, Walk(d.workloads.Keys));
    TaskItems(d.tasks, Walk(d.tasks.Keys));
    StateItems(d.taskStates, Walk(d.taskStates.Keys));
    CountItems(d.retryCounts, Walk(d.retryCounts.Keys));
    PlacementItems(d.placements);
  }

  lemma SixParts(a: seq<Rec>, b: seq<Rec>, c: seq<Rec>, x: seq<Rec>, y: seq<Rec>, z: seq<Rec>)
    ensures RecsBytes(a + (b + (c + (x + (y + z)))))
            == RecsBytes(a) + RecsBytes(b) + RecsBytes(c) + RecsBytes(x) + RecsBytes(y) + RecsBytes(z)
  {
    hide RecsBytes;
    RecsAppend(a, b + (c + (x + (y + z))));
    RecsAppend(b, c + (x + (y + z)));
    RecsAppend(c, x + (y + z));
    RecsAppend(x, y + z);
    RecsAppend(y, z);
  }

  /** All records but the first. */
  ghost function LaterRecords(d: DurableState): seq<Rec> {
    WorkloadRecs(d.workloads, Walk(d.workloads.Keys))
    + (TaskRecs(d.tasks, Walk(d.tasks.Keys))
       + (StateRecs(d.taskStates, Walk(d.taskStates.Keys))
          + (AllAttemptRecs(d.attempts, Walk(d.attempts.Keys))
             + (CountRecs(d.retryCounts, Walk(d.retryCounts.Keys)) + PlacementRecs(d.placements)))))
  }

  method PutLater(w: BinaryWriter, d: DurableState)
    modifies w
    ensures w.buf == old(w.buf) + RecsBytes(LaterRecords(d))
  {
    hide RecsBytes, LaterRecords, EarlyBytes, LateBytes;
    PutEarly(w, d);
    PutLate(w, d);
    LaterParts(d);
  }

  lemma LaterParts(d: DurableState)
    ensures RecsBytes(LaterRecords(d)) == EarlyBytes(d) + LateBytes(d)
  {
    hide RecsBytes, WorkloadRecs, TaskRecs, StateRecs, AllAttemptRecs, CountRecs, PlacementRecs, Walk;
    SixParts(WorkloadRecs(d.workloads, Walk(d.workloads.Keys)), TaskRecs(d.tasks, Walk(d.tasks.Keys)),
             StateRecs(d.taskStates, Walk(d.taskStates.Keys)), AllAttemptRecs(d.attempts, Walk(d.attempts.Keys)),
             CountRecs(d.retryCounts, Walk(d.retryCounts.Keys)), PlacementRecs(d.placements));
  }

  lemma RecordsAre(d: DurableState)
    ensures Records(d) == [Holding(EPOCH, LONG, d.epoch)] + LaterRecords(d)
  {
    hide Holding;
  }

  lemma BodyAre(d: DurableState)
    ensures Body(Records(d))
            == BigEndian(|Records(d)|, 4) + (RecBytes(Holding(EPOCH, LONG, d.epoch)) + RecsBytes(LaterRecords(d)))
  {
    RecordsAre(d);
    hide Records, LaterRecords, Holding, RecBytes, BigEndian;
    FirstRec(Holding(EPOCH, LONG, d.epoch), LaterRecords(d));
  }

  method WriteBody(d: DurableState) returns (body: Bytes)
    ensures body == Body(Records(d))
  {
    GoodLong();
    hide BigEndian, RecsBytes, RecBytes, Records, LaterRecords, Holding, Good, LONG, Body;
    var w := new BinaryWriter();
    var n := CountRecords(d);
    w.PutUnsigned(n, 4);
    PutHolding(w, EPOCH, LONG, d.epoch);
    PutLater(w, d);
    BodyAre(d);
    body := w.buf;
  }

  /** The file of a state. */
  method SaveFile(d: DurableState) returns (file: Bytes)
    ensures file == Save(d)
  {
    hide BigEndian, Crc32, Body, Records;
    var body := WriteBody(d);
    var w := new BinaryWriter();
    w.PutUnsigned(STORE_MAGIC, 4);
    w.PutUnsigned(FORMAT_VERSION, 4);
    w.PutUnsigned(|body|, 8);
    w.PutUnsigned(Crc32(body), 4);
    w.PutBytes(body);
    file := w.buf;
    assert [] + BigEndian(STORE_MAGIC, 4) == BigEndian(STORE_MAGIC, 4);
  }

  /** Records already read, put in front of what is still to be read. */
  function Behind(out: seq<Rec>, p: Option<seq<Rec>>): Option<seq<Rec>> {
    if p == None then None else Some(out + p.value)
  }

  lemma BehindNext(out: seq<Rec>, n: nat, s: Bytes)
    requires n > 0
    ensures Behind(out, ParseRecs(n, s))
            == if ParseRec(s) == None then None
               else Behind(out + [ParseRec(s).value.value], ParseRecs(n - 1, ParseRec(s).value.rest))
  {
    hide ParseRec;
    if ParseRec(s).Some? {
      var x, q := ParseRec(s).value.value, ParseRecs(n - 1, ParseRec(s).value.rest);
      if q.Some? { assert out + ([x] + q.value) == out + [x] + q.value; }
    }
  }

  method ReadRecs(n: nat, body: Bytes) returns (rs: Option<seq<Rec>>)
    ensures rs == ParseRecs(n, body)
  {
    hide ParseRec;
    var out, rest := [], body;
    assert Behind([], ParseRecs(n, body)) == ParseRecs(n, body) by {
      if ParseRecs(n, body).Some? { assert [] + ParseRecs(n, body).value == ParseRecs(n, body).value; }
    }
    for i := 0 to n
      invariant Behind(out, ParseRecs(n - i, rest)) == ParseRecs(n, body)
    {
      BehindNext(out, n - i, rest);
      var p := ParseRec(rest);
      if p == None {
        return None;
      }
      out, rest := out + [p.value.value], p.value.rest;
    }
    assert out + [] == out;
    return Some(out);
  }

  method LoadFile(s: Bytes) returns (r: Result<DurableState>)
    ensures r == Load(s)
  {
    hide FromBigEndian, Crc32, Apply, ParseRecs;
    var h := CheckHeader(s);
    if h.Failed? {
      return Err(h.error);
    }
    var body := s[20..];
    if |body| < 4 || FromBigEndian(body[..4]) > MAX_RECORDS {
      return Err(CorruptionDetected);
    }
    var rs := ReadRecs(FromBigEndian(body[..4]), body[4..]);
    if rs == None {
      return Err(CorruptionDetected);
    }
    var d := EMPTY_DISK;
    assert rs.value[0..] == rs.value;
    for i := 0 to |rs.value|
      invariant ApplyAll(d, rs.value[i..]) == ApplyAll(EMPTY_DISK, rs.value)
    {
      assert rs.value[i..][0] == rs.value[i] && rs.value[i..][1..] == rs.value[i + 1..];
      var d1 := Apply(d, rs.value[i]);
      if d1 == None {
        return Err(CorruptionDetected);
      }
      d := d1.value;
    }
    return Ok(d);
  }
}
