/**
 The layouts of workloads, tasks, attempts and placements on the wire and in the store,
 and their round trips.
 */
module Serialize {
  import opened Basics
  import opened Types
  import opened Wire

  const MAX_STRING := 0x10_0000
  const MAX_LIST := 0x1_0000

  // ----- codecs -----

  /** A type with its layout: how a value is laid out, how it is read back, and which
      values are within the limits. */
  datatype Codec<!T> = Codec(format: Format, put: T -> Value, get: Value -> T, within: T -> bool)

  ghost predicate Good<T(!new)>(c: Codec<T>) {
    && (forall x :: Shaped(c.format, c.put(x)))
    && (forall x :: Fits(c.format, c.put(x)) <==> c.within(x))
    && (forall x :: c.get(c.put(x)) == x)
    && (forall v :: Fits(c.format, v) ==> c.within(c.get(v)))
  }

  ghost function Encoded<T(!new)>(c: Codec<T>, x: T): Bytes
    requires Good(c)
  {
    Encode(c.format, c.put(x))
  }

  function Decoded<T>(c: Codec<T>, s: Bytes): Option<Parsed<T>> {
    var p := Decode(c.format, s);
    if p == None then None else Some(Parsed(c.get(p.value.value), p.value.rest))
  }

  /** Round trip, with whatever follows left untouched, exactly within the limits. */
  lemma CodecRoundTrip<T(!new)>(c: Codec<T>, x: T, rest: Bytes)
    requires Good(c)
    ensures Decoded(c, Encoded(c, x) + rest) == Some(Parsed(x, rest)) <==> c.within(x)
  {
    hide Encode, Decode, Fits, Shaped;
    var s := Encoded(c, x) + rest;
    if c.within(x) {
      RoundTrip(c.format, c.put(x), rest);
    } else if Decode(c.format, s).Some? {
      DecodedFits(c.format, s);
    }
  }

  /** Nothing shorter than what was written decodes. */
  lemma CodecPrefixFails<T(!new)>(c: Codec<T>, x: T, k: nat)
    requires Good(c) && c.within(x) && k < |Encoded(c, x)|
    ensures Decoded(c, Encoded(c, x)[..k]) == None
  {
    hide Encode, Decode, Fits, Shaped;
    PrefixFails(c.format, c.put(x), k);
  }

  // ----- single fields -----

  function Unsigned(v: Value, bound: nat): (n: nat)
    requires bound > 0
    ensures n < bound
  {
    if v.N? && v.n < bound then v.n else 0
  }

  function PutByte(n: Byte): Value { N(n) }
  function GetByte(v: Value): Byte { Unsigned(v, 0x100) }
  function PutWord(n: U32): Value { N(n) }
  function GetWord(v: Value): U32 { Unsigned(v, TWO_32) }
  function PutLong(n: U64): Value { N(n) }
  function GetLong(v: Value): U64 { Unsigned(v, TWO_64) }
  function PutSigned(n: Int64): Value { N(AsU64(n)) }
  function GetSigned(v: Value): Int64 { AsInt64(Unsigned(v, TWO_64)) }
  function PutId(n: Id): Value { N(n) }
  function GetId(v: Value): Id { Unsigned(v, TWO_128) }
  function PutBool(b: bool): Value { B(b) }
  function GetBool(v: Value): bool { v.B? && v.b }
  function PutText(s: Bytes): Value { T(s) }
  function GetText(v: Value): Bytes { if v.T? then v.text else [] }
  predicate Any<T>(x: T) { true }
  predicate Short(s: Bytes) { |s| <= MAX_STRING }

  const U8: Codec<Byte> := Codec(Num(1), PutByte, GetByte, Any)
  const WORD: Codec<U32> := Codec(Num(4), PutWord, GetWord, Any)
  const LONG: Codec<U64> := Codec(Num(8), PutLong, GetLong, Any)
  const SIGNED: Codec<Int64> := Codec(Num(8), PutSigned, GetSigned, Any)
  const ID: Codec<Id> := Codec(Num(16), PutId, GetId, Any)
  const BOOL: Codec<bool> := Codec(Flag, PutBool, GetBool, Any)
  const STRING: Codec<Bytes> := Codec(Text(MAX_STRING), PutText, GetText, Short)

  lemma GoodByte() ensures Good(U8) { Widths(); }
  lemma GoodWord() ensures Good(WORD) { Widths(); }
  lemma GoodLong() ensures Good(LONG) { Widths(); }
  lemma GoodSigned() ensures Good(SIGNED) { Widths(); }
  lemma GoodId() ensures Good(ID) { Widths(); }
  lemma GoodBool() ensures Good(BOOL) {}
  lemma GoodString() ensures Good(STRING) {}

  // ----- combinations -----

  function Left(v: Value): Value { if v.P? then v.x else v }
  function Right(v: Value): Value { if v.P? then v.y else v }

  function PutPair<A, B>(a: Codec<A>, b: Codec<B>, x: (A, B)): Value {
    P(a.put(x.0), b.put(x.1))
  }

  function GetPair<A, B>(a: Codec<A>, b: Codec<B>, v: Value): (A, B) {
    (a.get(Left(v)), b.get(Right(v)))
  }

  predicate PairWithin<A, B>(a: Codec<A>, b: Codec<B>, x: (A, B)) {
    a.within(x.0) && b.within(x.1)
  }

  /** One field after another. */
  function Pair<A, B>(a: Codec<A>, b: Codec<B>): Codec<(A, B)> {
    Codec(Both(a.format, b.format), (x: (A, B)) => PutPair(a, b, x), (v: Value) => GetPair(a, b, v),
          (x: (A, B)) => PairWithin(a, b, x))
  }

  lemma GoodPair<A(!new), B(!new)>(a: Codec<A>, b: Codec<B>)
    requires Good(a) && Good(b)
    ensures Good(Pair(a, b))
  {
    var c := Pair(a, b);
    forall x: (A, B)
      ensures Shaped(c.format, c.put(x)) && (Fits(c.format, c.put(x)) <==> c.within(x)) && c.get(c.put(x)) == x
    {
      PairPut(a, b, x);
    }
    forall v | Fits(c.format, v) ensures c.within(c.get(v)) {
      PairGet(a, b, v);
    }
    hide Pair, Shaped, Fits;
  }

  lemma PairPut<A(!new), B(!new)>(a: Codec<A>, b: Codec<B>, x: (A, B))
    requires Good(a) && Good(b)
    ensures var c := Pair(a, b);
            Shaped(c.format, c.put(x)) && (Fits(c.format, c.put(x)) <==> c.within(x)) && c.get(c.put(x)) == x
  {
    var v := P(a.put(x.0), b.put(x.1));
    BothIs(a.format, b.format, v);
    hide Shaped, Fits;
    assert Pair(a, b).put(x) == v;
    assert a.get(a.put(x.0)) == x.0 && b.get(b.put(x.1)) == x.1;
  }

  lemma PairGet<A(!new), B(!new)>(a: Codec<A>, b: Codec<B>, v: Value)
    requires Good(a) && Good(b) && Fits(Both(a.format, b.format), v)
    ensures Pair(a, b).within(Pair(a, b).get(v))
  {
    BothIs(a.format, b.format, v);
    hide Shaped, Fits;
    assert Pair(a, b).get(v) == (a.get(v.x), b.get(v.y));
  }

  lemma BothIs(g: Format, h: Format, v: Value)
    ensures Shaped(Both(g, h), v) <==> v.P? && Shaped(g, v.x) && Shaped(h, v.y)
    ensures Fits(Both(g, h), v) <==> v.P? && Fits(g, v.x) && Fits(h, v.y)
  {
  }

  /** The same bytes under another type. */
  function View<A, B>(a: Codec<A>, to: B -> A, from: A -> B): Codec<B> {
    Codec(a.format, (x: B) => a.put(to(x)), (v: Value) => from(a.get(v)), (x: B) => a.within(to(x)))
  }

  lemma GoodView<A(!new), B(!new)>(a: Codec<A>, to: B -> A, from: A -> B)
    requires Good(a) && (forall x :: from(to(x)) == x) && (forall y :: a.within(y) ==> a.within(to(from(y))))
    ensures Good(View(a, to, from))
  {
    hide Shaped, Fits;
    var c := View(a, to, from);
    forall x: B
      ensures Shaped(c.format, c.put(x)) && (Fits(c.format, c.put(x)) <==> c.within(x)) && c.get(c.put(x)) == x
    {
      assert a.get(a.put(to(x))) == to(x);
    }
    forall v | Fits(c.format, v) ensures c.within(c.get(v)) {
    }
  }

  function PutAll<A>(a: Codec<A>, l: seq<A>): Value {
    L(seq(|l|, i requires 0 <= i < |l| => a.put(l[i])))
  }

  function GetAll<A>(a: Codec<A>, v: Value): seq<A> {
    if v.L? then seq(|v.l|, i requires 0 <= i < |v.l| => a.get(v.l[i])) else []
  }

  predicate AllWithin<A>(a: Codec<A>, l: seq<A>) {
    |l| <= MAX_LIST && forall i :: 0 <= i < |l| ==> a.within(l[i])
  }

  /** A count and that many items. */
  function ListOf<A>(a: Codec<A>): Codec<seq<A>> {
    Codec(Many(MAX_LIST, a.format), (l: seq<A>) => PutAll(a, l), (v: Value) => GetAll(a, v), (l: seq<A>) => AllWithin(a, l))
  }

  lemma GoodListOf<A(!new)>(a: Codec<A>)
    requires Good(a)
    ensures Good(ListOf(a))
  {
    var c := ListOf(a);
    forall l: seq<A>
      ensures Shaped(c.format, c.put(l)) && (Fits(c.format, c.put(l)) <==> c.within(l)) && c.get(c.put(l)) == l
    {
      var v := PutAll(a, l);
      assert forall i :: 0 <= i < |l| ==> v.l[i] == a.put(l[i]);
      if Fits(c.format, v) {
        forall i | 0 <= i < |l| ensures a.within(l[i]) { assert Fits(a.format, v.l[i]); }
      }
      assert GetAll(a, v) == l;
    }
    forall v | Fits(c.format, v) ensures c.within(c.get(v)) {
    }
  }

  function PutOpt<A>(a: Codec<A>, o: Option<A>): Value {
    O(if o.Some? then Some(a.put(o.value)) else None)
  }

  function GetOpt<A>(a: Codec<A>, v: Value): Option<A> {
    if v.O? && v.o.Some? then Some(a.get(v.o.value)) else None
  }

  /** A presence byte and, if it is set, the value. */
  function Optional<A>(a: Codec<A>): Codec<Option<A>> {
    Codec(Opt(a.format), (o: Option<A>) => PutOpt(a, o), (v: Value) => GetOpt(a, v),
          (o: Option<A>) => o.Some? ==> a.within(o.value))
  }

  lemma GoodOptional<A(!new)>(a: Codec<A>)
    requires Good(a)
    ensures Good(Optional(a))
  {
    var c := Optional(a);
    forall o: Option<A>
      ensures Shaped(c.format, c.put(o)) && (Fits(c.format, c.put(o)) <==> c.within(o)) && c.get(c.put(o)) == o
    {
    }
    forall v | Fits(c.format, v) ensures c.within(c.get(v)) {
    }
  }

  // ----- tags: an ordered map written in key order -----

  /** Lexicographic order on byte strings. */
  predicate Less(a: Bytes, b: Bytes)
    decreases |a|
  {
    if b == [] then false else if a == [] then true
    else a[0] < b[0] || (a[0] == b[0] && Less(a[1..], b[1..]))
  }

  lemma {:induction false} LessTotal(a: Bytes, b: Bytes)
    ensures a == b || Less(a, b) || Less(b, a)
    decreases |a|
  {
    if a != [] && b != [] && a[0] == b[0] {
      LessTotal(a[1..], b[1..]);
      HeadAndTail(a);
      HeadAndTail(b);
    }
  }

  lemma {:induction false} LessTransitive(a: Bytes, b: Bytes, c: Bytes)
    requires Less(a, b) && Less(b, c)
    ensures Less(a, c)
    decreases |a|
  {
    if a != [] && a[0] == b[0] == c[0] {
      LessTransitive(a[1..], b[1..], c[1..]);
    }
  }

  predicate IsFirst(s: set<Bytes>, m: Bytes) {
    m in s && forall x :: x in s && x != m ==> Less(m, x)
  }

  lemma FirstExists(s: set<Bytes>)
    requires s != {}
    ensures exists m :: IsFirst(s, m)
  {
    var x :| x in s;
    var rest := s - {x};
    if rest == {} {
      assert s == {x};
      assert IsFirst(s, x);
    } else {
      FirstExists(rest);
      var m :| IsFirst(rest, m);
      LessTotal(x, m);
      if Less(x, m) {
        forall y | y in s && y != x ensures Less(x, y) {
          if y != m { LessTransitive(x, m, y); }
        }
        assert IsFirst(s, x);
      } else {
        assert IsFirst(s, m);
      }
    }
  }

  lemma {:induction false} LessAsymmetric(a: Bytes, b: Bytes)
    requires Less(a, b)
    ensures !Less(b, a)
    decreases |a|
  {
    if a != [] && a[0] == b[0] {
      LessAsymmetric(a[1..], b[1..]);
    }
  }

  lemma FirstUnique(s: set<Bytes>, a: Bytes, b: Bytes)
    requires IsFirst(s, a) && IsFirst(s, b)
    ensures a == b
  {
    if a != b { LessAsymmetric(a, b); }
  }

  function First(s: set<Bytes>): (m: Bytes)
    requires s != {}
    ensures IsFirst(s, m)
  {
    FirstExists(s);
    assert forall a, b :: IsFirst(s, a) && IsFirst(s, b) ==> a == b by {
      forall a, b | IsFirst(s, a) && IsFirst(s, b) ensures a == b { FirstUnique(s, a, b); }
    }
    var m :| m in s && IsFirst(s, m);
    m
  }

  /** The entries of `m` in key order. */
  function Entries(m: map<Bytes, Bytes>): (l: seq<(Bytes, Bytes)>)
    ensures |l| == |m|
    decreases m.Keys
  {
    if m == map[] then [] else
    var k := First(m.Keys);
    var rest := m - {k};
    assert m.Keys == rest.Keys + {k};
    assert |m.Keys| == |rest.Keys| + 1;
    [(k, m[k])] + Entries(rest)
  }

  /** A map filled by the entries in turn; a key met again is overwritten. */
  function Filled(l: seq<(Bytes, Bytes)>): map<Bytes, Bytes>
    decreases |l|
  {
    if l == [] then map[] else
    var k := |l| - 1;
    Filled(l[..k])[l[k].0 := l[k].1]
  }

  lemma {:induction false} EntriesAre(m: map<Bytes, Bytes>, e: (Bytes, Bytes))
    ensures e in Entries(m) <==> e.0 in m && m[e.0] == e.1
    decreases m.Keys
  {
    if m != map[] {
      EntriesAre(m - {First(m.Keys)}, e);
    }
  }

  lemma {:induction false} FilledFrom(l: seq<(Bytes, Bytes)>, m: map<Bytes, Bytes>)
    requires forall e :: e in l ==> e.0 in m && m[e.0] == e.1
    ensures forall k :: k in Filled(l) ==> k in m && Filled(l)[k] == m[k]
    ensures forall e :: e in l ==> e.0 in Filled(l)
    decreases |l|
  {
    if l != [] {
      var k := |l| - 1;
      assert l == l[..k] + [l[k]];
      FilledFrom(l[..k], m);
    }
  }

  lemma EntriesFill(m: map<Bytes, Bytes>)
    ensures Filled(Entries(m)) == m
  {
    hide Entries, Filled;
    forall e | e in Entries(m) ensures e.0 in m && m[e.0] == e.1 { EntriesAre(m, e); }
    FilledFrom(Entries(m), m);
    forall k | k in m ensures k in Filled(Entries(m)) { EntriesAre(m, (k, m[k])); }
  }

  lemma {:induction false} FilledShort(l: seq<(Bytes, Bytes)>)
    requires forall e :: e in l ==> Short(e.0) && Short(e.1)
    ensures |Filled(l)| <= |l| && forall k :: k in Filled(l) ==> Short(k) && Short(Filled(l)[k])
    decreases |l|
  {
    if l != [] {
      var k := |l| - 1;
      assert l == l[..k] + [l[k]];
      FilledShort(l[..k]);
      assert l[k] in l;
      var m := Filled(l[..k]);
      assert Filled(l).Keys == m.Keys + {l[k].0};
      assert |m.Keys + {l[k].0}| <= |m.Keys| + 1;
    }
  }

  const TAG_LIST: Codec<seq<(Bytes, Bytes)>> := ListOf(Pair(STRING, STRING))
  const TAGS: Codec<map<Bytes, Bytes>> := View(TAG_LIST, Entries, Filled)

  ghost predicate ShortPairs(l: seq<(Bytes, Bytes)>) {
    |l| <= MAX_LIST && forall e :: e in l ==> Short(e.0) && Short(e.1)
  }

  ghost predicate ShortTags(m: map<Bytes, Bytes>) {
    |m| <= MAX_LIST && forall k :: k in m ==> Short(k) && Short(m[k])
  }

  lemma TagListWithin(l: seq<(Bytes, Bytes)>)
    ensures TAG_LIST.within(l) <==> ShortPairs(l)
  {
    var c := Pair(STRING, STRING);
    if TAG_LIST.within(l) {
      forall e | e in l ensures Short(e.0) && Short(e.1) {
        var i :| 0 <= i < |l| && l[i] == e;
        assert c.within(l[i]);
      }
    }
  }

  lemma EntriesShort(m: map<Bytes, Bytes>)
    ensures ShortPairs(Entries(m)) <==> ShortTags(m)
  {
    hide Short, Entries;
    if ShortPairs(Entries(m)) {
      forall k | k in m ensures Short(k) && Short(m[k]) { EntriesAre(m, (k, m[k])); }
    }
    if ShortTags(m) {
      forall e | e in Entries(m) ensures Short(e.0) && Short(e.1) { EntriesAre(m, e); }
    }
  }

  lemma TagsWithin(m: map<Bytes, Bytes>)
    ensures TAGS.within(m) <==> ShortTags(m)
  {
    TagListWithin(Entries(m));
    EntriesShort(m);
    hide Entries, ShortPairs, ShortTags;
  }

  lemma RefilledWithin(l: seq<(Bytes, Bytes)>)
    requires TAG_LIST.within(l)
    ensures TAG_LIST.within(Entries(Filled(l)))
  {
    TagListWithin(l);
    FilledShort(l);
    assert ShortTags(Filled(l));
    EntriesShort(Filled(l));
    TagListWithin(Entries(Filled(l)));
    hide Entries, Filled, ShortPairs, ShortTags, TAG_LIST;
  }

  lemma GoodTags()
    ensures Good(TAGS)
  {
    GoodString();
    GoodPair(STRING, STRING);
    GoodListOf(Pair(STRING, STRING));
    hide Good, Entries, Filled, TAG_LIST;
    forall m ensures Filled(Entries(m)) == m { EntriesFill(m); }
    forall l | TAG_LIST.within(l) ensures TAG_LIST.within(Entries(Filled(l))) { RefilledWithin(l); }
    GoodView(TAG_LIST, Entries, Filled);
  }

  // ----- workloads -----

  type WorkloadRow = (Id, (Bytes, map<Bytes, Bytes>))

  function WorkloadToRow(w: Workload): WorkloadRow { (w.id, (w.name, w.userTags)) }
  function WorkloadOfRow(r: WorkloadRow): Workload { Workload(r.0, r.1.0, r.1.1) }

  const WORKLOAD: Codec<Workload> := View(Pair(ID, Pair(STRING, TAGS)), WorkloadToRow, WorkloadOfRow)

  lemma GoodWorkload()
    ensures Good(WORKLOAD)
    ensures forall w :: WORKLOAD.within(w) <==> Short(w.name) && ShortTags(w.userTags)
  {
    GoodId();
    GoodString();
    GoodTags();
    forall m ensures TAGS.within(m) <==> ShortTags(m) { TagsWithin(m); }
    hide Good, TAGS, ShortTags;
    GoodPair(STRING, TAGS);
    GoodPair(ID, Pair(STRING, TAGS));
    GoodView(Pair(ID, Pair(STRING, TAGS)), WorkloadToRow, WorkloadOfRow);
  }

  // ----- lists of identifiers and of strings -----

  const IDS: Codec<seq<Id>> := ListOf(ID)
  const STRINGS: Codec<seq<Bytes>> := ListOf(STRING)

  predicate ShortAll(ss: seq<Bytes>) {
    |ss| <= MAX_LIST && forall i :: 0 <= i < |ss| ==> Short(ss[i])
  }

  lemma GoodIds()
    ensures Good(IDS) && forall l :: IDS.within(l) <==> |l| <= MAX_LIST
  {
    GoodId();
    GoodListOf(ID);
  }

  lemma GoodStrings()
    ensures Good(STRINGS) && forall l :: STRINGS.within(l) <==> ShortAll(l)
  {
    GoodString();
    GoodListOf(STRING);
  }

  // ----- tasks -----

  type RetryRow = (U32, (bool, (bool, (bool, U64))))

  function RetryToRow(p: RetryPolicy): RetryRow { (p.maxAttempts, (p.retryOnNodeLoss, (p.retryOnExecutorFailure,
    (p.retryOnTimeout, p.retryBackoffMs)))) }
  function RetryOfRow(r: RetryRow): RetryPolicy { RetryPolicy(r.0, r.1.0, r.1.1.0, r.1.1.1.0, r.1.1.1.1) }

  const RETRY_ROW: Codec<RetryRow> := Pair(WORD, Pair(BOOL, Pair(BOOL, Pair(BOOL, LONG))))
  const RETRY: Codec<RetryPolicy> := View(RETRY_ROW, RetryToRow, RetryOfRow)

  lemma GoodRetry()
    ensures Good(RETRY)
    ensures forall p :: RETRY.within(p)
  {
    GoodBool();
    GoodLong();
    GoodWord();
    hide Good;
    GoodPair(BOOL, LONG);
    var c3 := Pair(BOOL, LONG);
    GoodPair(BOOL, c3);
    var c2 := Pair(BOOL, c3);
    GoodPair(BOOL, c2);
    var c1 := Pair(BOOL, c2);
    GoodPair(WORD, c1);
    GoodView(RETRY_ROW, RetryToRow, RetryOfRow);
  }

  type StateNameRow = (Bytes, (Bytes, (U64, seq<Id>)))
  const STATE_NAME: Codec<StateNameRow> := Pair(STRING, Pair(STRING, Pair(LONG, IDS)))

  lemma GoodStateName()
    ensures Good(STATE_NAME)
    ensures forall r :: STATE_NAME.within(r) <==> Short(r.0) && Short(r.1.0) && |r.1.1.1| <= MAX_LIST
  {
    GoodString();
    GoodLong();
    GoodIds();
    hide Good, IDS;
    GoodPair(LONG, IDS);
    var c1 := Pair(LONG, IDS);
    GoodPair(STRING, c1);
    GoodPair(STRING, Pair(STRING, c1));
  }

  type StateCostRow = (Float64, (Float64, (Float64, (bool, Bytes))))
  const STATE_COST: Codec<StateCostRow> := Pair(LONG, Pair(LONG, Pair(LONG, Pair(BOOL, STRING))))

  lemma GoodStateCost()
    ensures Good(STATE_COST)
    ensures forall r :: STATE_COST.within(r) <==> Short(r.1.1.1.1)
  {
    GoodString();
    GoodLong();
    GoodBool();
    hide Good;
    GoodPair(BOOL, STRING);
    var c2 := Pair(BOOL, STRING);
    GoodPair(LONG, c2);
    var c1 := Pair(LONG, c2);
    GoodPair(LONG, c1);
    GoodPair(LONG, Pair(LONG, c1));
  }

  type StateDepRow = (StateNameRow, StateCostRow)

  function StateDepToRow(d: StateDependency): StateDepRow {
    ((d.stateId, (d.generation, (d.sizeBytes, d.residentNodes))),
     (d.localityQuality, (d.transferEstimate, (d.recomputeEstimate, (d.providerBacked, d.compatibility)))))
  }

  function StateDepOfRow(r: StateDepRow): StateDependency {
    StateDependency(
      r.0.0, r.0.1.0, r.0.1.1.0, r.0.1.1.1,
      r.1.0, r.1.1.0, r.1.1.1.0, r.1.1.1.1.0, r.1.1.1.1.1)
  }

  const STATE_DEP_ROW: Codec<StateDepRow> := Pair(STATE_NAME, STATE_COST)
  const STATE_DEP: Codec<StateDependency> := View(STATE_DEP_ROW, StateDepToRow, StateDepOfRow)

  predicate StateDepWithin(d: StateDependency) {
    Short(d.stateId) && Short(d.generation) && |d.residentNodes| <= MAX_LIST && Short(d.compatibility)
  }

  lemma GoodStateDep()
    ensures Good(STATE_DEP)
    ensures forall d :: STATE_DEP.within(d) <==> StateDepWithin(d)
  {
    GoodStateName();
    GoodStateCost();
    hide Good, STATE_NAME, STATE_COST, Short;
    GoodPair(STATE_NAME, STATE_COST);
    GoodView(STATE_DEP_ROW, StateDepToRow, StateDepOfRow);
  }

  const STATE_DEPS: Codec<seq<StateDependency>> := ListOf(STATE_DEP)

  predicate StateDepsWithin(l: seq<StateDependency>) {
    |l| <= MAX_LIST && forall i :: 0 <= i < |l| ==> StateDepWithin(l[i])
  }

  lemma GoodStateDeps()
    ensures Good(STATE_DEPS) && forall l :: STATE_DEPS.within(l) <==> StateDepsWithin(l)
  {
    GoodStateDep();
    hide STATE_DEP, StateDepWithin;
    GoodListOf(STATE_DEP);
  }

  const OPT_ID: Codec<Option<Id>> := Optional(ID)

  lemma GoodOptId()
    ensures Good(OPT_ID) && forall o :: OPT_ID.within(o)
  {
    GoodId();
    GoodOptional(ID);
  }

  // The fields of a task in the order they are written, in six stretches.

  type TaskHeadRow = (Id, (Id, (Bytes, (Byte, (Byte, (Byte, Byte))))))
  const TASK_HEAD: Codec<TaskHeadRow> := Pair(ID, Pair(ID, Pair(STRING, Pair(U8, Pair(U8, Pair(U8, U8))))))

  lemma GoodTaskHead()
    ensures Good(TASK_HEAD)
    ensures forall r :: TASK_HEAD.within(r) <==> Short(r.1.1.0)
  {
    GoodId();
    GoodString();
    GoodByte();
    hide Good;
    GoodPair(U8, U8);
    var c5 := Pair(U8, U8);
    GoodPair(U8, c5);
    var c4 := Pair(U8, c5);
    GoodPair(U8, c4);
    var c3 := Pair(U8, c4);
    GoodPair(STRING, c3);
    var c2 := Pair(STRING, c3);
    GoodPair(ID, c2);
    var c1 := Pair(ID, c2);
    GoodPair(ID, c1);
  }

  type TaskNeedsRow = (U32, (U32, (U64, (seq<Id>, seq<StateDependency>))))
  const TASK_NEEDS: Codec<TaskNeedsRow> := Pair(WORD, Pair(WORD, Pair(LONG, Pair(IDS, STATE_DEPS))))

  lemma GoodTaskNeeds()
    ensures Good(TASK_NEEDS)
    ensures forall r :: TASK_NEEDS.within(r) <==> |r.1.1.1.0| <= MAX_LIST && StateDepsWithin(r.1.1.1.1)
  {
    GoodWord();
    GoodLong();
    GoodIds();
    GoodStateDeps();
    hide Good, IDS, STATE_DEPS, StateDepsWithin;
    GoodPair(IDS, STATE_DEPS);
    var c3 := Pair(IDS, STATE_DEPS);
    GoodPair(LONG, c3);
    var c2 := Pair(LONG, c3);
    GoodPair(WORD, c2);
    var c1 := Pair(WORD, c2);
    GoodPair(WORD, c1);
  }

  type TaskTimingRow = (U64, (U64, (Float64, (bool, (Int64, (Byte, RetryPolicy))))))
  const TASK_TIMING: Codec<TaskTimingRow> := Pair(LONG, Pair(LONG, Pair(LONG, Pair(BOOL, Pair(SIGNED,
    Pair(U8, RETRY))))))

  lemma GoodTaskTiming()
    ensures Good(TASK_TIMING)
    ensures forall r :: TASK_TIMING.within(r)
  {
    GoodLong();
    GoodBool();
    GoodSigned();
    GoodByte();
    GoodRetry();
    hide Good, RETRY;
    GoodPair(U8, RETRY);
    var c5 := Pair(U8, RETRY);
    GoodPair(SIGNED, c5);
    var c4 := Pair(SIGNED, c5);
    GoodPair(BOOL, c4);
    var c3 := Pair(BOOL, c4);
    GoodPair(LONG, c3);
    var c2 := Pair(LONG, c3);
    GoodPair(LONG, c2);
    var c1 := Pair(LONG, c2);
    GoodPair(LONG, c1);
  }

  type TaskPlacingRow = (seq<Id>, (seq<Id>, (seq<Bytes>, (seq<Bytes>, (Bytes, (Option<Id>, Option<Id>))))))
  const TASK_PLACING: Codec<TaskPlacingRow> := Pair(IDS, Pair(IDS, Pair(STRINGS, Pair(STRINGS, Pair(STRING,
    Pair(OPT_ID, OPT_ID))))))

  lemma GoodTaskPlacing()
    ensures Good(TASK_PLACING)
    ensures forall r :: TASK_PLACING.within(r) <==> |r.0| <= MAX_LIST && |r.1.0| <= MAX_LIST && ShortAll(r.1.1.0) && ShortAll(r.1.1.1.0) && Short(r.1.1.1.1.0)
  {
    GoodIds();
    GoodStrings();
    GoodString();
    GoodOptId();
    hide Good, IDS, STRINGS, ShortAll, OPT_ID;
    GoodPair(OPT_ID, OPT_ID);
    var c5 := Pair(OPT_ID, OPT_ID);
    GoodPair(STRING, c5);
    var c4 := Pair(STRING, c5);
    GoodPair(STRINGS, c4);
    var c3 := Pair(STRINGS, c4);
    GoodPair(STRINGS, c3);
    var c2 := Pair(STRINGS, c3);
    GoodPair(IDS, c2);
    var c1 := Pair(IDS, c2);
    GoodPair(IDS, c1);
  }

  type TaskCostsRow = (Float64, (Float64, (Float64, bool)))
  const TASK_COSTS: Codec<TaskCostsRow> := Pair(LONG, Pair(LONG, Pair(LONG, BOOL)))

  lemma GoodTaskCosts()
    ensures Good(TASK_COSTS)
    ensures forall r :: TASK_COSTS.within(r)
  {
    GoodLong();
    GoodBool();
    hide Good;
    GoodPair(LONG, BOOL);
    var c2 := Pair(LONG, BOOL);
    GoodPair(LONG, c2);
    var c1 := Pair(LONG, c2);
    GoodPair(LONG, c1);
  }

  type TaskKernelRow = (Byte, (U64, (U64, (U64, (U64, (map<Bytes, Bytes>, Bytes))))))
  const TASK_KERNEL: Codec<TaskKernelRow> := Pair(U8, Pair(LONG, Pair(LONG, Pair(LONG, Pair(LONG,
    Pair(TAGS, STRING))))))

  lemma GoodTaskKernel()
    ensures Good(TASK_KERNEL)
    ensures forall r :: TASK_KERNEL.within(r) <==> ShortTags(r.1.1.1.1.1.0) && Short(r.1.1.1.1.1.1)
  {
    GoodByte();
    GoodLong();
    GoodTags();
    GoodString();
    forall m ensures TAGS.within(m) <==> ShortTags(m) { TagsWithin(m); }
    hide Good, TAGS, ShortTags;
    GoodPair(TAGS, STRING);
    var c5 := Pair(TAGS, STRING);
    GoodPair(LONG, c5);
    var c4 := Pair(LONG, c5);
    GoodPair(LONG, c4);
    var c3 := Pair(LONG, c4);
    GoodPair(LONG, c3);
    var c2 := Pair(LONG, c3);
    GoodPair(LONG, c2);
    var c1 := Pair(LONG, c2);
    GoodPair(U8, c1);
  }

  type TaskRow = (TaskHeadRow, (TaskNeedsRow, (TaskTimingRow, (TaskPlacingRow, (TaskCostsRow, TaskKernelRow)))))

  function TaskToRow(t: ComputeTask): TaskRow {
    ((t.id, (t.workload, (t.name, (t.taskClass, (t.requiredExecutor, (t.minCapabilityMajor,
       t.minCapabilityMinor)))))),
     ((t.requiredCpuSlots, (t.requiredGpuSlots, (t.scratchMemoryBytes, (t.dependencies, t.stateDependencies)))),
     ((t.expectedInputBytes, (t.expectedOutputBytes, (t.estimatedDuration, (t.hasDeadline, (t.deadlineMs,
       (t.priority, t.retry)))))),
     ((t.preferredNodes, (t.forbiddenNodes, (t.requiredTags, (t.preferredTags, (t.antiAffinityGroup,
       (t.sameNodeAsTask, t.differentNodeFromTask)))))),
     ((t.expectedTransferGb, (t.expectedRecomputeCost, (t.costEstimate, t.preemptible))),
     (t.kernel, (t.kernelN, (t.kernelA, (t.kernelB, (t.seed, (t.userTags, t.payload)))))))))))
  }

  function TaskOfRow(r: TaskRow): ComputeTask {
    ComputeTask(
      r.0.0, r.0.1.0, r.0.1.1.0, r.0.1.1.1.0, r.0.1.1.1.1.0, r.0.1.1.1.1.1.0, r.0.1.1.1.1.1.1,
      r.1.0.0, r.1.0.1.0, r.1.0.1.1.0, r.1.0.1.1.1.0, r.1.0.1.1.1.1,
      r.1.1.0.0, r.1.1.0.1.0, r.1.1.0.1.1.0, r.1.1.0.1.1.1.0, r.1.1.0.1.1.1.1.0, r.1.1.0.1.1.1.1.1.0,
      r.1.1.0.1.1.1.1.1.1,
      r.1.1.1.0.0, r.1.1.1.0.1.0, r.1.1.1.0.1.1.0, r.1.1.1.0.1.1.1.0, r.1.1.1.0.1.1.1.1.0, r.1.1.1.0.1.1.1.1.1.0,
      r.1.1.1.0.1.1.1.1.1.1,
      r.1.1.1.1.0.0, r.1.1.1.1.0.1.0, r.1.1.1.1.0.1.1.0, r.1.1.1.1.0.1.1.1,
      r.1.1.1.1.1.0, r.1.1.1.1.1.1.0, r.1.1.1.1.1.1.1.0, r.1.1.1.1.1.1.1.1.0, r.1.1.1.1.1.1.1.1.1.0,
      r.1.1.1.1.1.1.1.1.1.1.0, r.1.1.1.1.1.1.1.1.1.1.1)
  }

  const TASK_ROW: Codec<TaskRow> := Pair(TASK_HEAD, Pair(TASK_NEEDS, Pair(TASK_TIMING, Pair(TASK_PLACING,
    Pair(TASK_COSTS, TASK_KERNEL)))))
  const TASK: Codec<ComputeTask> := View(TASK_ROW, TaskToRow, TaskOfRow)

  ghost predicate TaskWithin(t: ComputeTask) {
    && Short(t.name) && |t.dependencies| <= MAX_LIST && StateDepsWithin(t.stateDependencies)
    && |t.preferredNodes| <= MAX_LIST && |t.forbiddenNodes| <= MAX_LIST
    && ShortAll(t.requiredTags) && ShortAll(t.preferredTags) && Short(t.antiAffinityGroup)
    && ShortTags(t.userTags) && Short(t.payload)
  }

  lemma GoodTask()
    ensures Good(TASK)
    ensures forall t :: TASK.within(t) <==> TaskWithin(t)
  {
    GoodTaskHead();
    GoodTaskNeeds();
    GoodTaskTiming();
    GoodTaskPlacing();
    GoodTaskCosts();
    GoodTaskKernel();
    hide Good, TASK_HEAD, TASK_NEEDS, TASK_TIMING, TASK_PLACING, TASK_COSTS, TASK_KERNEL, Short, ShortAll, ShortTags, StateDepsWithin;
    GoodPair(TASK_COSTS, TASK_KERNEL);
    var c4 := Pair(TASK_COSTS, TASK_KERNEL);
    GoodPair(TASK_PLACING, c4);
    var c3 := Pair(TASK_PLACING, c4);
    GoodPair(TASK_TIMING, c3);
    var c2 := Pair(TASK_TIMING, c3);
    GoodPair(TASK_NEEDS, c2);
    var c1 := Pair(TASK_NEEDS, c2);
    GoodPair(TASK_HEAD, c1);
    GoodView(TASK_ROW, TaskToRow, TaskOfRow);
  }

  // ----- attempts -----

  type AttemptHeadRow = (Id, (Id, (Id, (Id, (U64, (Id, (Byte, U32)))))))
  const ATTEMPT_HEAD: Codec<AttemptHeadRow> := Pair(ID, Pair(ID, Pair(ID, Pair(ID, Pair(LONG, Pair(ID,
    Pair(U8, WORD)))))))

  lemma GoodAttemptHead()
    ensures Good(ATTEMPT_HEAD)
    ensures forall r :: ATTEMPT_HEAD.within(r)
  {
    GoodId();
    GoodLong();
    GoodByte();
    GoodWord();
    hide Good;
    GoodPair(U8, WORD);
    var c6 := Pair(U8, WORD);
    GoodPair(ID, c6);
    var c5 := Pair(ID, c6);
    GoodPair(LONG, c5);
    var c4 := Pair(LONG, c5);
    GoodPair(ID, c4);
    var c3 := Pair(ID, c4);
    GoodPair(ID, c3);
    var c2 := Pair(ID, c3);
    GoodPair(ID, c2);
    var c1 := Pair(ID, c2);
    GoodPair(ID, c1);
  }

  type AttemptTimesRow = (Int64, (Int64, (Int64, (Byte, (Byte, Bytes)))))
  const ATTEMPT_TIMES: Codec<AttemptTimesRow> := Pair(SIGNED, Pair(SIGNED, Pair(SIGNED, Pair(U8, Pair(U8,
    STRING)))))

  lemma GoodAttemptTimes()
    ensures Good(ATTEMPT_TIMES)
    ensures forall r :: ATTEMPT_TIMES.within(r) <==> Short(r.1.1.1.1.1)
  {
    GoodSigned();
    GoodByte();
    GoodString();
    hide Good;
    GoodPair(U8, STRING);
    var c4 := Pair(U8, STRING);
    GoodPair(U8, c4);
    var c3 := Pair(U8, c4);
    GoodPair(SIGNED, c3);
    var c2 := Pair(SIGNED, c3);
    GoodPair(SIGNED, c2);
    var c1 := Pair(SIGNED, c2);
    GoodPair(SIGNED, c1);
  }

  type AttemptOutputRow = (U64, (Bytes, (Float64, (U64, (Bytes, bool)))))
  const ATTEMPT_OUTPUT: Codec<AttemptOutputRow> := Pair(LONG, Pair(STRING, Pair(LONG, Pair(LONG,
    Pair(STRING, BOOL)))))

  lemma GoodAttemptOutput()
    ensures Good(ATTEMPT_OUTPUT)
    ensures forall r :: ATTEMPT_OUTPUT.within(r) <==> Short(r.1.0) && Short(r.1.1.1.1.0)
  {
    GoodLong();
    GoodString();
    GoodBool();
    hide Good;
    GoodPair(STRING, BOOL);
    var c4 := Pair(STRING, BOOL);
    GoodPair(LONG, c4);
    var c3 := Pair(LONG, c4);
    GoodPair(LONG, c3);
    var c2 := Pair(LONG, c3);
    GoodPair(STRING, c2);
    var c1 := Pair(STRING, c2);
    GoodPair(LONG, c1);
  }

  type AttemptRow = (AttemptHeadRow, (AttemptTimesRow, AttemptOutputRow))

  function AttemptToRow(a: Attempt): AttemptRow {
    ((a.id, (a.taskId, (a.nodeId, (a.nodeSession, (a.epoch, (a.reservationId, (a.executor, a.attemptNumber))))))),
     ((a.dispatchedAtMs, (a.startedAtMs, (a.completedAtMs, (a.state, (a.failureKind, a.failureReason))))),
     (a.outputSize, (a.outputIntegrity, (a.cpuMillis, (a.bytesTransferred, (a.device, a.committed)))))))
  }

  function AttemptOfRow(r: AttemptRow): Attempt {
    Attempt(
      r.0.0, r.0.1.0, r.0.1.1.0, r.0.1.1.1.0, r.0.1.1.1.1.0, r.0.1.1.1.1.1.0, r.0.1.1.1.1.1.1.0, r.0.1.1.1.1.1.1.1,
      r.1.0.0, r.1.0.1.0, r.1.0.1.1.0, r.1.0.1.1.1.0, r.1.0.1.1.1.1.0, r.1.0.1.1.1.1.1,
      r.1.1.0, r.1.1.1.0, r.1.1.1.1.0, r.1.1.1.1.1.0, r.1.1.1.1.1.1.0, r.1.1.1.1.1.1.1)
  }

  const ATTEMPT_ROW: Codec<AttemptRow> := Pair(ATTEMPT_HEAD, Pair(ATTEMPT_TIMES, ATTEMPT_OUTPUT))
  const ATTEMPT: Codec<Attempt> := View(ATTEMPT_ROW, AttemptToRow, AttemptOfRow)

  ghost predicate AttemptWithin(a: Attempt) {
    Short(a.failureReason) && Short(a.outputIntegrity) && Short(a.device)
  }

  lemma GoodAttempt()
    ensures Good(ATTEMPT)
    ensures forall a :: ATTEMPT.within(a) <==> AttemptWithin(a)
  {
    GoodAttemptHead();
    GoodAttemptTimes();
    GoodAttemptOutput();
    hide Good, ATTEMPT_HEAD, ATTEMPT_TIMES, ATTEMPT_OUTPUT, Short;
    GoodPair(ATTEMPT_TIMES, ATTEMPT_OUTPUT);
    var c1 := Pair(ATTEMPT_TIMES, ATTEMPT_OUTPUT);
    GoodPair(ATTEMPT_HEAD, c1);
    GoodView(ATTEMPT_ROW, AttemptToRow, AttemptOfRow);
  }

  // ----- placements -----

  /** The ten costs and scores of a candidate or of the whole decision. */
  type ScoresRow =
    (Float64, (Float64, (Float64, (Float64, (Float64, (Float64, (Float64, (Float64, (Float64, Float64)))))))))

  const FIVE_SCORES: Codec<(Float64, (Float64, (Float64, (Float64, Float64))))> :=
    Pair(LONG, Pair(LONG, Pair(LONG, Pair(LONG, LONG))))
  const SCORES: Codec<ScoresRow> :=
    Pair(LONG, Pair(LONG, Pair(LONG, Pair(LONG, Pair(LONG, FIVE_SCORES)))))

  lemma GoodFiveScores()
    ensures Good(FIVE_SCORES) && forall r :: FIVE_SCORES.within(r)
  {
    GoodLong();
    hide Good;
    GoodPair(LONG, LONG);
    var c2 := Pair(LONG, LONG);
    GoodPair(LONG, c2);
    var c1 := Pair(LONG, c2);
    GoodPair(LONG, c1);
    GoodPair(LONG, Pair(LONG, c1));
  }

  lemma GoodScores()
    ensures Good(SCORES) && forall r :: SCORES.within(r)
  {
    GoodLong();
    GoodFiveScores();
    hide Good, FIVE_SCORES;
    GoodPair(LONG, FIVE_SCORES);
    var c3 := Pair(LONG, FIVE_SCORES);
    GoodPair(LONG, c3);
    var c2 := Pair(LONG, c3);
    GoodPair(LONG, c2);
    var c1 := Pair(LONG, c2);
    GoodPair(LONG, c1);
    GoodPair(LONG, Pair(LONG, c1));
  }

  type CandidateRow = (Id, (Byte, (Bytes, ScoresRow)))

  function CandidateToRow(c: CandidateScore): CandidateRow {
    (c.nodeId, (c.executor, (c.device,
     (c.score, (c.executionCost, (c.queueCost, (c.transferCost, (c.recomputeCost, (c.pressureCost, (c.affinityCost,
      (c.capabilityCost, (c.localityScore, c.pressureScore))))))))))))
  }

  function CandidateOfRow(r: CandidateRow): CandidateScore {
    var s := r.1.1.1;
    CandidateScore(r.0, r.1.0, r.1.1.0,
      s.0, s.1.0, s.1.1.0, s.1.1.1.0, s.1.1.1.1.0, s.1.1.1.1.1.0, s.1.1.1.1.1.1.0, s.1.1.1.1.1.1.1.0,
      s.1.1.1.1.1.1.1.1.0, s.1.1.1.1.1.1.1.1.1)
  }

  const CANDIDATE_ROW: Codec<CandidateRow> := Pair(ID, Pair(U8, Pair(STRING, SCORES)))
  const CANDIDATE: Codec<CandidateScore> := View(CANDIDATE_ROW, CandidateToRow, CandidateOfRow)

  lemma GoodCandidate()
    ensures Good(CANDIDATE)
    ensures forall c :: CANDIDATE.within(c) <==> Short(c.device)
  {
    GoodByte();
    GoodId();
    GoodString();
    GoodScores();
    hide Good, SCORES;
    GoodPair(STRING, SCORES);
    var c1 := Pair(STRING, SCORES);
    GoodPair(U8, c1);
    GoodPair(ID, Pair(U8, c1));
    GoodView(CANDIDATE_ROW, CandidateToRow, CandidateOfRow);
  }

  type ExclusionRow = (Id, seq<Bytes>)

  function ExclusionToRow(e: Exclusion): ExclusionRow { (e.nodeId, e.reasons) }
  function ExclusionOfRow(r: ExclusionRow): Exclusion { Exclusion(r.0, r.1) }

  const EXCLUSION_ROW: Codec<ExclusionRow> := Pair(ID, STRINGS)
  const EXCLUSION: Codec<Exclusion> := View(EXCLUSION_ROW, ExclusionToRow, ExclusionOfRow)

  lemma GoodExclusion()
    ensures Good(EXCLUSION)
    ensures forall e :: EXCLUSION.within(e) <==> ShortAll(e.reasons)
  {
    GoodId();
    GoodStrings();
    hide Good, STRINGS, ShortAll;
    GoodPair(ID, STRINGS);
    GoodView(EXCLUSION_ROW, ExclusionToRow, ExclusionOfRow);
  }

  const CANDIDATES: Codec<seq<CandidateScore>> := ListOf(CANDIDATE)
  const EXCLUSIONS: Codec<seq<Exclusion>> := ListOf(EXCLUSION)
  const OPT_BYTE: Codec<Option<Byte>> := Optional(U8)

  predicate CandidatesWithin(l: seq<CandidateScore>) {
    |l| <= MAX_LIST && forall i :: 0 <= i < |l| ==> Short(l[i].device)
  }

  predicate ExclusionsWithin(l: seq<Exclusion>) {
    |l| <= MAX_LIST && forall i :: 0 <= i < |l| ==> ShortAll(l[i].reasons)
  }

  lemma GoodCandidates()
    ensures Good(CANDIDATES) && forall l :: CANDIDATES.within(l) <==> CandidatesWithin(l)
  {
    GoodCandidate();
    hide CANDIDATE, Short;
    GoodListOf(CANDIDATE);
  }

  lemma GoodExclusions()
    ensures Good(EXCLUSIONS) && forall l :: EXCLUSIONS.within(l) <==> ExclusionsWithin(l)
  {
    GoodExclusion();
    hide EXCLUSION, ShortAll;
    GoodListOf(EXCLUSION);
  }

  lemma GoodOptByte()
    ensures Good(OPT_BYTE) && forall o :: OPT_BYTE.within(o)
  {
    GoodByte();
    GoodOptional(U8);
  }

  type PlacementHeadRow = (bool, (Option<Id>, (Option<Byte>, (Bytes, (seq<CandidateScore>, seq<Exclusion>)))))
  const PLACEMENT_HEAD: Codec<PlacementHeadRow> := Pair(BOOL, Pair(OPT_ID, Pair(OPT_BYTE, Pair(STRING,
    Pair(CANDIDATES, EXCLUSIONS)))))

  lemma GoodPlacementHead()
    ensures Good(PLACEMENT_HEAD)
    ensures forall r :: PLACEMENT_HEAD.within(r) <==> Short(r.1.1.1.0) && CandidatesWithin(r.1.1.1.1.0) && ExclusionsWithin(r.1.1.1.1.1)
  {
    GoodBool();
    GoodOptId();
    GoodOptByte();
    GoodString();
    GoodCandidates();
    GoodExclusions();
    hide Good, OPT_ID, OPT_BYTE, CANDIDATES, CandidatesWithin, EXCLUSIONS, ExclusionsWithin;
    GoodPair(CANDIDATES, EXCLUSIONS);
    var c4 := Pair(CANDIDATES, EXCLUSIONS);
    GoodPair(STRING, c4);
    var c3 := Pair(STRING, c4);
    GoodPair(OPT_BYTE, c3);
    var c2 := Pair(OPT_BYTE, c3);
    GoodPair(OPT_ID, c2);
    var c1 := Pair(OPT_ID, c2);
    GoodPair(BOOL, c1);
  }

  type PlacementCostsRow = (ScoresRow, Bytes)
  const PLACEMENT_COSTS: Codec<PlacementCostsRow> := Pair(SCORES, STRING)

  lemma GoodPlacementCosts()
    ensures Good(PLACEMENT_COSTS)
    ensures forall r :: PLACEMENT_COSTS.within(r) <==> Short(r.1)
  {
    GoodScores();
    GoodString();
    hide Good, SCORES;
    GoodPair(SCORES, STRING);
  }

  type PlacementRow = (PlacementHeadRow, PlacementCostsRow)

  function PlacementToRow(d: PlacementDecision): PlacementRow {
    ((d.feasible, (d.chosenNode, (d.chosenExecutor, (d.chosenDevice, (d.candidates, d.excluded))))),
     ((d.totalCost, (d.executionCost, (d.queueCost, (d.transferCost, (d.recomputeCost, (d.pressureCost, (d.affinityCost,
       (d.capabilityCost, (d.localityScore, d.pressureScore))))))))), d.reason))
  }

  function PlacementOfRow(r: PlacementRow): PlacementDecision {
    var s := r.1.0;
    PlacementDecision(
      r.0.0, r.0.1.0, r.0.1.1.0, r.0.1.1.1.0, r.0.1.1.1.1.0, r.0.1.1.1.1.1,
      s.0, s.1.0, s.1.1.0, s.1.1.1.0, s.1.1.1.1.0, s.1.1.1.1.1.0, s.1.1.1.1.1.1.0, s.1.1.1.1.1.1.1.0,
      s.1.1.1.1.1.1.1.1.0, s.1.1.1.1.1.1.1.1.1, r.1.1)
  }

  const PLACEMENT_ROW: Codec<PlacementRow> := Pair(PLACEMENT_HEAD, PLACEMENT_COSTS)
  const PLACEMENT: Codec<PlacementDecision> := View(PLACEMENT_ROW, PlacementToRow, PlacementOfRow)

  ghost predicate PlacementWithin(d: PlacementDecision) {
    Short(d.chosenDevice) && CandidatesWithin(d.candidates) && ExclusionsWithin(d.excluded) && Short(d.reason)
  }

  lemma GoodPlacement()
    ensures Good(PLACEMENT)
    ensures forall d :: PLACEMENT.within(d) <==> PlacementWithin(d)
  {
    GoodPlacementHead();
    GoodPlacementCosts();
    hide Good, PLACEMENT_HEAD, PLACEMENT_COSTS, Short, CandidatesWithin, ExclusionsWithin;
    GoodPair(PLACEMENT_HEAD, PLACEMENT_COSTS);
    GoodView(PLACEMENT_ROW, PlacementToRow, PlacementOfRow);
  }

  // ----- writing and reading -----

  method WriteRecord<T(!new)>(w: BinaryWriter, c: Codec<T>, x: T)
    requires Good(c)
    modifies w
    ensures w.buf == old(w.buf) + Encoded(c, x)
  {
    Wire.Serialize(w, c.format, c.put(x));
  }

  method ReadRecord<T>(r: BinaryReader, c: Codec<T>) returns (x: Option<T>)
    requires r.Valid()
    modifies r`pos
    ensures r.Valid()
    ensures match Decoded(c, old(r.Rest()))
            case None => x == None
            case Some(p) => x == Some(p.value) && r.Rest() == p.rest
  {
    var v := Wire.Deserialize(r, c.format);
    x := if v.Some? then Some(c.get(v.value)) else None;
  }

  // ----- the round trips -----

  lemma TaskRoundTrip(t: ComputeTask, rest: Bytes, k: nat)
    ensures Good(TASK)
    ensures Decoded(TASK, Encoded(TASK, t) + rest) == Some(Parsed(t, rest)) <==> TaskWithin(t)
    ensures TaskWithin(t) && k < |Encoded(TASK, t)| ==> Decoded(TASK, Encoded(TASK, t)[..k]) == None
  {
    GoodTask();
    hide Good, TASK, Encoded, Decoded, TaskWithin;
    CodecRoundTrip(TASK, t, rest);
    if TaskWithin(t) && k < |Encoded(TASK, t)| {
      CodecPrefixFails(TASK, t, k);
    }
  }

  lemma AttemptRoundTrip(a: Attempt, rest: Bytes, k: nat)
    ensures Good(ATTEMPT)
    ensures Decoded(ATTEMPT, Encoded(ATTEMPT, a) + rest) == Some(Parsed(a, rest)) <==> AttemptWithin(a)
    ensures AttemptWithin(a) && k < |Encoded(ATTEMPT, a)| ==> Decoded(ATTEMPT, Encoded(ATTEMPT, a)[..k]) == None
  {
    GoodAttempt();
    hide Good, ATTEMPT, Encoded, Decoded, AttemptWithin;
    CodecRoundTrip(ATTEMPT, a, rest);
    if AttemptWithin(a) && k < |Encoded(ATTEMPT, a)| {
      CodecPrefixFails(ATTEMPT, a, k);
    }
  }

  lemma PlacementRoundTrip(d: PlacementDecision, rest: Bytes, k: nat)
    ensures Good(PLACEMENT)
    ensures Decoded(PLACEMENT, Encoded(PLACEMENT, d) + rest) == Some(Parsed(d, rest)) <==> PlacementWithin(d)
    ensures PlacementWithin(d) && k < |Encoded(PLACEMENT, d)| ==> Decoded(PLACEMENT, Encoded(PLACEMENT, d)[..k]) == None
  {
    GoodPlacement();
    hide Good, PLACEMENT, Encoded, Decoded, PlacementWithin;
    CodecRoundTrip(PLACEMENT, d, rest);
    if PlacementWithin(d) && k < |Encoded(PLACEMENT, d)| {
      CodecPrefixFails(PLACEMENT, d, k);
    }
  }

  lemma WorkloadRoundTrip(w: Workload, rest: Bytes, k: nat)
    ensures Good(WORKLOAD)
    ensures Decoded(WORKLOAD, Encoded(WORKLOAD, w) + rest) == Some(Parsed(w, rest)) <==> Short(w.name) && ShortTags(w.userTags)
    ensures Short(w.name) && ShortTags(w.userTags) && k < |Encoded(WORKLOAD, w)| ==> Decoded(WORKLOAD, Encoded(WORKLOAD, w)[..k]) == None
  {
    GoodWorkload();
    hide Good, WORKLOAD, Encoded, Decoded;
    CodecRoundTrip(WORKLOAD, w, rest);
    if Short(w.name) && ShortTags(w.userTags) && k < |Encoded(WORKLOAD, w)| {
      CodecPrefixFails(WORKLOAD, w, k);
    }
  }
}
