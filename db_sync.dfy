/** The batch reconciliation of the local store: snapshot the stored
    fingerprints, sort every incoming payload into insert, update or
    nothing, then write all inserts and updates in one transaction that
    either commits completely or leaves the table as it was. */
module DbSync {
  import opened PyJson
  import opened DbRecord

  /** The orders table, keyed by woo_id (UNIQUE NOT NULL). */
  type Store = map<int, Row>

  /** Every row sits under its own woo_id and holds only bindable cells. */
  predicate ValidStore(s: Store) {
    forall k :: k in s ==> s[k].wooId == JInt(k) && Bindable(s[k])
  }

  /** {woo_id: hash_signature} over every stored row. */
  function Snapshot(s: Store): (snap: map<int, Digest>)
    ensures snap.Keys == s.Keys
  {
    map k | k in s :: s[k].hashSignature
  }

  function IdOf(order: Dict): Json {
    Get(order, "id", JNull)
  }

  /** No two payloads of the batch carry the same id. */
  predicate DistinctIds(batch: seq<Dict>) {
    forall i, j :: 0 <= i < j < |batch| ==> IdOf(batch[i]) != IdOf(batch[j])
  }

  // ---------------------------------------------------------------- one payload

  /** What the loop body computes for one payload before deciding: its id,
      its fingerprint, and its projected row (or the error projecting it raised). */
  datatype Prepared = Prepared(id: Json, hash: Digest, row: Result<Row>)

  /** A projected row carries the payload's id and fingerprint. */
  predicate Consistent(p: Prepared) {
    p.row.Ok? ==> p.row.value.wooId == p.id && p.row.value.hashSignature == p.hash
  }

  function Prepare(order: Dict, h: Hasher): (p: Prepared)
    ensures Consistent(p)
    ensures p.id == IdOf(order) && p.hash == OrderHash(h, order)
    ensures p.row == ExtractOrderData(order, OrderHash(h, order))
  {
    var hash := OrderHash(h, order);
    var r := ExtractOrderData(order, hash);
    if r.Ok? then
      ExtractDefaults(order, hash);
      Prepared(IdOf(order), hash, r)
    else
      Prepared(IdOf(order), hash, r)
  }

  function PrepareAll(batch: seq<Dict>, h: Hasher): (ps: seq<Prepared>)
    ensures |ps| == |batch|
    ensures forall i :: 0 <= i < |batch| ==> ps[i] == Prepare(batch[i], h)
  {
    seq(|batch|, i requires 0 <= i < |batch| => Prepare(batch[i], h))
  }

  /** No two prepared payloads carry the same id. */
  predicate DistinctPrepared(ps: seq<Prepared>) {
    forall i, j :: 0 <= i < j < |ps| ==> ps[i].id != ps[j].id
  }

  /** What the loop does with one payload. */
  datatype Decision = Insert(id: int, row: Row) | Update(id: int, row: Row) | Skip | Fail

  /** An id that is not in the snapshot is an insert, one whose stored
      fingerprint differs is an update, an equal fingerprint means nothing
      to write.  The payload fails the batch when its projection raised, when
      its id is null (NOT NULL), a list or dict (unhashable) or otherwise not
      an int, and when a row it would write has a cell the driver cannot bind. */
  function Decide(snap: map<int, Digest>, p: Prepared): (d: Decision)
    ensures d != Fail ==> p.row.Ok? && p.id.JInt?
    ensures d.Insert? || d.Update? ==> p.id == JInt(d.id) && d.row == p.row.value && Bindable(d.row)
    ensures d.Insert? ==> d.id !in snap
    ensures d.Update? ==> d.id in snap && snap[d.id] != p.hash
    ensures d.Skip? ==> p.id.i in snap && snap[p.id.i] == p.hash
  {
    match p.row
    case Err(_) => Fail
    case Ok(row) =>
      match p.id
      case JInt(k) =>
        if k !in snap then (if Bindable(row) then Insert(k, row) else Fail)
        else if snap[k] != p.hash then (if Bindable(row) then Update(k, row) else Fail)
        else Skip
      case _ => Fail
  }

  // ---------------------------------------------------------------- the plan

  /** The two lists the loop builds. */
  datatype Plan = Plan(inserts: seq<(int, Row)>, updates: seq<(int, Row)>)

  /** The loop over the batch, payload by payload; None as soon as one
      payload fails, since the exception leaves the loop. */
  function PlanBatch(snap: map<int, Digest>, batch: seq<Prepared>): Option<Plan> {
    if batch == [] then Some(Plan([], []))
    else
      match PlanBatch(snap, batch[..|batch| - 1])
      case None => None
      case Some(p) =>
        match Decide(snap, batch[|batch| - 1])
        case Insert(k, row) => Some(Plan(p.inserts + [(k, row)], p.updates))
        case Update(k, row) => Some(Plan(p.inserts, p.updates + [(k, row)]))
        case Skip => Some(p)
        case Fail => None
  }

  datatype Kind = Inserting | Updating

  /** The write a decision contributes to the list of the given kind. */
  predicate Selected(d: Decision, kind: Kind) {
    if kind == Inserting then d.Insert? else d.Update?
  }

  /** The entries of one list, as a reference definition: in batch order, one
      per payload whose decision is of that kind. */
  function WritesOf(snap: map<int, Digest>, batch: seq<Prepared>, kind: Kind): seq<(int, Row)> {
    if batch == [] then []
    else
      var d := Decide(snap, batch[|batch| - 1]);
      WritesOf(snap, batch[..|batch| - 1], kind) + (if Selected(d, kind) then [(d.id, d.row)] else [])
  }

  /** A successful loop has met no failing payload and built exactly the
      reference lists. */
  lemma {:induction false} PlanShape(snap: map<int, Digest>, batch: seq<Prepared>)
    requires PlanBatch(snap, batch).Some?
    ensures PlanBatch(snap, batch).value ==
      Plan(WritesOf(snap, batch, Inserting), WritesOf(snap, batch, Updating))
    ensures forall i :: 0 <= i < |batch| ==> Decide(snap, batch[i]) != Fail
    decreases |batch|
  {
    if batch != [] {
      var pre := batch[..|batch| - 1];
      PlanShape(snap, pre);
      forall i | 0 <= i < |batch|
        ensures Decide(snap, batch[i]) != Fail
      {
        if i < |batch| - 1 {
          assert batch[i] == pre[i];
        }
      }
    }
  }

  /** A loop in which every payload decides to write nothing builds two empty lists. */
  lemma {:induction false} PlanAllSkip(snap: map<int, Digest>, batch: seq<Prepared>)
    requires forall i :: 0 <= i < |batch| ==> Decide(snap, batch[i]) == Skip
    ensures PlanBatch(snap, batch) == Some(Plan([], []))
    decreases |batch|
  {
    if batch != [] {
      var pre := batch[..|batch| - 1];
      forall i | 0 <= i < |pre|
        ensures Decide(snap, pre[i]) == Skip
      {
        assert pre[i] == batch[i];
      }
      PlanAllSkip(snap, pre);
    }
  }

  /** A failing payload anywhere fails the whole loop. */
  lemma {:induction false} PlanFails(snap: map<int, Digest>, batch: seq<Prepared>, i: int)
    requires 0 <= i < |batch| && Decide(snap, batch[i]) == Fail
    ensures PlanBatch(snap, batch) == None
  {
    if PlanBatch(snap, batch).Some? {
      PlanShape(snap, batch);
    }
  }

  /** Every entry of a list comes from a payload whose decision it is. */
  lemma {:induction false} WritesFrom(snap: map<int, Digest>, batch: seq<Prepared>, kind: Kind, a: int)
    requires 0 <= a < |WritesOf(snap, batch, kind)|
    ensures exists i :: (0 <= i < |batch| && Selected(Decide(snap, batch[i]), kind) &&
      WritesOf(snap, batch, kind)[a] == (Decide(snap, batch[i]).id, Decide(snap, batch[i]).row))
    decreases |batch|
  {
    var pre := batch[..|batch| - 1];
    var w := WritesOf(snap, pre, kind);
    if a < |w| {
      WritesFrom(snap, pre, kind, a);
      var i :| 0 <= i < |pre| && Selected(Decide(snap, pre[i]), kind) &&
        w[a] == (Decide(snap, pre[i]).id, Decide(snap, pre[i]).row);
      assert pre[i] == batch[i];
    }
  }

  /** Every payload whose decision is of the kind has its entry in the list. */
  lemma {:induction false} WritesHas(snap: map<int, Digest>, batch: seq<Prepared>, kind: Kind, i: int)
    requires 0 <= i < |batch| && Selected(Decide(snap, batch[i]), kind)
    ensures (Decide(snap, batch[i]).id, Decide(snap, batch[i]).row) in WritesOf(snap, batch, kind)
    decreases |batch|
  {
    var pre := batch[..|batch| - 1];
    if i < |batch| - 1 {
      assert pre[i] == batch[i];
      WritesHas(snap, pre, kind, i);
    }
  }

  /** Two payloads of the kind that write the same key give two entries for
      that key at two different places of the list. */
  lemma {:induction false} WritesTwice(snap: map<int, Digest>, batch: seq<Prepared>, kind: Kind, i: int, j: int, k: int)
    returns (a: int, b: int)
    requires 0 <= i < j < |batch|
    requires Selected(Decide(snap, batch[i]), kind) && Decide(snap, batch[i]).id == k
    requires Selected(Decide(snap, batch[j]), kind) && Decide(snap, batch[j]).id == k
    ensures 0 <= a < b < |WritesOf(snap, batch, kind)|
    ensures WritesOf(snap, batch, kind)[a].0 == k && WritesOf(snap, batch, kind)[b].0 == k
    decreases |batch|
  {
    var pre := batch[..|batch| - 1];
    var w := WritesOf(snap, batch, kind);
    var wp := WritesOf(snap, pre, kind);
    var d := Decide(snap, batch[|batch| - 1]);
    assert w == wp + (if Selected(d, kind) then [(d.id, d.row)] else []);
    assert pre[i] == batch[i];
    if j == |batch| - 1 {
      WritesHas(snap, pre, kind, i);
      a :| 0 <= a < |wp| && wp[a] == (Decide(snap, pre[i]).id, Decide(snap, pre[i]).row);
      b := |wp|;
      assert w[a] == wp[a];
    } else {
      assert pre[j] == batch[j];
      a, b := WritesTwice(snap, pre, kind, i, j, k);
      assert w[a] == wp[a] && w[b] == wp[b];
    }
  }

  // ---------------------------------------------------------------- writing

  /** The rows written one after the other, a later write of a key replacing
      an earlier one. */
  function Put(s: Store, w: seq<(int, Row)>): Store {
    if w == [] then s else Put(s, w[..|w| - 1])[w[|w| - 1].0 := w[|w| - 1].1]
  }

  /** executemany(INSERT ...): a key already in the table, or inserted twice,
      violates UNIQUE and aborts. */
  function ApplyInserts(s: Store, ins: seq<(int, Row)>): Option<Store> {
    if ins == [] then Some(s)
    else
      match ApplyInserts(s, ins[..|ins| - 1])
      case None => None
      case Some(s1) =>
        if ins[|ins| - 1].0 in s1 then None else Some(s1[ins[|ins| - 1].0 := ins[|ins| - 1].1])
  }

  /** executemany(UPDATE ... WHERE woo_id = ?): a key with no row matches nothing. */
  function ApplyUpdates(s: Store, ups: seq<(int, Row)>): Store {
    if ups == [] then s
    else
      var s1 := ApplyUpdates(s, ups[..|ups| - 1]);
      var e := ups[|ups| - 1];
      if e.0 in s1 then s1[e.0 := e.1] else s1
  }

  /** Keys pairwise different and none already stored. */
  predicate FreshKeys(s: Store, ins: seq<(int, Row)>) {
    && (forall a, b :: 0 <= a < b < |ins| ==> ins[a].0 != ins[b].0)
    && (forall a :: 0 <= a < |ins| ==> ins[a].0 !in s)
  }

  lemma {:induction false} PutKeys(s: Store, w: seq<(int, Row)>)
    ensures Put(s, w).Keys == s.Keys + set a | 0 <= a < |w| :: w[a].0
    decreases |w|
  {
    if w != [] {
      var pre := w[..|w| - 1];
      PutKeys(s, pre);
      assert (set a | 0 <= a < |w| :: w[a].0) == (set a | 0 <= a < |pre| :: pre[a].0) + {w[|w| - 1].0} by {
        forall a | 0 <= a < |pre| ensures pre[a] == w[a] { }
        forall a | 0 <= a < |w|
          ensures w[a].0 in (set a | 0 <= a < |pre| :: pre[a].0) + {w[|w| - 1].0}
        {
          if a < |pre| {
            assert pre[a] == w[a];
          }
        }
      }
    }
  }

  /** The inserts succeed exactly when their keys are fresh, and then they
      add exactly their rows. */
  lemma {:induction false} InsertsResult(s: Store, ins: seq<(int, Row)>)
    ensures ApplyInserts(s, ins) == if FreshKeys(s, ins) then Some(Put(s, ins)) else None
    decreases |ins|
  {
    if ins != [] {
      var pre := ins[..|ins| - 1];
      var e := ins[|ins| - 1];
      InsertsResult(s, pre);
      assert forall a :: 0 <= a < |pre| ==> pre[a] == ins[a];
      if FreshKeys(s, pre) {
        PutKeys(s, pre);
        if e.0 in Put(s, pre) {
          if e.0 !in s {
            var a :| 0 <= a < |pre| && pre[a].0 == e.0;
            assert ins[a].0 == ins[|ins| - 1].0;
          }
          assert !FreshKeys(s, ins);
        } else {
          forall a | 0 <= a < |pre|
            ensures ins[a].0 != e.0
          {
            assert pre[a].0 in Put(s, pre).Keys;
          }
          assert FreshKeys(s, ins);
        }
      } else {
        assert !FreshKeys(s, ins);
      }
    }
  }

  /** Updates of keys that are all stored overwrite their rows. */
  lemma {:induction false} UpdatesResult(s: Store, ups: seq<(int, Row)>)
    requires forall a :: 0 <= a < |ups| ==> ups[a].0 in s
    ensures ApplyUpdates(s, ups) == Put(s, ups)
    decreases |ups|
  {
    if ups != [] {
      var pre := ups[..|ups| - 1];
      assert forall a :: 0 <= a < |pre| ==> pre[a] == ups[a];
      UpdatesResult(s, pre);
      PutKeys(s, pre);
    }
  }

  lemma {:induction false} PutConcat(s: Store, a: seq<(int, Row)>, b: seq<(int, Row)>)
    ensures Put(s, a + b) == Put(Put(s, a), b)
    decreases |b|
  {
    if b == [] {
      assert a + b == a;
    } else {
      assert (a + b)[..|a + b| - 1] == a + b[..|b| - 1];
      PutConcat(s, a, b[..|b| - 1]);
    }
  }

  /** A key that no write names keeps its row, or its absence. */
  lemma {:induction false} PutAbsent(s: Store, w: seq<(int, Row)>, k: int)
    requires forall a :: 0 <= a < |w| ==> w[a].0 != k
    ensures k in Put(s, w) <==> k in s
    ensures k in s ==> Put(s, w)[k] == s[k]
    decreases |w|
  {
    if w != [] {
      var pre := w[..|w| - 1];
      assert forall a :: 0 <= a < |pre| ==> pre[a] == w[a];
      PutAbsent(s, pre, k);
    }
  }

  /** A key that some write names, every such write carrying the same row,
      ends up holding that row. */
  lemma {:induction false} PutOnly(s: Store, w: seq<(int, Row)>, k: int, r: Row)
    requires exists a :: 0 <= a < |w| && w[a].0 == k
    requires forall a :: 0 <= a < |w| && w[a].0 == k ==> w[a].1 == r
    ensures k in Put(s, w) && Put(s, w)[k] == r
    decreases |w|
  {
    var pre := w[..|w| - 1];
    assert forall a :: 0 <= a < |pre| ==> pre[a] == w[a];
    if w[|w| - 1].0 != k {
      var a :| 0 <= a < |w| && w[a].0 == k;
      assert a < |pre| && pre[a].0 == k;
      PutOnly(s, pre, k, r);
    }
  }

  /** Writing rows that sit under their own woo_id and are bindable keeps the table valid. */
  lemma {:induction false} PutValid(s: Store, w: seq<(int, Row)>)
    requires ValidStore(s)
    requires forall a :: 0 <= a < |w| ==> w[a].1.wooId == JInt(w[a].0) && Bindable(w[a].1)
    ensures ValidStore(Put(s, w))
    decreases |w|
  {
    if w != [] {
      var pre := w[..|w| - 1];
      assert forall a :: 0 <= a < |pre| ==> pre[a] == w[a];
      PutValid(s, pre);
    }
  }

  // ---------------------------------------------------------------- the whole call

  /** The call on prepared payloads: the new table and the returned counts.
      On any failure the transaction is rolled back and (0, 0) is returned. */
  function SyncPrepared(s: Store, batch: seq<Prepared>): (Store, (nat, nat)) {
    match PlanBatch(Snapshot(s), batch)
    case None => (s, (0, 0))
    case Some(p) =>
      match ApplyInserts(s, p.inserts)
      case None => (s, (0, 0))
      case Some(s1) => (ApplyUpdates(s1, p.updates), (|p.inserts|, |p.updates|))
  }

  /** sync_multiple_orders(batch) */
  function SyncSpec(s: Store, batch: seq<Dict>, h: Hasher): (Store, (nat, nat)) {
    SyncPrepared(s, PrepareAll(batch, h))
  }

  /** A batch of one payload writes exactly what that payload is decided to
      write, and counts it; a skipped or failing payload changes nothing. */
  lemma SyncOne(s: Store, order: Dict, h: Hasher)
    ensures var d := Decide(Snapshot(s), Prepare(order, h));
      && (d.Insert? ==> SyncSpec(s, [order], h) == (s[d.id := d.row], (1, 0)))
      && (d.Update? ==> SyncSpec(s, [order], h) == (s[d.id := d.row], (0, 1)))
      && (d.Skip? || d.Fail? ==> SyncSpec(s, [order], h) == (s, (0, 0)))
  {
    assert PrepareAll([order], h) == [Prepare(order, h)];
    SyncOnePrepared(s, Prepare(order, h));
  }

  lemma SyncOnePrepared(s: Store, p: Prepared)
    ensures var d := Decide(Snapshot(s), p);
      && (d.Insert? ==> SyncPrepared(s, [p]) == (s[d.id := d.row], (1, 0)))
      && (d.Update? ==> SyncPrepared(s, [p]) == (s[d.id := d.row], (0, 1)))
      && (d.Skip? || d.Fail? ==> SyncPrepared(s, [p]) == (s, (0, 0)))
  {
    var d := Decide(Snapshot(s), p);
    PlanOne(Snapshot(s), p);
    if d.Insert? {
      InsertOne(s, d.id, d.row);
    } else if d.Update? {
      UpdateOne(s, d.id, d.row);
    }
  }

  /** The plan of a batch of one payload. */
  lemma PlanOne(snap: map<int, Digest>, p: Prepared)
    ensures var d := Decide(snap, p);
      && (d.Insert? ==> PlanBatch(snap, [p]) == Some(Plan([(d.id, d.row)], [])))
      && (d.Update? ==> PlanBatch(snap, [p]) == Some(Plan([], [(d.id, d.row)])))
      && (d.Skip? ==> PlanBatch(snap, [p]) == Some(Plan([], [])))
      && (d.Fail? ==> PlanBatch(snap, [p]) == None)
  {
    assert [p][..0] == [];
    assert PlanBatch(snap, [p][..0]) == Some(Plan([], []));
    var d := Decide(snap, p);
    if d.Insert? || d.Update? {
      assert [] + [(d.id, d.row)] == [(d.id, d.row)];
    }
  }

  /** Inserting one row under an absent key. */
  lemma InsertOne(s: Store, k: int, r: Row)
    requires k !in s
    ensures ApplyInserts(s, [(k, r)]) == Some(s[k := r])
  {
    assert [(k, r)][..0] == [];
  }

  /** Updating one row under a present key. */
  lemma UpdateOne(s: Store, k: int, r: Row)
    requires k in s
    ensures ApplyUpdates(s, [(k, r)]) == s[k := r]
  {
    assert [(k, r)][..0] == [];
  }

  /** The call commits. */
  predicate Commits(s: Store, batch: seq<Prepared>) {
    var snap := Snapshot(s);
    PlanBatch(snap, batch).Some? && FreshKeys(s, WritesOf(snap, batch, Inserting))
  }

  /** The writes of a committed call: the inserts, then the updates. */
  function AllWrites(s: Store, batch: seq<Prepared>): seq<(int, Row)> {
    var snap := Snapshot(s);
    WritesOf(snap, batch, Inserting) + WritesOf(snap, batch, Updating)
  }

  /** A committed call writes all its inserts and updates in batch order and
      reports how many of each it wrote; a failed one changes nothing. */
  lemma SyncResult(s: Store, batch: seq<Prepared>)
    ensures Commits(s, batch) ==>
      SyncPrepared(s, batch) == (Put(s, AllWrites(s, batch)),
        (|WritesOf(Snapshot(s), batch, Inserting)|, |WritesOf(Snapshot(s), batch, Updating)|))
    ensures !Commits(s, batch) ==> SyncPrepared(s, batch) == (s, (0, 0))
  {
    var snap := Snapshot(s);
    if PlanBatch(snap, batch).Some? {
      PlanShape(snap, batch);
      var ins := WritesOf(snap, batch, Inserting);
      var ups := WritesOf(snap, batch, Updating);
      InsertsResult(s, ins);
      if FreshKeys(s, ins) {
        PutKeys(s, ins);
        forall a | 0 <= a < |ups|
          ensures ups[a].0 in Put(s, ins)
        {
          WritesFrom(snap, batch, Updating, a);
        }
        UpdatesResult(Put(s, ins), ups);
        PutConcat(s, ins, ups);
      }
    }
  }

  /** Every write of a call is some payload's decision, under that payload's id. */
  lemma AllWritesFrom(s: Store, batch: seq<Prepared>, a: int)
    requires 0 <= a < |AllWrites(s, batch)|
    ensures exists i :: (0 <= i < |batch| && batch[i].id == JInt(AllWrites(s, batch)[a].0) &&
      (Decide(Snapshot(s), batch[i]) == Insert(AllWrites(s, batch)[a].0, AllWrites(s, batch)[a].1) ||
       Decide(Snapshot(s), batch[i]) == Update(AllWrites(s, batch)[a].0, AllWrites(s, batch)[a].1)))
  {
    var snap := Snapshot(s);
    var ins := WritesOf(snap, batch, Inserting);
    if a < |ins| {
      WritesFrom(snap, batch, Inserting, a);
    } else {
      WritesFrom(snap, batch, Updating, a - |ins|);
    }
  }

  /** A failing payload rolls the whole batch back. */
  lemma FailingAborts(s: Store, batch: seq<Prepared>, i: int)
    requires 0 <= i < |batch| && Decide(Snapshot(s), batch[i]) == Fail
    ensures SyncPrepared(s, batch) == (s, (0, 0))
  {
    PlanFails(Snapshot(s), batch, i);
  }

  /** A payload whose total float() rejects rolls the whole batch back:
      nothing is written and (0, 0) is returned. */
  lemma BadTotalAborts(s: Store, batch: seq<Dict>, h: Hasher, i: int)
    requires 0 <= i < |batch| && ToFloat(Get(batch[i], "total", JInt(0))).Err?
    ensures SyncSpec(s, batch, h) == (s, (0, 0))
  {
    var ps := PrepareAll(batch, h);
    ExtractSucceeds(batch[i], OrderHash(h, batch[i]));
    assert ps[i].row.Err?;
    FailingAborts(s, ps, i);
  }

  /** A payload with no id, or a null one, violates NOT NULL and rolls the
      whole batch back. */
  lemma MissingIdAborts(s: Store, batch: seq<Dict>, h: Hasher, i: int)
    requires 0 <= i < |batch| && IdOf(batch[i]) == JNull
    ensures SyncSpec(s, batch, h) == (s, (0, 0))
  {
    var ps := PrepareAll(batch, h);
    assert ps[i].id == JNull;
    FailingAborts(s, ps, i);
  }

  /** Two payloads carrying the same new id are two inserts of one key: the
      UNIQUE constraint aborts the transaction and nothing is written. */
  lemma DuplicateNewIdAborts(s: Store, batch: seq<Dict>, h: Hasher, i: int, j: int, k: int)
    requires 0 <= i < j < |batch|
    requires IdOf(batch[i]) == JInt(k) && IdOf(batch[j]) == JInt(k) && k !in s
    ensures SyncSpec(s, batch, h) == (s, (0, 0))
  {
    var ps := PrepareAll(batch, h);
    assert ps[i].id == JInt(k) && ps[j].id == JInt(k);
    DuplicateAborts(s, ps, i, j, k);
  }

  lemma DuplicateAborts(s: Store, batch: seq<Prepared>, i: int, j: int, k: int)
    requires 0 <= i < j < |batch|
    requires batch[i].id == JInt(k) && batch[j].id == JInt(k) && k !in s
    ensures SyncPrepared(s, batch) == (s, (0, 0))
  {
    var snap := Snapshot(s);
    SyncResult(s, batch);
    if Commits(s, batch) {
      PlanShape(snap, batch);
      assert Decide(snap, batch[i]).Insert? && Decide(snap, batch[j]).Insert?;
      var a, b := WritesTwice(snap, batch, Inserting, i, j, k);
      assert false;
    }
  }

  /** Rows the batch does not name, and rows named only by payloads whose
      fingerprint equals the stored one, are left exactly as they were. */
  lemma Untouched(s: Store, batch: seq<Dict>, h: Hasher, k: int)
    requires forall i :: 0 <= i < |batch| && IdOf(batch[i]) == JInt(k) ==>
      k in s && OrderHash(h, batch[i]) == s[k].hashSignature
    ensures var r := SyncSpec(s, batch, h).0;
      (k in r <==> k in s) && (k in s ==> r[k] == s[k])
  {
    var ps := PrepareAll(batch, h);
    UntouchedPrepared(s, ps, k);
  }

  lemma UntouchedPrepared(s: Store, batch: seq<Prepared>, k: int)
    requires forall i :: 0 <= i < |batch| && batch[i].id == JInt(k) ==>
      k in s && batch[i].hash == s[k].hashSignature
    ensures var r := SyncPrepared(s, batch).0;
      (k in r <==> k in s) && (k in s ==> r[k] == s[k])
  {
    SyncResult(s, batch);
    if Commits(s, batch) {
      var w := AllWrites(s, batch);
      forall a | 0 <= a < |w|
        ensures w[a].0 != k
      {
        AllWritesFrom(s, batch, a);
      }
      PutAbsent(s, w, k);
    }
  }

  /** A committed call with distinct ids stores, under the id of every
      payload, a row carrying that payload's fingerprint. */
  lemma CommittedHashes(s: Store, batch: seq<Prepared>, i: int)
    requires Commits(s, batch) && DistinctPrepared(batch)
    requires forall j :: 0 <= j < |batch| ==> Consistent(batch[j])
    requires 0 <= i < |batch|
    ensures batch[i].id.JInt?
    ensures var r := SyncPrepared(s, batch).0;
      batch[i].id.i in r && r[batch[i].id.i].hashSignature == batch[i].hash
  {
    var snap := Snapshot(s);
    PlanShape(snap, batch);
    SyncResult(s, batch);
    var d := Decide(snap, batch[i]);
    var k := batch[i].id.i;
    var w := AllWrites(s, batch);
    WritesUnderId(s, batch, i);
    if d.Insert? || d.Update? {
      var a := WrittenUnderId(s, batch, i);
      PutOnly(s, w, k, d.row);
    } else {
      PutAbsent(s, w, k);
    }
  }

  /** With distinct ids, every write under the key of a payload is that
      payload's own write. */
  lemma WritesUnderId(s: Store, batch: seq<Prepared>, i: int)
    requires DistinctPrepared(batch) && 0 <= i < |batch| && batch[i].id.JInt?
    ensures var d := Decide(Snapshot(s), batch[i]);
      var w := AllWrites(s, batch);
      forall a :: 0 <= a < |w| && w[a].0 == batch[i].id.i ==> (d.Insert? || d.Update?) && w[a] == (d.id, d.row)
  {
    var snap := Snapshot(s);
    var d := Decide(snap, batch[i]);
    var w := AllWrites(s, batch);
    forall a | 0 <= a < |w| && w[a].0 == batch[i].id.i
      ensures (d.Insert? || d.Update?) && w[a] == (d.id, d.row)
    {
      AllWritesFrom(s, batch, a);
      var j :| 0 <= j < |batch| && batch[j].id == JInt(w[a].0) &&
        (Decide(snap, batch[j]) == Insert(w[a].0, w[a].1) || Decide(snap, batch[j]) == Update(w[a].0, w[a].1));
      assert j == i;
    }
  }

  /** A payload decided to be written has its write among the call's writes. */
  lemma WrittenUnderId(s: Store, batch: seq<Prepared>, i: int) returns (a: int)
    requires 0 <= i < |batch|
    requires Decide(Snapshot(s), batch[i]).Insert? || Decide(Snapshot(s), batch[i]).Update?
    ensures 0 <= a < |AllWrites(s, batch)|
    ensures AllWrites(s, batch)[a] == (Decide(Snapshot(s), batch[i]).id, Decide(Snapshot(s), batch[i]).row)
  {
    var snap := Snapshot(s);
    var d := Decide(snap, batch[i]);
    var ins := WritesOf(snap, batch, Inserting);
    var kind := if d.Insert? then Inserting else Updating;
    WritesHas(snap, batch, kind, i);
    var b :| 0 <= b < |WritesOf(snap, batch, kind)| && WritesOf(snap, batch, kind)[b] == (d.id, d.row);
    a := if d.Insert? then b else |ins| + b;
  }

  /** Idempotence: once a batch with distinct ids has committed, syncing the
      same batch again reports (0, 0) and changes nothing, because every
      stored fingerprint now equals the recomputed one. */
  lemma SyncIdempotent(s: Store, batch: seq<Dict>, h: Hasher)
    requires Commits(s, PrepareAll(batch, h)) && DistinctIds(batch)
    ensures var r := SyncSpec(s, batch, h).0;
      SyncSpec(r, batch, h) == (r, (0, 0))
  {
    var ps := PrepareAll(batch, h);
    assert DistinctPrepared(ps);
    IdempotentPrepared(s, ps);
  }

  lemma IdempotentPrepared(s: Store, batch: seq<Prepared>)
    requires Commits(s, batch) && DistinctPrepared(batch)
    requires forall j :: 0 <= j < |batch| ==> Consistent(batch[j])
    ensures var r := SyncPrepared(s, batch).0;
      SyncPrepared(r, batch) == (r, (0, 0))
  {
    var r := SyncPrepared(s, batch).0;
    var snap := Snapshot(s);
    var snap2 := Snapshot(r);
    PlanShape(snap, batch);
    forall i | 0 <= i < |batch|
      ensures Decide(snap2, batch[i]) == Skip
    {
      CommittedHashes(s, batch, i);
      assert Decide(snap, batch[i]) != Fail;
    }
    PlanAllSkip(snap2, batch);
  }

  /** A committed call grows the table by exactly the number of inserts it reports. */
  lemma SyncGrowth(s: Store, batch: seq<Dict>, h: Hasher)
    requires Commits(s, PrepareAll(batch, h))
    ensures |SyncSpec(s, batch, h).0| == |s| + SyncSpec(s, batch, h).1.0
  {
    GrowthPrepared(s, PrepareAll(batch, h));
  }

  lemma GrowthPrepared(s: Store, batch: seq<Prepared>)
    requires Commits(s, batch)
    ensures |SyncPrepared(s, batch).0| == |s| + SyncPrepared(s, batch).1.0
  {
    var snap := Snapshot(s);
    var ins := WritesOf(snap, batch, Inserting);
    var ups := WritesOf(snap, batch, Updating);
    SyncResult(s, batch);
    PutConcat(s, ins, ups);
    FreshGrowth(s, ins);
    var s1 := Put(s, ins);
    PutKeys(s, ins);
    PutKeys(s1, ups);
    forall a | 0 <= a < |ups|
      ensures ups[a].0 in s
    {
      WritesFrom(snap, batch, Updating, a);
    }
    assert Put(s1, ups).Keys == s1.Keys;
  }

  /** Writing fresh keys adds one row per write. */
  lemma {:induction false} FreshGrowth(s: Store, ins: seq<(int, Row)>)
    requires FreshKeys(s, ins)
    ensures |Put(s, ins)| == |s| + |ins|
    decreases |ins|
  {
    if ins != [] {
      var pre := ins[..|ins| - 1];
      assert forall a :: 0 <= a < |pre| ==> pre[a] == ins[a];
      FreshGrowth(s, pre);
      PutKeys(s, pre);
      assert ins[|ins| - 1].0 !in Put(s, pre);
    }
  }

  /** The call keeps the table valid. */
  lemma SyncValid(s: Store, batch: seq<Dict>, h: Hasher)
    requires ValidStore(s)
    ensures ValidStore(SyncSpec(s, batch, h).0)
  {
    var ps := PrepareAll(batch, h);
    ValidPrepared(s, ps);
  }

  lemma ValidPrepared(s: Store, batch: seq<Prepared>)
    requires ValidStore(s)
    requires forall j :: 0 <= j < |batch| ==> Consistent(batch[j])
    ensures ValidStore(SyncPrepared(s, batch).0)
  {
    SyncResult(s, batch);
    if Commits(s, batch) {
      var w := AllWrites(s, batch);
      forall a | 0 <= a < |w|
        ensures w[a].1.wooId == JInt(w[a].0) && Bindable(w[a].1)
      {
        AllWritesFrom(s, batch, a);
      }
      PutValid(s, w);
    }
  }
}
