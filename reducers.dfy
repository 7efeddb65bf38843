/**
 * The per-date, per-category count accumulator behind the stacked time
 * histogram, as values: the zeroed table, the add and remove reducers,
 * and what any sequence of their calls leaves in an accumulator.
 */
module Reducers {
  import opened Sums
  import opened Media

  /** A JavaScript number as the counters can hold it: an integer or NaN. */
  datatype Number = Num(n: int) | NaN

  /** A property read: `None` is JavaScript's `undefined`. */
  datatype Option<T> = None | Some(value: T)

  /** An accumulator: a plain object from category shortname to a number. */
  type Accumulator = map<string, Number>

  /** `p[key]`: undefined when the object has no such key. */
  function Read(p: Accumulator, key: string): Option<Number>
  {
    if key in p then Some(p[key]) else None
  }

  /** `x + 1`, as `x++` computes it: undefined and NaN both give NaN. */
  function Inc(x: Option<Number>): Number
  {
    match x
    case Some(Num(n)) => Num(n + 1)
    case _ => NaN
  }

  /** `x - 1`, as `x--` computes it: undefined and NaN both give NaN. */
  function Dec(x: Option<Number>): Number
  {
    match x
    case Some(Num(n)) => Num(n - 1)
    case _ => NaN
  }

  /** `x + k` for a stored number. */
  function Shift(x: Number, k: int): Number
  {
    match x
    case Num(n) => Num(n + k)
    case NaN => NaN
  }

  /** The shortnames of a list of categories. */
  function Shortnames(groups: seq<Category>): set<string>
  {
    set c | c in groups :: c.shortname
  }

  /**
   * The table the category loop builds: one key per category shortname,
   * each set to 0. Later categories with an already present shortname
   * assign 0 again.
   */
  function Zeroed(groups: seq<Category>): (m: Accumulator)
    ensures m.Keys == Shortnames(groups)
    ensures forall s :: s in m ==> m[s] == Num(0)
  {
    if groups == [] then map[]
    else
      var last := groups[|groups| - 1];
      assert groups == groups[..|groups| - 1] + [last];
      Zeroed(groups[..|groups| - 1])[last.shortname := Num(0)]
  }

  /** One more category sets one more shortname to 0. */
  lemma ZeroedStep(groups: seq<Category>, i: nat)
    requires i < |groups|
    ensures Zeroed(groups[..i + 1]) == Zeroed(groups[..i])[groups[i].shortname := Num(0)]
  {
    assert groups[..i + 1][..i] == groups[..i];
  }

  /**
   * The add reducer: the entry under the record's shortname goes up by
   * one; a missing entry becomes NaN; nothing else changes.
   */
  function Add(p: Accumulator, v: MediaRecord): (r: Accumulator)
    ensures r.Keys == p.Keys + {v.category.shortname}
    ensures v.category.shortname in p && p[v.category.shortname].Num? ==>
              r[v.category.shortname] == Num(p[v.category.shortname].n + 1)
    ensures v.category.shortname !in p || p[v.category.shortname].NaN? ==>
              r[v.category.shortname] == NaN
    ensures forall s :: s in p && s != v.category.shortname ==> r[s] == p[s]
  {
    p[v.category.shortname := Inc(Read(p, v.category.shortname))]
  }

  /**
   * The remove reducer: the entry under the record's shortname goes down
   * by one; a missing entry becomes NaN; nothing else changes.
   */
  function Remove(p: Accumulator, v: MediaRecord): (r: Accumulator)
    ensures r.Keys == p.Keys + {v.category.shortname}
    ensures v.category.shortname in p && p[v.category.shortname].Num? ==>
              r[v.category.shortname] == Num(p[v.category.shortname].n - 1)
    ensures v.category.shortname !in p || p[v.category.shortname].NaN? ==>
              r[v.category.shortname] == NaN
    ensures forall s :: s in p && s != v.category.shortname ==> r[s] == p[s]
  {
    p[v.category.shortname := Dec(Read(p, v.category.shortname))]
  }

  /** Adding then removing the same record restores an accumulator that has its key. */
  lemma AddThenRemove(p: Accumulator, v: MediaRecord)
    requires v.category.shortname in p
    ensures Remove(Add(p, v), v) == p
  {
  }

  /** Removing then adding the same record restores an accumulator that has its key. */
  lemma RemoveThenAdd(p: Accumulator, v: MediaRecord)
    requires v.category.shortname in p
    ensures Add(Remove(p, v), v) == p
  {
  }

  /**
   * Without the key neither round trip restores the accumulator: it gains
   * the key, holding NaN.
   */
  lemma AddWithoutKeyGivesNaN(p: Accumulator, v: MediaRecord)
    requires v.category.shortname !in p
    ensures Remove(Add(p, v), v) == p[v.category.shortname := NaN]
    ensures Remove(Add(p, v), v) != p
    ensures Add(Remove(p, v), v) == p[v.category.shortname := NaN]
    ensures Add(Remove(p, v), v) != p
  {
  }

  /** One reducer call, as the grouping library issues it. */
  datatype Op = Added(record: MediaRecord) | Removed(record: MediaRecord)

  function Apply(p: Accumulator, op: Op): Accumulator
  {
    match op
    case Added(v) => Add(p, v)
    case Removed(v) => Remove(p, v)
  }

  /** The accumulator after the reducer calls `ops`, in order. */
  function Replay(p: Accumulator, ops: seq<Op>): Accumulator
    decreases ops
  {
    if ops == [] then p else Replay(Apply(p, ops[0]), ops[1..])
  }

  /** The contribution of one call to the entry `s`. */
  function Delta(s: string): Op -> int
  {
    (op: Op) => if op.record.category.shortname != s then 0 else if op.Added? then 1 else -1
  }

  /** Adds minus removes of records with shortname `s`. */
  function Net(ops: seq<Op>, s: string): int
  {
    Sum(ops, Delta(s))
  }

  /** The shortnames that some call in `ops` touches. */
  function Touched(ops: seq<Op>): set<string>
  {
    set op | op in ops :: op.record.category.shortname
  }

  /** The shortnames a nonempty call sequence touches: its first call's, and the rest's. */
  lemma TouchedFirst(ops: seq<Op>)
    requires ops != []
    ensures Touched(ops) == {ops[0].record.category.shortname} + Touched(ops[1..])
  {
    assert ops == [ops[0]] + ops[1..];
    assert forall o :: o in ops <==> o == ops[0] || o in ops[1..];
  }

  /** What one call does to each entry. */
  lemma ApplyEntries(p: Accumulator, op: Op)
    ensures Apply(p, op).Keys == p.Keys + {op.record.category.shortname}
    ensures forall s :: s in p ==> Apply(p, op)[s] == Shift(p[s], Delta(s)(op))
    ensures op.record.category.shortname !in p ==> Apply(p, op)[op.record.category.shortname] == NaN
  {
  }

  /** The keys after a sequence of calls: the old ones and the touched ones. */
  lemma {:induction false} ReplayKeys(p: Accumulator, ops: seq<Op>)
    ensures Replay(p, ops).Keys == p.Keys + Touched(ops)
    decreases ops
  {
    if ops == [] {
      assert Touched(ops) == {};
    } else {
      ApplyEntries(p, ops[0]);
      ReplayKeys(Apply(p, ops[0]), ops[1..]);
      TouchedFirst(ops);
    }
  }

  /** An entry present before a sequence of calls moves by its net count. */
  lemma {:induction false} ReplayPresent(p: Accumulator, ops: seq<Op>, s: string)
    requires s in p
    ensures s in Replay(p, ops) && Replay(p, ops)[s] == Shift(p[s], Net(ops, s))
    decreases ops
  {
    if ops == [] {
      assert Net(ops, s) == 0;
    } else {
      ApplyEntries(p, ops[0]);
      ReplayPresent(Apply(p, ops[0]), ops[1..], s);
      assert Net(ops, s) == Delta(s)(ops[0]) + Net(ops[1..], s);
    }
  }

  /** A missing entry that some call touches ends as NaN. */
  lemma {:induction false} ReplayMissing(p: Accumulator, ops: seq<Op>, s: string)
    requires s !in p && s in Touched(ops)
    ensures s in Replay(p, ops) && Replay(p, ops)[s] == NaN
    decreases ops
  {
    TouchedFirst(ops);
    var q := Apply(p, ops[0]);
    ApplyEntries(p, ops[0]);
    if s == ops[0].record.category.shortname {
      ReplayPresent(q, ops[1..], s);
    } else {
      ReplayMissing(q, ops[1..], s);
    }
  }

  /**
   * What a sequence of calls leaves: the keys gained are exactly those
   * touched; a key already present moves by its net count; a key that
   * was missing holds NaN.
   */
  lemma ReplayEntries(p: Accumulator, ops: seq<Op>)
    ensures Replay(p, ops).Keys == p.Keys + Touched(ops)
    ensures forall s :: s in p ==> Replay(p, ops)[s] == Shift(p[s], Net(ops, s))
    ensures forall s :: s in Touched(ops) && s !in p ==> Replay(p, ops)[s] == NaN
  {
    ReplayKeys(p, ops);
    forall s | s in p
      ensures Replay(p, ops)[s] == Shift(p[s], Net(ops, s))
    {
      ReplayPresent(p, ops, s);
    }
    forall s | s in Touched(ops) && s !in p
      ensures Replay(p, ops)[s] == NaN
    {
      ReplayMissing(p, ops, s);
    }
  }

  /**
   * Order independence: any reordering of the same reducer calls leaves
   * the same accumulator.
   */
  lemma ReplayOrderIndependent(p: Accumulator, ops1: seq<Op>, ops2: seq<Op>)
    requires multiset(ops1) == multiset(ops2)
    ensures Replay(p, ops1) == Replay(p, ops2)
  {
    ReplayEntries(p, ops1);
    ReplayEntries(p, ops2);
    assert Touched(ops1) == Touched(ops2) by {
      forall o ensures o in ops1 <==> o in ops2 {
        assert o in ops1 <==> o in multiset(ops1);
        assert o in ops2 <==> o in multiset(ops2);
      }
    }
    forall s | s in p
      ensures Net(ops1, s) == Net(ops2, s)
    {
      SumPermutation(ops1, ops2, Delta(s));
    }
  }

  /** The records of the add calls in `ops`. */
  function Adds(ops: seq<Op>): seq<MediaRecord>
  {
    if ops == [] then []
    else (if ops[0].Added? then [ops[0].record] else []) + Adds(ops[1..])
  }

  /** The records of the remove calls in `ops`. */
  function Removes(ops: seq<Op>): seq<MediaRecord>
  {
    if ops == [] then []
    else (if ops[0].Removed? then [ops[0].record] else []) + Removes(ops[1..])
  }

  /** `ops` adds every record of `batch` once more than it removes it. */
  predicate NetsTo(ops: seq<Op>, batch: seq<MediaRecord>)
  {
    multiset(Adds(ops)) == multiset(Removes(ops)) + multiset(batch)
  }

  /** One add call per record of `batch`, in order. */
  function AddAll(batch: seq<MediaRecord>): seq<Op>
  {
    if batch == [] then [] else [Added(batch[0])] + AddAll(batch[1..])
  }

  function Tally(s: string): MediaRecord -> int
  {
    (v: MediaRecord) => if v.category.shortname == s then 1 else 0
  }

  /** The number of records in `batch` whose category shortname is `s`. */
  function Count(batch: seq<MediaRecord>, s: string): int
  {
    Sum(batch, Tally(s))
  }

  /**
   * The batch recount the incremental accumulator must agree with: for
   * every category shortname, the number of records carrying it.
   */
  function Recount(groups: seq<Category>, batch: seq<MediaRecord>): Accumulator
  {
    map s | s in Shortnames(groups) :: Num(Count(batch, s))
  }

  lemma {:induction false} NetIsAddsMinusRemoves(ops: seq<Op>, s: string)
    ensures Net(ops, s) == Count(Adds(ops), s) - Count(Removes(ops), s)
  {
    if ops != [] {
      var op, rest := ops[0], ops[1..];
      NetIsAddsMinusRemoves(rest, s);
      var a := if op.Added? then [op.record] else [];
      var r := if op.Removed? then [op.record] else [];
      SumAppend(a, Adds(rest), Tally(s));
      SumAppend(r, Removes(rest), Tally(s));
      assert Sum([op.record], Tally(s)) == Tally(s)(op.record) by {
        assert [op.record][1..] == [];
      }
    }
  }

  /**
   * Incremental maintenance equals a batch recount: starting from the
   * zeroed table, any sequence of add and remove calls that nets to
   * `batch` leaves, for every shortname, the number of records of
   * `batch` carrying it.
   */
  lemma IncrementalEqualsBatch(groups: seq<Category>, ops: seq<Op>, batch: seq<MediaRecord>)
    requires NetsTo(ops, batch)
    requires Touched(ops) <= Shortnames(groups)
    ensures Replay(Zeroed(groups), ops) == Recount(groups, batch)
  {
    var z := Zeroed(groups);
    var r := Replay(z, ops);
    ReplayEntries(z, ops);
    assert r.Keys == Recount(groups, batch).Keys;
    forall s | s in z
      ensures r[s] == Recount(groups, batch)[s]
    {
      NetCountsBatch(ops, batch, s);
    }
  }

  /** A sequence of calls netting to `batch` moves each entry by the batch's count. */
  lemma NetCountsBatch(ops: seq<Op>, batch: seq<MediaRecord>, s: string)
    requires NetsTo(ops, batch)
    ensures Net(ops, s) == Count(batch, s)
  {
    NetIsAddsMinusRemoves(ops, s);
    assert multiset(Adds(ops)) == multiset(Removes(ops) + batch);
    SumPermutation(Adds(ops), Removes(ops) + batch, Tally(s));
    SumAppend(Removes(ops), batch, Tally(s));
  }

  lemma {:induction false} AddAllParts(batch: seq<MediaRecord>)
    ensures Adds(AddAll(batch)) == batch
    ensures Removes(AddAll(batch)) == []
    ensures Touched(AddAll(batch)) == set v | v in batch :: v.category.shortname
  {
    if batch != [] {
      AddAllParts(batch[1..]);
      var ops := AddAll(batch);
      assert ops[1..] == AddAll(batch[1..]);
      TouchedFirst(ops);
      assert batch == [batch[0]] + batch[1..];
      assert forall v :: v in batch <==> v == batch[0] || v in batch[1..];
    }
  }

  /**
   * Adding every record of a batch to the zeroed table counts the batch,
   * when every record's shortname has a zeroed entry.
   */
  lemma BatchRecount(groups: seq<Category>, batch: seq<MediaRecord>)
    requires forall v :: v in batch ==> v.category.shortname in Shortnames(groups)
    ensures Replay(Zeroed(groups), AddAll(batch)) == Recount(groups, batch)
  {
    AddAllParts(batch);
    assert multiset(Adds(AddAll(batch))) == multiset(Removes(AddAll(batch))) + multiset(batch);
    IncrementalEqualsBatch(groups, AddAll(batch), batch);
  }
}
