/**
 * How the stacked time histogram reads the accumulators: the first
 * category is the chart's base group, every later one a stacked layer,
 * and each series reads its category's entry of a date's accumulator.
 */
module Stacking {
  import opened Sums
  import opened Media
  import opened Reducers

  /**
   * A series of the chart: the base group, or a stacked layer with a
   * name. Either one reads `d.value[key]` from a date's accumulator.
   */
  datatype Series = Base(key: string) | Layer(name: string, key: string)

  /** The series the category at position `index` contributes (`!!index`). */
  function SeriesFor(group: Category, index: nat): Series
  {
    if index != 0 then Layer(group.shortname, group.shortname) else Base(group.shortname)
  }

  /**
   * The series built by walking the category group's keys in order: one
   * per category, the first the base and the rest layers named by their
   * shortnames, each reading its own category's entry.
   */
  function Layering(groups: seq<Category>): (r: seq<Series>)
    ensures |r| == |groups|
    ensures forall i :: 0 <= i < |r| ==> r[i].key == groups[i].shortname
    ensures forall i :: 0 <= i < |r| ==> (r[i].Base? <==> i == 0)
    ensures forall i :: 0 < i < |r| ==> r[i].name == groups[i].shortname
  {
    if groups == [] then []
    else Layering(groups[..|groups| - 1]) + [SeriesFor(groups[|groups| - 1], |groups| - 1)]
  }

  /** The value accessor: `d.value[key]` for the series' key. */
  function ValueAt(series: Series, acc: Accumulator): Option<Number>
  {
    Read(acc, series.key)
  }

  /**
   * The entry of a category's shortname, after reducer calls that net to
   * `batch`, whatever other shortnames the calls touch.
   */
  lemma SeriesEntry(groups: seq<Category>, ops: seq<Op>, batch: seq<MediaRecord>, i: nat)
    requires NetsTo(ops, batch)
    requires i < |groups|
    ensures Read(Replay(Zeroed(groups), ops), groups[i].shortname)
            == Some(Num(Count(batch, groups[i].shortname)))
  {
    assert groups[i] in groups;
    ReplayPresent(Zeroed(groups), ops, groups[i].shortname);
    NetCountsBatch(ops, batch, groups[i].shortname);
  }

  /**
   * Each series, at a date whose reducer calls net to `batch`, shows the
   * number of that date's records whose category shortname is the
   * series' shortname. Calls on shortnames no category carries only add
   * NaN entries that no series reads.
   */
  lemma LayerShowsCount(groups: seq<Category>, ops: seq<Op>, batch: seq<MediaRecord>, i: nat)
    requires NetsTo(ops, batch)
    requires i < |groups|
    ensures ValueAt(Layering(groups)[i], Replay(Zeroed(groups), ops))
            == Some(Num(Count(batch, groups[i].shortname)))
  {
    SeriesEntry(groups, ops, batch, i);
  }

  /** `y0 + y`: undefined or NaN on either side gives NaN. */
  function Plus(x: Number, y: Option<Number>): Number
  {
    match (x, y)
    case (Num(a), Some(Num(b))) => Num(a + b)
    case _ => NaN
  }

  /** The top of a stacked bar: the sum of its series' values. */
  function StackTop(series: seq<Series>, acc: Accumulator): Number
  {
    if series == [] then Num(0)
    else Plus(StackTop(series[..|series| - 1], acc), ValueAt(series[|series| - 1], acc))
  }

  /** The sum, over the categories of `groups`, of their counts in `batch`. */
  function LayerTotal(groups: seq<Category>, batch: seq<MediaRecord>): int
  {
    if groups == [] then 0
    else LayerTotal(groups[..|groups| - 1], batch) + Count(batch, groups[|groups| - 1].shortname)
  }

  /** How many categories of `groups` have shortname `s`. */
  function Occurrences(groups: seq<Category>, s: string): nat
  {
    if groups == [] then 0
    else Occurrences(groups[..|groups| - 1], s) + (if groups[|groups| - 1].shortname == s then 1 else 0)
  }

  /** No two categories of `groups` share a shortname. */
  predicate DistinctShortnames(groups: seq<Category>)
  {
    forall i, j :: 0 <= i < j < |groups| ==> groups[i].shortname != groups[j].shortname
  }

  lemma {:induction false} StackTopIsLayerTotal(groups: seq<Category>, acc: Accumulator, batch: seq<MediaRecord>)
    requires forall i :: 0 <= i < |groups| ==>
               Read(acc, groups[i].shortname) == Some(Num(Count(batch, groups[i].shortname)))
    ensures StackTop(Layering(groups), acc) == Num(LayerTotal(groups, batch))
  {
    if groups != [] {
      var n := |groups|;
      var front, last := groups[..n - 1], groups[n - 1];
      forall i | 0 <= i < |front|
        ensures Read(acc, front[i].shortname) == Some(Num(Count(batch, front[i].shortname)))
      {
        assert front[i] == groups[i];
      }
      StackTopIsLayerTotal(front, acc, batch);
      var series := Layering(groups);
      assert series == Layering(front) + [SeriesFor(last, n - 1)];
      assert series[..n - 1] == Layering(front);
      assert ValueAt(series[n - 1], acc) == Some(Num(Count(batch, last.shortname)));
    }
  }

  lemma {:induction false} OccurrencesAbsent(groups: seq<Category>, s: string)
    requires s !in Shortnames(groups)
    ensures Occurrences(groups, s) == 0
  {
    if groups != [] {
      var front := groups[..|groups| - 1];
      assert groups[|groups| - 1] in groups;
      assert Shortnames(front) <= Shortnames(groups) by {
        assert forall c :: c in front ==> c in groups;
      }
      OccurrencesAbsent(front, s);
    }
  }

  /** The shortnames of a nonempty list: those of its front, and its last one's. */
  lemma ShortnamesSplit(groups: seq<Category>)
    requires groups != []
    ensures Shortnames(groups)
            == Shortnames(groups[..|groups| - 1]) + {groups[|groups| - 1].shortname}
  {
    assert groups == groups[..|groups| - 1] + [groups[|groups| - 1]];
  }

  lemma {:induction false} OccurrencesUnique(groups: seq<Category>, s: string)
    requires DistinctShortnames(groups)
    requires s in Shortnames(groups)
    ensures Occurrences(groups, s) == 1
  {
    var n := |groups|;
    var front := groups[..n - 1];
    var last := groups[n - 1];
    ShortnamesSplit(groups);
    assert DistinctShortnames(front) by {
      forall i, j | 0 <= i < j < |front|
        ensures front[i].shortname != front[j].shortname
      {
        assert front[i] == groups[i] && front[j] == groups[j];
      }
    }
    if last.shortname == s {
      assert s !in Shortnames(front) by {
        forall c | c in front
          ensures c.shortname != s
        {
          var i :| 0 <= i < n - 1 && front[i] == c;
          assert groups[i] == c;
        }
      }
      OccurrencesAbsent(front, s);
    } else {
      OccurrencesUnique(front, s);
    }
  }

  /** One more record adds one to the total of every category carrying its shortname. */
  lemma {:induction false} LayerTotalStep(groups: seq<Category>, batch: seq<MediaRecord>)
    requires batch != []
    ensures LayerTotal(groups, batch)
            == LayerTotal(groups, batch[1..]) + Occurrences(groups, batch[0].category.shortname)
  {
    if groups != [] {
      LayerTotalStep(groups[..|groups| - 1], batch);
    }
  }

  /**
   * When the categories have distinct shortnames and cover every record,
   * the layers partition the records: their counts add up to the number
   * of records.
   */
  lemma {:induction false} LayerTotalIsSize(groups: seq<Category>, batch: seq<MediaRecord>)
    requires DistinctShortnames(groups)
    requires forall v :: v in batch ==> v.category.shortname in Shortnames(groups)
    ensures LayerTotal(groups, batch) == |batch|
  {
    if batch == [] {
      LayerTotalEmpty(groups);
    } else {
      assert batch[0] in batch;
      assert forall v :: v in batch[1..] ==> v in batch;
      LayerTotalIsSize(groups, batch[1..]);
      LayerTotalStep(groups, batch);
      OccurrencesUnique(groups, batch[0].category.shortname);
    }
  }

  lemma {:induction false} LayerTotalEmpty(groups: seq<Category>)
    ensures LayerTotal(groups, []) == 0
  {
    if groups != [] {
      LayerTotalEmpty(groups[..|groups| - 1]);
    }
  }

  /**
   * The stacked bar of a date shows the number of that date's records,
   * when the categories have distinct shortnames and cover every record.
   */
  lemma StackTopCountsRecords(groups: seq<Category>, ops: seq<Op>, batch: seq<MediaRecord>)
    requires DistinctShortnames(groups)
    requires NetsTo(ops, batch)
    requires forall v :: v in batch ==> v.category.shortname in Shortnames(groups)
    ensures StackTop(Layering(groups), Replay(Zeroed(groups), ops)) == Num(|batch|)
  {
    StackTopCountsCopies(groups, ops, batch);
    LayerTotalIsStackedCopies(groups, batch);
    LayerTotalIsSize(groups, batch);
  }

  /** The number of series that stack each record of `batch`, summed over the records. */
  function StackedCopies(groups: seq<Category>, batch: seq<MediaRecord>): int
  {
    if batch == [] then 0
    else Occurrences(groups, batch[0].category.shortname) + StackedCopies(groups, batch[1..])
  }

  lemma {:induction false} LayerTotalIsStackedCopies(groups: seq<Category>, batch: seq<MediaRecord>)
    ensures LayerTotal(groups, batch) == StackedCopies(groups, batch)
  {
    if batch == [] {
      LayerTotalEmpty(groups);
    } else {
      LayerTotalStep(groups, batch);
      LayerTotalIsStackedCopies(groups, batch[1..]);
    }
  }

  /**
   * In general each record stacks once per category carrying its
   * shortname: the bar's top is the sum, over the date's records, of the
   * number of series reading the record's shortname. A record whose
   * shortname no category carries contributes nothing; one whose
   * shortname two categories share contributes twice.
   */
  lemma StackTopCountsCopies(groups: seq<Category>, ops: seq<Op>, batch: seq<MediaRecord>)
    requires NetsTo(ops, batch)
    ensures StackTop(Layering(groups), Replay(Zeroed(groups), ops)) == Num(StackedCopies(groups, batch))
  {
    var acc := Replay(Zeroed(groups), ops);
    forall i | 0 <= i < |groups|
      ensures Read(acc, groups[i].shortname) == Some(Num(Count(batch, groups[i].shortname)))
    {
      SeriesEntry(groups, ops, batch, i);
    }
    StackTopIsLayerTotal(groups, acc, batch);
    LayerTotalIsStackedCopies(groups, batch);
  }

  /**
   * Without distinct shortnames the bar overstates: two categories with
   * different ids and one shortname share one counter, and both series
   * read it, so one record stacks twice.
   */
  lemma SharedShortnameStacksTwice()
    ensures var groups := [Category(1, "x", "first"), Category(2, "x", "second")];
            var batch := [MediaRecord("a", "2020-01-01", 0, Category(1, "x", "first"))];
            StackTop(Layering(groups), Replay(Zeroed(groups), AddAll(batch))) == Num(2)
  {
    var groups := [Category(1, "x", "first"), Category(2, "x", "second")];
    var batch := [MediaRecord("a", "2020-01-01", 0, Category(1, "x", "first"))];
    SharedShortnameCount(groups, batch);
    SharedShortnameTop(groups, Replay(Zeroed(groups), AddAll(batch)));
  }

  lemma SharedShortnameCount(groups: seq<Category>, batch: seq<MediaRecord>)
    requires groups == [Category(1, "x", "first"), Category(2, "x", "second")]
    requires batch == [MediaRecord("a", "2020-01-01", 0, Category(1, "x", "first"))]
    ensures Replay(Zeroed(groups), AddAll(batch)) == map["x" := Num(1)]
  {
    assert batch[0] in batch;
    assert Shortnames(groups) == {"x"} by {
      assert groups[0] in groups;
    }
    BatchRecount(groups, batch);
    assert Count(batch, "x") == 1 by {
      assert batch[1..] == [];
    }
  }

  lemma SharedShortnameTop(groups: seq<Category>, acc: Accumulator)
    requires groups == [Category(1, "x", "first"), Category(2, "x", "second")]
    requires acc == map["x" := Num(1)]
    ensures StackTop(Layering(groups), acc) == Num(2)
  {
    var series := Layering(groups);
    assert series == [Base("x"), Layer("x", "x")] by {
      assert groups[..1][..0] == [];
      assert Layering(groups[..1]) == [Base("x")];
    }
    assert series[..1][..0] == [];
    assert StackTop(series[..1], acc) == Num(1);
  }

  /**
   * A record whose shortname no category carries is not stacked: one
   * category "x" and records of id 1 under shortnames "x" and "y" give a
   * bar of height 1, the "y" entry being a NaN that no series reads.
   */
  lemma UnknownShortnameNotStacked()
    ensures var groups := [Category(1, "x", "first")];
            var batch := [MediaRecord("a", "2020-01-01", 0, Category(1, "x", "first")),
                          MediaRecord("b", "2020-01-01", 0, Category(1, "y", "first"))];
            StackTop(Layering(groups), Replay(Zeroed(groups), AddAll(batch))) == Num(1)
  {
    var groups := [Category(1, "x", "first")];
    var batch := [MediaRecord("a", "2020-01-01", 0, Category(1, "x", "first")),
                  MediaRecord("b", "2020-01-01", 0, Category(1, "y", "first"))];
    AddAllParts(batch);
    StackTopCountsCopies(groups, AddAll(batch), batch);
    UnknownShortnameCopies(groups, batch);
  }

  lemma UnknownShortnameCopies(groups: seq<Category>, batch: seq<MediaRecord>)
    requires groups == [Category(1, "x", "first")]
    requires batch == [MediaRecord("a", "2020-01-01", 0, Category(1, "x", "first")),
                       MediaRecord("b", "2020-01-01", 0, Category(1, "y", "first"))]
    ensures StackedCopies(groups, batch) == 1
  {
    assert groups[..0] == [];
    assert Occurrences(groups, "x") == 1;
    assert Occurrences(groups, "y") == 0;
    assert batch[1..][1..] == [];
    assert StackedCopies(groups, batch[1..]) == Occurrences(groups, "y");
    assert StackedCopies(groups, batch) == Occurrences(groups, "x") + StackedCopies(groups, batch[1..]);
  }

  lemma {:induction false} CountIsCountKey(batch: seq<MediaRecord>, c: Category)
    requires forall v :: v in batch ==> (v.category.shortname == c.shortname <==> v.category.id == c.id)
    ensures Count(batch, c.shortname) == CountKey(batch, CategoryKey(c))
  {
    if batch != [] {
      assert batch[0] in batch;
      assert forall v :: v in batch[1..] ==> v in batch;
      CountIsCountKey(batch[1..], c);
    }
  }

  /**
   * The category dimension groups by id while the accumulator counts by
   * shortname. Where shortname and id pick out the same records, each
   * series shows the number of records in its category's id group.
   */
  lemma LayerCountsById(groups: seq<Category>, ops: seq<Op>, batch: seq<MediaRecord>, i: nat)
    requires NetsTo(ops, batch)
    requires i < |groups|
    requires forall v :: v in batch ==>
               (v.category.shortname == groups[i].shortname <==> SameGroup(v.category, groups[i]))
    ensures ValueAt(Layering(groups)[i], Replay(Zeroed(groups), ops))
            == Some(Num(CountKey(batch, CategoryKey(groups[i]))))
  {
    LayerShowsCount(groups, ops, batch, i);
    forall v | v in batch
      ensures v.category.shortname == groups[i].shortname <==> v.category.id == groups[i].id
    {
      SameGroupIffSameId(v.category, groups[i]);
    }
    CountIsCountKey(batch, groups[i]);
  }
}
