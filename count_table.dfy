/**
 * The JavaScript objects the aggregation mutates in place: the shared
 * zeroed `categoryCounts` table, and each date's accumulator, which the
 * reducers update and hand back.
 */
module CountTables {
  import opened Media
  import opened Reducers

  /** A plain object from category shortname to a number. */
  class CountTable {
    var entries: Accumulator

    /** `{}`. */
    constructor Empty()
      ensures entries == map[]
    {
      entries := map[];
    }

    /**
     * The `initial` reducer, `Object.assign({}, categoryCounts)`: a new
     * object with the same entries, so later updates to either one leave
     * the other as it was.
     */
    constructor Initial(categoryCounts: CountTable)
      ensures entries == categoryCounts.entries
    {
      entries := categoryCounts.entries;
    }

    /** `table[key] = 0`. */
    method SetZero(key: string)
      modifies this
      ensures entries == old(entries)[key := Num(0)]
      ensures key in entries && entries[key] == Num(0)
      ensures entries.Keys == old(entries).Keys + {key}
      ensures forall s :: s in old(entries) && s != key ==> entries[s] == old(entries)[s]
    {
      entries := entries[key := Num(0)];
    }

    /** The add reducer: `p[v.category.shortname]++; return p`. */
    method Add(v: MediaRecord) returns (p: CountTable)
      modifies this
      ensures p == this
      ensures entries == Reducers.Add(old(entries), v)
    {
      var key := v.category.shortname;
      entries := entries[key := Inc(Read(entries, key))];
      p := this;
    }

    /** The remove reducer: `p[v.category.shortname]--; return p`. */
    method Remove(v: MediaRecord) returns (p: CountTable)
      modifies this
      ensures p == this
      ensures entries == Reducers.Remove(old(entries), v)
    {
      var key := v.category.shortname;
      entries := entries[key := Dec(Read(entries, key))];
      p := this;
    }
  }

  /**
   * The loop over the category group's keys that builds `categoryCounts`:
   * every shortname present, every count 0.
   */
  method BuildCategoryCounts(groups: seq<Category>) returns (categoryCounts: CountTable)
    ensures fresh(categoryCounts)
    ensures categoryCounts.entries == Zeroed(groups)
    ensures categoryCounts.entries.Keys == Shortnames(groups)
    ensures forall s :: s in categoryCounts.entries ==> categoryCounts.entries[s] == Num(0)
  {
    categoryCounts := new CountTable.Empty();
    var i := 0;
    while i < |groups|
      invariant 0 <= i <= |groups|
      invariant categoryCounts.entries == Zeroed(groups[..i])
    {
      ZeroedStep(groups, i);
      categoryCounts.SetZero(groups[i].shortname);
      i := i + 1;
    }
    assert groups[..i] == groups;
  }

  /**
   * Two dates' accumulators drawn from the same `categoryCounts`: they are
   * distinct objects, and adding a record to one changes neither the
   * other nor `categoryCounts`.
   */
  method SeparateAccumulators(categoryCounts: CountTable, v: MediaRecord)
    returns (first: CountTable, second: CountTable)
    ensures fresh(first) && fresh(second) && first != second
    ensures first != categoryCounts && second != categoryCounts
    ensures first.entries == Reducers.Add(categoryCounts.entries, v)
    ensures second.entries == categoryCounts.entries == old(categoryCounts.entries)
  {
    first := new CountTable.Initial(categoryCounts);
    second := new CountTable.Initial(categoryCounts);
    var same := first.Add(v);
  }
}
