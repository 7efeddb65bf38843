/**
 * The records the dashboard aggregates and the key its category
 * dimension uses.
 */
module Media {

  /** A media category: a small, closed set identified by `id`. */
  datatype Category = Category(id: int, shortname: string, longname: string)

  /**
   * One geotagged photo or video entry. `date` is the instant parsed from
   * the ISO-8601 `timestamp` (milliseconds since the epoch); the parsing
   * itself is not part of this model. Each record carries one category.
   */
  datatype MediaRecord = MediaRecord(uuid: string, timestamp: string, date: int, category: Category)

  /**
   * The category dimension's key: the category object itself, made to
   * compare as its numeric id by replacing its `valueOf`.
   */
  function CategoryKey(c: Category): int
  {
    c.id
  }

  /** `a < b` on two keyed category objects, as the grouping library sees it. */
  predicate KeyBefore(a: Category, b: Category)
  {
    CategoryKey(a) < CategoryKey(b)
  }

  /** Two keys fall into one group when neither sorts before the other. */
  predicate SameGroup(a: Category, b: Category)
  {
    !KeyBefore(a, b) && !KeyBefore(b, a)
  }

  /**
   * Keys compare by id alone: two category objects share a group exactly
   * when their ids agree, whatever their names; otherwise exactly one of
   * them sorts first.
   */
  lemma SameGroupIffSameId(a: Category, b: Category)
    ensures SameGroup(a, b) <==> a.id == b.id
    ensures !SameGroup(a, b) ==> (KeyBefore(a, b) <==> !KeyBefore(b, a))
  {
  }

  /** The number of records in `batch` whose category key is `key`. */
  function CountKey(batch: seq<MediaRecord>, key: int): (n: nat)
    ensures n <= |batch|
    ensures n == 0 <==> forall v :: v in batch ==> CategoryKey(v.category) != key
  {
    if batch == [] then 0
    else (if CategoryKey(batch[0].category) == key then 1 else 0) + CountKey(batch[1..], key)
  }
}
