/**
 * The sort state the list pages keep (`sortConfig`) and the rule by which a
 * click on a column header changes it, which the project list, the cost
 * list and the cost management page each repeat word for word.
 */
module ListSort {
  import opened Base

  datatype Direction = Asc | Desc

  /** `{ key, direction }`: `key` is `None` until a header is clicked. */
  datatype SortConfig<K> = SortConfig(key: Option<K>, direction: Direction)

  function Flip(d: Direction): Direction
  {
    if d == Asc then Desc else Asc
  }

  /**
   * `handleSort(key)`: a second click on the column sorted ascending turns
   * it descending; any other click sorts that column ascending.
   */
  function HandleSort<K(==)>(c: SortConfig<K>, key: K): (r: SortConfig<K>)
    ensures r.key == Some(key)
    ensures r.direction == Desc <==> c.key == Some(key) && c.direction == Asc
  {
    SortConfig(Some(key), if c.key == Some(key) && c.direction == Asc then Desc else Asc)
  }

  /** Clicking the same header again always reverses the direction. */
  lemma HandleSortAlternates<K>(c: SortConfig<K>, key: K)
    ensures HandleSort(HandleSort(c, key), key) == SortConfig(Some(key), Flip(HandleSort(c, key).direction))
  {
  }

  /** A click on a new column sorts it ascending, whatever the previous state. */
  lemma HandleSortNewKey<K>(c: SortConfig<K>, key: K)
    requires c.key != Some(key)
    ensures HandleSort(c, key) == SortConfig(Some(key), Asc)
  {
  }
}
