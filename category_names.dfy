/**
 * Category names read from the graph (app/utils/ontology.py): a
 * module-level cache that only counts once it is non-empty, and the
 * lookup with its "Category <id>" fallback. Whether a driver is connected
 * and the (category_id, name) rows the query returns are inputs.
 */
module CategoryNames {
  import opened Wrappers
  import opened Collections

  /** What one read of the names returns given the cache before it. */
  function NamesAfter(cache: map<string, string>, connected: bool, load: Result<seq<(string, string)>>): map<string, string>
  {
    if cache != map[] then cache
    else if connected && load.Success? then Updated(map[], load.value)
    else map[]
  }

  /** The name of a category: the loaded one, or "Category <id>" when the id has none. */
  function ResolveIn(names: map<string, string>, categoryId: string): (name: string)
    ensures categoryId in names ==> name == names[categoryId]
    ensures categoryId !in names ==> name == "Category " + categoryId
  {
    if categoryId in names then names[categoryId] else "Category " + categoryId
  }

  /**
   * A loaded map holds every category id of the rows, each with the name
   * of its last row; with no driver or a failing query there are no names.
   */
  lemma NamesFromRows(connected: bool, load: Result<seq<(string, string)>>)
    ensures var names := NamesAfter(map[], connected, load);
      (!connected || load.Failure? ==> names == map[]) &&
      (connected && load.Success? ==>
        (forall id :: id in names <==> exists i :: 0 <= i < |load.value| && load.value[i].0 == id) &&
        (forall i :: 0 <= i < |load.value| && (forall j :: i < j < |load.value| ==> load.value[j].0 != load.value[i].0) ==>
          names[load.value[i].0] == load.value[i].1))
  {
  }

  class NameCache {
    /** `_category_name_cache`: starts empty and is replaced by each successful load. */
    var cache: map<string, string>

    constructor ()
      ensures cache == map[]
    {
      cache := map[];
    }

    /**
     * `get_category_names`: a non-empty cache is returned as is; otherwise
     * the names are loaded (the last row for an id wins) and cached, so an
     * empty load is retried on the next call; no driver, or a failing
     * query, gives {} and leaves the cache alone.
     */
    method GetCategoryNames(connected: bool, load: Result<seq<(string, string)>>) returns (names: map<string, string>)
      modifies this
      ensures names == NamesAfter(old(cache), connected, load)
      ensures cache == if old(cache) == map[] && connected && load.Success? then names else old(cache)
    {
      if cache != map[] {
        return cache;
      }
      if !connected {
        return map[];
      }
      match load
      case Failure(_) =>
        return map[];
      case Success(rows) =>
        names := map[];
        for i := 0 to |rows|
          invariant names == Updated(map[], rows[..i])
        {
          UpdatedSnoc(map[], rows, i);
          names := names[rows[i].0 := rows[i].1];
        }
        assert rows[..|rows|] == rows;
        cache := names;
    }

    /** `resolve_category_name`: the loaded name, or "Category <id>". */
    method ResolveCategoryName(categoryId: string, connected: bool, load: Result<seq<(string, string)>>) returns (name: string)
      modifies this
      ensures name == ResolveIn(NamesAfter(old(cache), connected, load), categoryId)
      ensures cache == if old(cache) == map[] && connected && load.Success? then NamesAfter(old(cache), connected, load) else old(cache)
    {
      var names := GetCategoryNames(connected, load);
      name := if categoryId in names then names[categoryId] else "Category " + categoryId;
    }
  }

  /**
   * Two reads from an empty cache: a non-empty first result is what every
   * later read returns, while an empty one is not remembered, so the next
   * read loads again and sees whatever the query now returns.
   */
  lemma EmptyLoadRetried(connected: bool, first: Result<seq<(string, string)>>, second: Result<seq<(string, string)>>)
    ensures var names := NamesAfter(map[], connected, first);
      NamesAfter(names, connected, second) == if names == map[] then NamesAfter(map[], connected, second) else names
  {
  }
}
