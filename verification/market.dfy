/** One fetched snapshot of the market: the asset records the price API
    returns, and the lookup the dashboard does on them. */
module Market {
  import opened Wrappers

  /** One asset of a snapshot. Prices are exact reals here; the
      dashboard holds them as floating-point numbers. The 24-hour fields are only
      displayed and may be missing in a response. */
  datatype Asset = Asset(
    id: string,
    name: string,
    symbol: string,
    currentPrice: real,
    high24h: Option<real>,
    low24h: Option<real>,
    change24h: Option<real>,
    image: string)

  /** True when some asset of the snapshot has identifier `id`. */
  predicate Lists(snapshot: seq<Asset>, id: string) {
    exists c <- snapshot :: c.id == id
  }

  /** The first asset of the snapshot whose identifier is `id`, in
      snapshot order, or None when no asset has it. */
  function Find(snapshot: seq<Asset>, id: string): (r: Option<Asset>)
    ensures r.None? <==> !Lists(snapshot, id)
    ensures r.Some? ==> exists i :: 0 <= i < |snapshot| && snapshot[i] == r.value && FirstWith(snapshot, id, i)
  {
    if snapshot == [] then None
    else if snapshot[0].id == id then
      assert FirstWith(snapshot, id, 0);
      Some(snapshot[0])
    else
      var r := Find(snapshot[1..], id);
      assert snapshot == [snapshot[0]] + snapshot[1..];
      if r.Some? then
        var i :| 0 <= i < |snapshot[1..]| && snapshot[1..][i] == r.value && FirstWith(snapshot[1..], id, i);
        assert FirstWith(snapshot, id, i + 1);
        r
      else
        r
  }

  /** Index `i` holds an asset with identifier `id` and no earlier one does. */
  predicate FirstWith(snapshot: seq<Asset>, id: string, i: int)
    requires 0 <= i < |snapshot|
  {
    && snapshot[i].id == id
    && forall j :: 0 <= j < i ==> snapshot[j].id != id
  }
}
