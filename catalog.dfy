/**
 * The offline catalog as the route handlers see it: an ordered snapshot of
 * records, each with its id (the dataframe index) and its string columns.
 * How the catalog is loaded and searched is not part of this model; only the
 * re-resolution of cached ids against the snapshot is.
 */
module Catalog {

  datatype Record = Record(id: string, fields: map<string, string>)

  /** `record.get(column, default)`. */
  function Column(r: Record, column: string, default: string): string
  {
    if column in r.fields then r.fields[column] else default
  }

  /**
   * `df.loc[df.index.isin(cached_ids)]`: the records whose id is one of the
   * cached ids, kept in catalog order.
   */
  function Resolve(catalog: seq<Record>, ids: seq<string>): (hits: seq<Record>)
    ensures |hits| <= |catalog|
    ensures forall r :: r in hits <==> r in catalog && r.id in ids
  {
    if |catalog| == 0 then []
    else (if catalog[0].id in ids then [catalog[0]] else []) + Resolve(catalog[1..], ids)
  }

  /** Resolution distributes over concatenation: hits come in catalog order. */
  lemma {:induction false} ResolveAppend(c1: seq<Record>, c2: seq<Record>, ids: seq<string>)
    ensures Resolve(c1 + c2, ids) == Resolve(c1, ids) + Resolve(c2, ids)
  {
    if |c1| == 0 {
      assert c1 + c2 == c2;
    } else {
      assert (c1 + c2)[1..] == c1[1..] + c2;
      ResolveAppend(c1[1..], c2, ids);
    }
  }

  /**
   * The order and multiplicity of the cached ids do not matter, nor do ids the
   * catalog lacks: only which of the catalog's ids were cached does, so the
   * result follows the catalog, not the cache.
   */
  lemma {:induction false} ResolveIgnoresCacheOrder(catalog: seq<Record>, ids1: seq<string>, ids2: seq<string>)
    requires forall r :: r in catalog ==> (r.id in ids1 <==> r.id in ids2)
    ensures Resolve(catalog, ids1) == Resolve(catalog, ids2)
  {
    if |catalog| > 0 {
      assert catalog[0] in catalog;
      assert forall r :: r in catalog[1..] ==> r in catalog;
      ResolveIgnoresCacheOrder(catalog[1..], ids1, ids2);
    }
  }

  /** Cached ids unknown to the catalog are dropped without an error: they change nothing. */
  lemma {:induction false} UnknownIdsDropped(catalog: seq<Record>, ids: seq<string>, id: string)
    requires forall r :: r in catalog ==> r.id != id
    ensures Resolve(catalog, ids + [id]) == Resolve(catalog, ids)
  {
    if |catalog| > 0 {
      assert catalog[0] in catalog;
      UnknownIdsDropped(catalog[1..], ids, id);
    }
  }
}
