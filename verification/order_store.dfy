/**
 The order repository as a keyed map: `findById` and `save` of a JPA repository
 whose primary key is the order id.
 */
module OrderStore {
  import opened Orders

  type Store = map<string, Order>

  /** Every record sits under its own id, as rows of a table keyed by `id` do. */
  predicate Keyed(s: Store)
  {
    forall k :: k in s ==> s[k].id == k
  }

  /** No stored order was last updated later than `t`. */
  predicate UpdatedBy(s: Store, t: Instant)
  {
    forall k :: k in s ==> s[k].updatedAt <= t
  }

  /** `findById`: the order stored under `id`, if any. */
  function FindById(s: Store, id: string): (r: Option<Order>)
    ensures r.Some? <==> id in s
    ensures r.Some? ==> r.value == s[id]
    ensures Keyed(s) && r.Some? ==> r.value.id == id
  {
    if id in s then Some(s[id]) else None
  }

  /** `save`: insert or overwrite the record under the order's own id. */
  function Save(s: Store, o: Order): (r: Store)
    ensures r.Keys == s.Keys + {o.id}
    ensures r[o.id] == o
    ensures forall k :: k in s && k != o.id ==> r[k] == s[k]
    ensures Keyed(s) ==> Keyed(r)
  {
    s[o.id := o]
  }
}
