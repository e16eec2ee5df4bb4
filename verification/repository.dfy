/** The orders table behind the repository: rows keyed by id, plus the next
    value of the id generator.  Every row is stored under its own id, and
    every id in use was handed out by the generator. */
module OrderRepository {
  import opened Wrappers
  import opened Orders

  datatype Store = Store(rows: map<int, Order>, nextId: int) {
    predicate Valid() {
      && 1 <= nextId
      && forall k :: k in rows ==> 1 <= k < nextId && rows[k].id == Some(k)
    }
  }

  /** A store as the repository keeps it. */
  type Repository = s: Store | s.Valid() witness Store(map[], 1)

  const Empty: Repository := Store(map[], 1)

  /** Looks up the row stored under `id`; nothing is changed. */
  function FindOne(repo: Repository, id: int): (r: Option<Order>)
    ensures r.Some? <==> id in repo.rows
    ensures r.Some? ==> r.value == repo.rows[id] && r.value.id == Some(id)
  {
    if id in repo.rows then Some(repo.rows[id]) else None
  }

  /** Saves `o` and returns the saved entity.  An entity whose id names a
      stored row replaces that row; any other entity is inserted under a
      freshly generated id. */
  function Save(repo: Repository, o: Order): (r: (Repository, Order))
    ensures r.1 == o.(id := r.1.id)
    ensures r.1.id.Some?
    ensures r.0.rows.Keys == repo.rows.Keys + {r.1.id.value}
    ensures r.0.rows[r.1.id.value] == r.1
    ensures forall k :: k in repo.rows && Some(k) != r.1.id ==> r.0.rows[k] == repo.rows[k]
    ensures o.id.Some? && o.id.value in repo.rows ==> r.1.id == o.id && r.0.nextId == repo.nextId
    ensures !(o.id.Some? && o.id.value in repo.rows) ==> r.1.id.value !in repo.rows
  {
    if o.id.Some? && o.id.value in repo.rows then
      (Store(repo.rows[o.id.value := o], repo.nextId), o)
    else
      var saved := o.(id := Some(repo.nextId));
      (Store(repo.rows[repo.nextId := saved], repo.nextId + 1), saved)
  }
}
