/**
 * The react-query cache shared by every hook, reduced to a map from query
 * key to an entry holding the cached value and a stale flag, with the three
 * operations the hooks call from their `onSuccess` handlers.
 */
module QueryCache {
  import opened Wrappers

  /** One element of a query key: a string, or the `{ filters }` object of a `list(...)` key. */
  datatype KeyPart = Name(name: string) | Filters(filters: string)

  type Key = seq<KeyPart>

  datatype Entry<V> = Entry(value: V, stale: bool)

  /** The options a hook passes to `useQuery`: key, URL fetched, stale time in ms, enablement. */
  datatype QueryOptions = QueryOptions(key: Key, url: string, staleTime: nat, enabled: bool)

  /** `1000 * 60 * 5`: the stale time of every list and detail query. */
  const FiveMinutes: nat := 300000

  // Key builders shared by the orders, menu-items, categories and tables hooks:
  // `all = [root]`, `lists() = [...all, 'list']`, `list(f) = [...lists(), { filters: f }]`,
  // `detail(id) = [...all, 'detail', id]`.

  function AllKey(root: string): Key {
    [Name(root)]
  }

  function ListsKey(root: string): (k: Key)
    ensures AllKey(root) <= k && |k| == 2
  {
    AllKey(root) + [Name("list")]
  }

  function ListKey(root: string, filters: string): (k: Key)
    ensures ListsKey(root) <= k
  {
    ListsKey(root) + [Filters(filters)]
  }

  function DetailKey(root: string, id: string): (k: Key)
    ensures AllKey(root) <= k && |k| == 3
  {
    AllKey(root) + [Name("detail"), Name(id)]
  }

  /** List keys and detail keys never cover one another, and detail keys are one per id and root. */
  lemma KeyShapes(root: string, root': string, id: string, id': string, filters: string)
    ensures !(ListsKey(root) <= DetailKey(root', id)) && !(DetailKey(root', id) <= ListsKey(root))
    ensures !(DetailKey(root', id) <= ListKey(root, filters))
    ensures DetailKey(root, id) <= DetailKey(root', id') <==> root == root' && id == id'
  {
    assert DetailKey(root', id)[1] == Name("detail") != Name("list") == ListsKey(root)[1];
    assert ListKey(root, filters)[2] == Filters(filters);
    if DetailKey(root, id) <= DetailKey(root', id') {
      assert DetailKey(root, id)[0] == DetailKey(root', id')[0];
      assert DetailKey(root, id)[2] == DetailKey(root', id')[2];
    }
  }

  /** `setQueryData(key, v)`: the slot holds `v`, fresh. */
  function Written<V>(m: map<Key, Entry<V>>, key: Key, v: V): (r: map<Key, Entry<V>>)
    ensures key in r && r[key] == Entry(v, false)
    ensures forall k :: k != key ==> (k in r <==> k in m)
    ensures forall k :: k != key && k in m ==> r[k] == m[k]
  {
    m[key := Entry(v, false)]
  }

  /** `removeQueries({ queryKey: prefix })`: every slot whose key starts with `prefix` is dropped. */
  function Removed<V>(m: map<Key, Entry<V>>, prefix: Key): (r: map<Key, Entry<V>>)
    ensures forall k :: k in r <==> k in m && !(prefix <= k)
    ensures forall k :: k in r ==> r[k] == m[k]
  {
    map k | k in m && !(prefix <= k) :: m[k]
  }

  /** `invalidateQueries({ queryKey: prefix })`: every slot under `prefix` becomes stale, values untouched. */
  function Invalidated<V>(m: map<Key, Entry<V>>, prefix: Key): (r: map<Key, Entry<V>>)
    ensures r.Keys == m.Keys
    ensures forall k :: k in m ==> r[k].value == m[k].value
    ensures forall k :: k in m ==> (r[k].stale <==> m[k].stale || prefix <= k)
  {
    map k | k in m :: if prefix <= k then m[k].(stale := true) else m[k]
  }

  /** The process-wide query client; `entries` is its cache. */
  class QueryClient<V> {
    var entries: map<Key, Entry<V>>

    constructor ()
      ensures entries == map[]
    {
      entries := map[];
    }

    /** `getQueryData(key)`. */
    function GetQueryData(key: Key): (r: Option<V>)
      reads this
      ensures r.Some? <==> key in entries
      ensures r.Some? ==> r.value == entries[key].value
    {
      if key in entries then Some(entries[key].value) else None
    }

    method SetQueryData(key: Key, v: V)
      modifies this
      ensures entries == Written(old(entries), key, v)
    {
      entries := entries[key := Entry(v, false)];
    }

    method RemoveQueries(prefix: Key)
      modifies this
      ensures entries == Removed(old(entries), prefix)
    {
      entries := map k | k in entries && !(prefix <= k) :: entries[k];
    }

    method InvalidateQueries(prefix: Key)
      modifies this
      ensures entries == Invalidated(old(entries), prefix)
    {
      entries := map k | k in entries :: if prefix <= k then entries[k].(stale := true) else entries[k];
    }
  }

  // The `onSuccess` effects common to the menu-items, categories and tables hooks.

  /** Create: invalidate the list key. */
  function AfterCreate<V>(m: map<Key, Entry<V>>, root: string): map<Key, Entry<V>> {
    Invalidated(m, ListsKey(root))
  }

  /** Update: write the returned record into its detail slot, then invalidate the list key. */
  function AfterUpdate<V>(m: map<Key, Entry<V>>, root: string, id: string, v: V): map<Key, Entry<V>> {
    Invalidated(Written(m, DetailKey(root, id), v), ListsKey(root))
  }

  /** Delete: remove the detail slot, then invalidate the list key. */
  function AfterDelete<V>(m: map<Key, Entry<V>>, root: string, id: string): map<Key, Entry<V>> {
    Invalidated(Removed(m, DetailKey(root, id)), ListsKey(root))
  }

  /**
   * After a create, every cached list query of the entity (including `list(filters)`
   * ones) is stale, and every other slot is exactly as before.
   */
  lemma AfterCreateEffect<V>(m: map<Key, Entry<V>>, root: string)
    ensures AfterCreate(m, root).Keys == m.Keys
    ensures forall k :: k in m && ListsKey(root) <= k ==> AfterCreate(m, root)[k] == m[k].(stale := true)
    ensures forall k :: k in m && !(ListsKey(root) <= k) ==> AfterCreate(m, root)[k] == m[k]
  {
  }

  /**
   * After an update returning `v` for `id`: the detail slot holds `v` and is fresh,
   * the list queries are stale, and every other slot is unchanged.
   */
  lemma AfterUpdateEffect<V>(m: map<Key, Entry<V>>, root: string, id: string, v: V)
    ensures DetailKey(root, id) in AfterUpdate(m, root, id, v)
    ensures AfterUpdate(m, root, id, v)[DetailKey(root, id)] == Entry(v, false)
    ensures AfterUpdate(m, root, id, v).Keys == m.Keys + {DetailKey(root, id)}
    ensures forall k :: k in m && ListsKey(root) <= k ==> AfterUpdate(m, root, id, v)[k] == m[k].(stale := true)
    ensures forall k :: k in m && k != DetailKey(root, id) && !(ListsKey(root) <= k) ==>
      AfterUpdate(m, root, id, v)[k] == m[k]
  {
    KeyShapes(root, root, id, id, "");
    var w := Written(m, DetailKey(root, id), v);
    forall k | k in m && ListsKey(root) <= k
      ensures AfterUpdate(m, root, id, v)[k] == m[k].(stale := true)
    {
      assert k != DetailKey(root, id);
    }
  }

  /**
   * After a delete of `id`: no slot under `detail(id)` remains, the list queries are
   * stale, and every other slot is unchanged.
   */
  lemma AfterDeleteEffect<V>(m: map<Key, Entry<V>>, root: string, id: string)
    ensures forall k :: k in AfterDelete(m, root, id) <==> k in m && !(DetailKey(root, id) <= k)
    ensures DetailKey(root, id) !in AfterDelete(m, root, id)
    ensures forall k :: k in m && ListsKey(root) <= k ==>
      k in AfterDelete(m, root, id) && AfterDelete(m, root, id)[k] == m[k].(stale := true)
    ensures forall k :: k in m && !(DetailKey(root, id) <= k) && !(ListsKey(root) <= k) ==>
      AfterDelete(m, root, id)[k] == m[k]
  {
    forall k | k in m && ListsKey(root) <= k
      ensures !(DetailKey(root, id) <= k)
    {
      assert k[1] == Name("list");
    }
  }
}
