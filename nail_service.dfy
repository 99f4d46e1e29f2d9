/** The catalog data service (src/modules/nails/api/nailService.ts): a CRUD
    repository over a local cache of products, persisted under the key
    'nailshop:nails' and seeded from the built-in mock data, in front of an
    optional remote HTTP API.

    Each remote call is an oracle: its reply is a parameter of type `Result`,
    read only when `useRemoteApi` holds. */
module CatalogService {
  import opened Shared
  import opened Seqs
  import opened NailTypes

  /** `loadFromStorage`: the stored list, or the mock data when the key is absent,
      the stored list is empty, or the text does not parse. */
  function LoadFromStorage(raw: Stored<Product>, mock: seq<Product>): (r: seq<Product>)
    ensures r == mock || (raw.List? && r == raw.elems)
    ensures raw.List? && raw.elems != [] ==> r == raw.elems
    ensures r == [] ==> mock == []
  {
    match raw
    case List(elems) => if |elems| > 0 then elems else mock
    case _ => mock
  }

  /** What storage holds once `loadFromStorage` has run: an absent key is seeded
      with the mock data; every other entry is left as it was. */
  function SeededStorage(raw: Stored<Product>, mock: seq<Product>): (s: Stored<Product>)
    ensures raw.Absent? ==> s == List(mock)
    ensures !raw.Absent? ==> s == raw
  {
    if raw.Absent? then List(mock) else raw
  }

  /** `{ ...payload, id, createdAt }`. */
  function FromPayload(payload: CreatePayload, id: string, createdAt: int): Product
  {
    Product(id, payload.title, payload.description, payload.price, payload.color,
            payload.season, payload.design, payload.image, createdAt, None)
  }

  /** The fields of a product that a create payload carries. */
  function PayloadOf(p: Product): CreatePayload
  {
    CreatePayload(p.title, p.description, p.price, p.color, p.season, p.design, p.image)
  }

  /** A created product carries the payload's fields, the new id and the creation time. */
  lemma FromPayloadRoundTrip(payload: CreatePayload, id: string, createdAt: int)
    ensures var p := FromPayload(payload, id, createdAt);
      PayloadOf(p) == payload && p.id == id && p.createdAt == createdAt && p.updatedAt == None
  {
  }

  /** `{ ...current, ...payload, updatedAt }`: each field the payload gives
      wins, each field it leaves out keeps its current value. */
  function Merge(current: Product, payload: UpdatePayload, updatedAt: int): (r: Product)
    ensures r.id == current.id && r.createdAt == current.createdAt && r.updatedAt == Some(updatedAt)
    ensures payload.title.Some? ==> r.title == payload.title.value
    ensures payload.title.None? ==> r.title == current.title
    ensures payload.description.Some? ==> r.description == payload.description.value
    ensures payload.description.None? ==> r.description == current.description
    ensures payload.price.Some? ==> r.price == payload.price.value
    ensures payload.price.None? ==> r.price == current.price
    ensures payload.color.Some? ==> r.color == payload.color.value
    ensures payload.color.None? ==> r.color == current.color
    ensures payload.season.Some? ==> r.season == payload.season.value
    ensures payload.season.None? ==> r.season == current.season
    ensures payload.design.Some? ==> r.design == payload.design.value
    ensures payload.design.None? ==> r.design == current.design
    ensures payload.image.Some? ==> r.image == payload.image.value
    ensures payload.image.None? ==> r.image == current.image
  {
    Product(current.id,
            payload.title.GetOr(current.title),
            payload.description.GetOr(current.description),
            payload.price.GetOr(current.price),
            payload.color.GetOr(current.color),
            payload.season.GetOr(current.season),
            payload.design.GetOr(current.design),
            payload.image.GetOr(current.image),
            current.createdAt,
            Some(updatedAt))
  }

  /** The update payload that sets every field of a create payload. */
  function FullUpdate(c: CreatePayload): UpdatePayload
  {
    UpdatePayload(Some(c.title), Some(c.description), Some(c.price), Some(c.color),
                  Some(c.season), Some(c.design), Some(c.image))
  }

  const NoChange := UpdatePayload(None, None, None, None, None, None, None)

  /** A payload that names a field determines it; one that names none changes
      only `updatedAt`; merging the same payload again changes nothing more. */
  lemma MergeProperties(p: Product, c: CreatePayload, u: UpdatePayload, t: int)
    ensures PayloadOf(Merge(p, FullUpdate(c), t)) == c
    ensures Merge(p, NoChange, t) == p.(updatedAt := Some(t))
    ensures Merge(Merge(p, u, t), u, t) == Merge(p, u, t)
  {
  }

  /** The catalog service, with the module-level `localCache` as a field.
      `stored` is what local storage holds under the catalog's key. */
  class NailService {
    const useRemoteApi: bool
    const mockNails: seq<Product>
    var localCache: seq<Product>
    ghost var stored: Stored<Product>

    /** Module initialisation: `localCache = loadFromStorage()`. */
    constructor (useRemoteApi: bool, mockNails: seq<Product>, raw: Stored<Product>)
      ensures this.useRemoteApi == useRemoteApi && this.mockNails == mockNails
      ensures localCache == LoadFromStorage(raw, mockNails)
      ensures stored == SeededStorage(raw, mockNails)
    {
      this.useRemoteApi := useRemoteApi;
      this.mockNails := mockNails;
      localCache := LoadFromStorage(raw, mockNails);
      stored := SeededStorage(raw, mockNails);
    }

    ghost method Persist()
      modifies this`stored
      ensures stored == List(localCache)
    {
      stored := List(localCache);
    }

    /** `fetchAll`: the remote list, or the local cache when the remote API is
        off or its call fails. It never fails. */
    function FetchAll(reply: Result<seq<Product>>): (r: seq<Product>)
      reads this
      ensures useRemoteApi && reply.Ok? ==> r == reply.value
      ensures !useRemoteApi || reply.Err? ==> r == localCache
    {
      if useRemoteApi && reply.Ok? then reply.value else localCache
    }

    /** `fetchById`: the remote record, or else the first cached entry with that
        id. A local miss fails, because `clone(undefined)` -- that is,
        `JSON.parse(undefined)` -- throws a SyntaxError. */
    function FetchById(id: string, reply: Result<Product>): (r: Result<Product>)
      reads this
      ensures useRemoteApi && reply.Ok? ==> r == reply
      ensures !(useRemoteApi && reply.Ok?) ==>
        && (r.Ok? <==> exists p :: p in localCache && p.id == id)
        && (r.Ok? ==> r.value.id == id && r == Ok(localCache[IndexOfId(localCache, id).value]))
        && (r.Err? ==> r.error == InvalidJson)
    {
      if useRemoteApi && reply.Ok? then reply
      else match FindById(localCache, id)
        case Some(p) => Ok(p)
        case None => Err(InvalidJson)
    }

    /** `create`: in remote mode, the server's answer or its failure; locally, a
        product with a fresh id put in front of the cache, which is persisted. */
    method Create(payload: CreatePayload, newId: string, now: int, reply: Result<Product>)
      returns (r: Result<Product>)
      modifies this
      ensures useRemoteApi ==> r == reply && localCache == old(localCache) && stored == old(stored)
      ensures !useRemoteApi ==>
        && r == Ok(FromPayload(payload, newId, now))
        && localCache == [r.value] + old(localCache)
        && stored == List(localCache)
      ensures (!useRemoteApi && old(KeysDistinct(localCache, Id)) &&
               forall p :: p in old(localCache) ==> p.id != newId) ==>
        KeysDistinct(localCache, Id)
    {
      if useRemoteApi {
        return reply;
      }
      var newProduct := FromPayload(payload, newId, now);
      localCache := [newProduct] + localCache;
      Persist();
      r := Ok(newProduct);
      forall i, j | 0 <= i < j < |localCache| && KeysDistinct(old(localCache), Id) &&
        (forall p :: p in old(localCache) ==> p.id != newId)
        ensures Id(localCache[i]) != Id(localCache[j])
      {
        assert localCache[j] == old(localCache)[j - 1];
        if i > 0 {
          assert localCache[i] == old(localCache)[i - 1];
        } else {
          assert localCache[j] in old(localCache);
        }
      }
    }

    /** `update`: in remote mode, the server's answer or its failure; locally,
        'Item not found' when no entry has the id, and otherwise the first entry
        with the id replaced in place by its merge with the payload. */
    method Update(id: string, payload: UpdatePayload, now: int, reply: Result<Product>)
      returns (r: Result<Product>)
      modifies this
      ensures useRemoteApi ==> r == reply && localCache == old(localCache) && stored == old(stored)
      ensures !useRemoteApi && IndexOfId(old(localCache), id).None? ==>
        r == Err(NotFound) && localCache == old(localCache) && stored == old(stored)
      ensures !useRemoteApi && IndexOfId(old(localCache), id).Some? ==>
        var i := IndexOfId(old(localCache), id).value;
        && r == Ok(Merge(old(localCache)[i], payload, now))
        && localCache == old(localCache)[i := r.value]
        && stored == List(localCache)
      ensures |localCache| == |old(localCache)|
      ensures forall k :: 0 <= k < |localCache| ==> localCache[k].id == old(localCache)[k].id
      ensures old(KeysDistinct(localCache, Id)) ==> KeysDistinct(localCache, Id)
    {
      if useRemoteApi {
        return reply;
      }
      var index := IndexOfId(localCache, id);
      if index.None? {
        return Err(NotFound);
      }
      var i := index.value;
      var updated := Merge(localCache[i], payload, now);
      localCache := localCache[i := updated];
      Persist();
      r := Ok(updated);
      assert forall k :: 0 <= k < |localCache| ==> Id(localCache[k]) == Id(old(localCache)[k]);
    }

    /** `remove`: in remote mode, the server's answer or its failure; locally,
        the cache without the entries of that id, persisted. */
    method Remove(id: string, reply: Result<()>) returns (r: Result<()>)
      modifies this
      ensures useRemoteApi ==> r == reply && localCache == old(localCache) && stored == old(stored)
      ensures !useRemoteApi ==>
        r == Ok(()) && localCache == WithoutId(old(localCache), id) && stored == List(localCache)
      ensures old(KeysDistinct(localCache, Id)) ==> KeysDistinct(localCache, Id)
    {
      if useRemoteApi {
        return reply;
      }
      ghost var before := localCache;
      localCache := Filter(localCache, OtherId(id));
      Persist();
      r := Ok(());
      if KeysDistinct(before, Id) {
        WithoutIdKeepsIdsDistinct(before, id);
      }
    }
  }
}
