/** The catalog store's actions with the call into the catalog service made
    explicit: each one runs the service operation, hands its outcome to the
    store, and states what the pair of objects looks like afterwards. */
module Storefront {
  import opened Shared
  import opened NailTypes
  import opened CatalogService
  import opened CatalogStore

  /** `loadProducts` over `nailService.fetchAll`: the store's list is the
      service's data (for the local service, its cache) newest first, and the
      price range is narrowed to that data's prices. */
  method LoadCatalog(store: NailStore, service: NailService, reply: Result<seq<Product>>)
    modifies store`items, store`isLoading, store`errorMessage, store`filters
    ensures store.items == SortNewestFirst(service.FetchAll(reply))
    ensures !service.useRemoteApi || reply.Err? ==>
      multiset(store.items) == multiset(service.localCache)
    ensures store.errorMessage == None && !store.isLoading
    ensures store.filters == if store.items == [] then old(store.filters)
      else old(store.filters).(priceRange := (MinPrice(store.items), MaxPrice(store.items)))
    ensures store.items != [] ==> PriceRangeCovers(store.filters, store.items)
    ensures store.selectedProduct == old(store.selectedProduct)
  {
    var data := service.FetchAll(reply);
    store.LoadProducts(Ok(data));
  }

  /** `createProduct(payload)`: with the local service, the new product heads
      both the cache and the store's list, and the cache is persisted. */
  method CreateListing(store: NailStore, service: NailService, payload: CreatePayload,
                       newId: string, now: int, reply: Result<Product>)
    returns (r: Result<Product>)
    modifies store, service
    ensures !service.useRemoteApi ==>
      && r == Ok(FromPayload(payload, newId, now))
      && store.items == [r.value] + old(store.items)
      && service.localCache == [r.value] + old(service.localCache)
      && service.stored == List(service.localCache)
    ensures service.useRemoteApi ==>
      && r == reply && service.localCache == old(service.localCache)
      && service.stored == old(service.stored)
      && store.items == (if reply.Ok? then [reply.value] + old(store.items) else old(store.items))
    ensures !store.isLoading && store.filters == old(store.filters)
    ensures store.errorMessage == old(store.errorMessage)
    ensures store.selectedProduct == old(store.selectedProduct)
  {
    var created := service.Create(payload, newId, now, reply);
    r := store.CreateProduct(created);
  }

  /** `updateProduct(id, payload)`: with the local service and a known id, the
      merged product replaces the id's entries in the store and its first entry
      in the cache; an unknown id throws and leaves both lists alone. With the
      remote service the server's answer alone decides. */
  method UpdateListing(store: NailStore, service: NailService, id: string,
                       payload: UpdatePayload, now: int, reply: Result<Product>)
    returns (r: Result<Product>)
    modifies store, service
    ensures !service.useRemoteApi && IndexOfId(old(service.localCache), id).None? ==>
      && r == Err(NotFound) && store.items == old(store.items)
      && store.selectedProduct == old(store.selectedProduct)
      && service.localCache == old(service.localCache)
      && service.stored == old(service.stored)
    ensures !service.useRemoteApi && IndexOfId(old(service.localCache), id).Some? ==>
      var i := IndexOfId(old(service.localCache), id).value;
      && r == Ok(Merge(old(service.localCache)[i], payload, now))
      && store.items == ReplaceById(old(store.items), id, r.value)
      && service.localCache == old(service.localCache)[i := r.value]
      && service.stored == List(service.localCache)
      && store.selectedProduct == None
    ensures service.useRemoteApi ==>
      && r == reply
      && service.localCache == old(service.localCache) && service.stored == old(service.stored)
      && store.items == (if reply.Ok? then ReplaceById(old(store.items), id, reply.value)
                         else old(store.items))
      && store.selectedProduct == (if reply.Ok? then None else old(store.selectedProduct))
    ensures !store.isLoading && store.filters == old(store.filters)
    ensures store.errorMessage == old(store.errorMessage)
  {
    var updated := service.Update(id, payload, now, reply);
    r := store.UpdateProduct(id, updated);
  }

  /** `removeProduct(id)`: the id leaves the store's list when the service's
      remove succeeds, and with the local service it leaves the persisted cache too. */
  method RemoveListing(store: NailStore, service: NailService, id: string, reply: Result<()>)
    returns (r: Result<()>)
    modifies store, service
    ensures !service.useRemoteApi ==>
      && r == Ok(())
      && store.items == WithoutId(old(store.items), id)
      && service.localCache == WithoutId(old(service.localCache), id)
      && service.stored == List(service.localCache)
    ensures service.useRemoteApi ==>
      && r == reply
      && service.localCache == old(service.localCache) && service.stored == old(service.stored)
      && store.items == (if reply.Ok? then WithoutId(old(store.items), id) else old(store.items))
    ensures !store.isLoading && store.filters == old(store.filters)
    ensures store.errorMessage == old(store.errorMessage)
    ensures store.selectedProduct == old(store.selectedProduct)
  {
    var removed := service.Remove(id, reply);
    r := store.RemoveProduct(id, removed);
  }

  /** `highlightProduct(id)`: the record `fetchById` finds becomes the
      selection, and what it throws propagates with the selection kept. With the
      local service, a cached id is selected and an id the cache lacks throws. */
  method Highlight(store: NailStore, service: NailService, id: string, reply: Result<Product>)
    returns (r: Result<()>)
    modifies store`selectedProduct
    ensures id == "" ==> r == Ok(()) && store.selectedProduct == old(store.selectedProduct)
    ensures id != "" && service.FetchById(id, reply).Ok? ==>
      r == Ok(()) && store.selectedProduct == Some(service.FetchById(id, reply).value)
    ensures id != "" && service.FetchById(id, reply).Err? ==>
      r == Err(service.FetchById(id, reply).error) && store.selectedProduct == old(store.selectedProduct)
    ensures id != "" && service.useRemoteApi && reply.Ok? ==>
      r == Ok(()) && store.selectedProduct == Some(reply.value)
    ensures id != "" && !service.useRemoteApi ==>
      && (r.Ok? <==> exists p :: p in service.localCache && p.id == id)
      && (r.Ok? ==> store.selectedProduct.Some? && store.selectedProduct.value.id == id
                    && store.selectedProduct.value in service.localCache)
  {
    if id == "" {
      return Ok(());
    }
    var fetched := service.FetchById(id, reply);
    r := store.HighlightProduct(id, fetched);
  }
}
