/** The catalog's records (src/modules/nails/types.ts): a nail product, its three
    enumerated attributes, and the payloads of create and update. */
module NailTypes {
  import opened Shared
  import Seqs

  /** 'ピンク' | 'ブルー' | 'レッド' | 'ニュートラル' | 'ゴールド' | 'ブラック' */
  datatype Color = Pink | Blue | Red | Neutral | Gold | Black

  /** '春' | '夏' | '秋' | '冬' | 'オールシーズン' */
  datatype Season = Spring | Summer | Autumn | Winter | AllSeason

  /** 'フラワー' | 'グラデーション' | 'マーブル' | 'シンプル' | 'ビジュ' | 'アート' */
  datatype Design = Flower | Gradation | Marble | Simple | Bijou | Art

  /** A catalog entry. Prices are integers (yen); the two time stamps are the
      milliseconds that `new Date(...)` reads from their ISO strings. */
  datatype Product = Product(
    id: string,
    title: string,
    description: string,
    price: int,
    color: Color,
    season: Season,
    design: Design,
    image: string,
    createdAt: int,
    updatedAt: Option<int>)

  /** `CreateNailPayload`: a product without id, createdAt and updatedAt. */
  datatype CreatePayload = CreatePayload(
    title: string,
    description: string,
    price: int,
    color: Color,
    season: Season,
    design: Design,
    image: string)

  /** `UpdateNailPayload`: every field of `CreatePayload`, each one optional. */
  datatype UpdatePayload = UpdatePayload(
    title: Option<string>,
    description: Option<string>,
    price: Option<int>,
    color: Option<Color>,
    season: Option<Season>,
    design: Option<Design>,
    image: Option<string>)

  /** `findIndex((item) => item.id === id)`, with None for -1. */
  function IndexOfId(items: seq<Product>, id: string): (r: Option<nat>)
    ensures r.Some? ==> r.value < |items| && items[r.value].id == id
    ensures r.Some? ==> forall j :: 0 <= j < r.value ==> items[j].id != id
    ensures r.None? <==> forall j :: 0 <= j < |items| ==> items[j].id != id
  {
    if items == [] then None
    else if items[0].id == id then Some(0)
    else match IndexOfId(items[1..], id)
      case None => None
      case Some(k) => Some(k + 1)
  }

  /** `find((item) => item.id === id)`. */
  function FindById(items: seq<Product>, id: string): (r: Option<Product>)
    ensures r.Some? ==> r.value in items && r.value.id == id
    ensures r.Some? ==>
      exists k :: 0 <= k < |items| && items[k] == r.value && (forall j :: 0 <= j < k ==> items[j].id != id)
    ensures r.None? <==> forall p :: p in items ==> p.id != id
  {
    match IndexOfId(items, id)
    case None => None
    case Some(k) => Some(items[k])
  }

  function Id(p: Product): string
  {
    p.id
  }

  function OtherId(id: string): Product -> bool
  {
    (p: Product) => p.id != id
  }

  /** `items.filter((item) => item.id !== id)`. */
  function WithoutId(items: seq<Product>, id: string): (r: seq<Product>)
    ensures forall p :: p in r <==> p in items && p.id != id
  {
    Seqs.Filter(items, OtherId(id))
  }

  /** Removing an id keeps the other entries in order, each as often as before. */
  lemma WithoutIdKeepsOthers(items: seq<Product>, id: string, p: Product)
    ensures Seqs.IsSubsequence(WithoutId(items, id), items)
    ensures multiset(WithoutId(items, id))[p] == if p.id != id then multiset(items)[p] else 0
  {
    Seqs.FilterIsSubsequence(items, OtherId(id));
    Seqs.FilterCounts(items, OtherId(id), p);
  }

  /** Removing an id keeps the remaining ids distinct. */
  lemma WithoutIdKeepsIdsDistinct(items: seq<Product>, id: string)
    requires Seqs.KeysDistinct(items, Id)
    ensures Seqs.KeysDistinct(WithoutId(items, id), Id)
  {
    Seqs.FilterKeysDistinct(items, OtherId(id), Id);
  }
}
