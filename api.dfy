/** The catalog types of the shop's API: regions, per-region prices and items. */
module Api {
  import opened Numbers

  /** The six pricing regions */
  datatype Region = US | EU | IN | CA | AU | XX

  /** The string code of a region, as the API and the stores spell it */
  function Code(r: Region): string {
    match r
    case US => "US"
    case EU => "EU"
    case IN => "IN"
    case CA => "CA"
    case AU => "AU"
    case XX => "XX"
  }

  /** `REGIONS`, in the API's order */
  const Regions: seq<Region> := [US, EU, IN, CA, AU, XX]

  /** A price table with one entry per region; an entry may be non-finite */
  datatype Prices = Prices(us: Num, eu: Num, ind: Num, ca: Num, au: Num, xx: Num)

  /** `item.prices[region]` */
  function PriceIn(p: Prices, r: Region): Num {
    match r
    case US => p.us
    case EU => p.eu
    case IN => p.ind
    case CA => p.ca
    case AU => p.au
    case XX => p.xx
  }

  /** A catalog item, reduced to the fields the cart arithmetic reads */
  datatype ShopItem = ShopItem(id: int, title: string, prices: Prices)

  lemma RegionCodesDistinct(r: Region, s: Region)
    ensures Code(r) == Code(s) <==> r == s
  {
  }
}
