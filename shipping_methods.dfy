/**
 * The legacy shipping method and the store fields the cart reads: a rate
 * table with one row per state (numbered from 1) and three columns,
 * 0 = pickup, 1 = home, 2 = store; a missing entry means unavailable and
 * 0 means free.
 */
module ShippingMethods {
  import opened Wrappers

  type RateRow = seq<Option<int>>

  type Rates = seq<RateRow>

  datatype ShippingMethodStatus = Draft | Published | Archived

  datatype ShippingMethodPolicy = Private | Public

  datatype ShippingMethod = ShippingMethod(
    id: string,
    name: string,
    price: int,
    sourceId: string,
    storeId: string,
    rates: Option<Rates>,
    status: ShippingMethodStatus,
    policy: ShippingMethodPolicy)

  datatype Store = Store(id: string, name: string, defaultShippingRates: Option<Rates>)
}
