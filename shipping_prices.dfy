/**
 * The geo-keyed shipping price table: country code, then state code, then
 * one price per delivery type, where an absent price means the type is not
 * offered there. Keys are matched exactly.
 */
module ShippingPrices {
  import opened Wrappers

  datatype ShippingStateRates = ShippingStateRates(home: Option<int>, desk: Option<int>, pickup: Option<int>)

  /** Country code to state code to rates. */
  type ShippingPriceRates = map<string, map<string, ShippingStateRates>>

  /** A key of `ShippingStateRates`. */
  datatype ShippingPriceType = Home | Desk | Pickup

  datatype AvailableType = AvailableType(kind: ShippingPriceType, price: int)

  /** `stateRates[type]`. */
  function Rate(rates: ShippingStateRates, kind: ShippingPriceType): Option<int> {
    match kind
    case Home => rates.home
    case Desk => rates.desk
    case Pickup => rates.pickup
  }

  /** The order in which available types are listed. */
  function Rank(kind: ShippingPriceType): nat {
    match kind
    case Home => 0
    case Desk => 1
    case Pickup => 2
  }

  /** The price for `kind` at exactly this country and state, if offered. */
  function GetShippingPrice(prices: ShippingPriceRates, countryCode: string, stateCode: string, kind: ShippingPriceType): (r: Option<int>)
    ensures countryCode !in prices || stateCode !in prices[countryCode] ==> r == None
    ensures countryCode in prices && stateCode in prices[countryCode] ==> r == Rate(prices[countryCode][stateCode], kind)
  {
    if countryCode !in prices then None
    else
      var countryRates := prices[countryCode];
      if stateCode !in countryRates then None
      else Rate(countryRates[stateCode], kind)
  }

  /** Whether any delivery type is offered at this country and state. */
  function IsShippingAvailable(prices: ShippingPriceRates, countryCode: string, stateCode: string): (r: bool)
    ensures r <==> exists kind :: GetShippingPrice(prices, countryCode, stateCode, kind).Some?
  {
    if countryCode !in prices then false
    else
      var countryRates := prices[countryCode];
      if stateCode !in countryRates then false
      else
        var stateRates := countryRates[stateCode];
        assert GetShippingPrice(prices, countryCode, stateCode, Home) == stateRates.home;
        assert GetShippingPrice(prices, countryCode, stateCode, Desk) == stateRates.desk;
        assert GetShippingPrice(prices, countryCode, stateCode, Pickup) == stateRates.pickup;
        stateRates.home.Some? || stateRates.desk.Some? || stateRates.pickup.Some?
  }

  /** The offered types at this country and state with their prices, in the
      order home, desk, pickup. */
  method GetAvailableShippingTypes(prices: ShippingPriceRates, countryCode: string, stateCode: string)
    returns (available: seq<AvailableType>)
    ensures forall kind :: (exists i :: 0 <= i < |available| && available[i].kind == kind)
                           <==> GetShippingPrice(prices, countryCode, stateCode, kind).Some?
    ensures forall i :: 0 <= i < |available| ==>
              GetShippingPrice(prices, countryCode, stateCode, available[i].kind) == Some(available[i].price)
    ensures forall i, j :: 0 <= i < j < |available| ==> Rank(available[i].kind) < Rank(available[j].kind)
    ensures |available| > 0 <==> IsShippingAvailable(prices, countryCode, stateCode)
  {
    if countryCode !in prices {
      return [];
    }
    var countryRates := prices[countryCode];
    if stateCode !in countryRates {
      return [];
    }
    var stateRates := countryRates[stateCode];
    available := [];
    if stateRates.home.Some? {
      available := available + [AvailableType(Home, stateRates.home.value)];
    }
    if stateRates.desk.Some? {
      available := available + [AvailableType(Desk, stateRates.desk.value)];
    }
    if stateRates.pickup.Some? {
      available := available + [AvailableType(Pickup, stateRates.pickup.value)];
    }
    forall kind | GetShippingPrice(prices, countryCode, stateCode, kind).Some?
      ensures exists i :: 0 <= i < |available| && available[i].kind == kind
    {
      match kind
      case Home => assert available[0].kind == Home;
      case Desk => assert available[if stateRates.home.Some? then 1 else 0].kind == Desk;
      case Pickup => assert available[|available| - 1].kind == Pickup;
    }
  }

  /** Country and state codes are compared exactly: no case folding. */
  lemma CountryCodesAreCaseSensitive()
    ensures var prices := map["DZ" := map["16" := ShippingStateRates(Some(600), Some(300), Some(0))]];
            && GetShippingPrice(prices, "DZ", "16", Home) == Some(600)
            && GetShippingPrice(prices, "DZ", "16", Pickup) == Some(0)
            && GetShippingPrice(prices, "dz", "16", Home) == None
            && !IsShippingAvailable(prices, "dz", "16")
  {
    var prices := map["DZ" := map["16" := ShippingStateRates(Some(600), Some(300), Some(0))]];
    assert "dz" != "DZ" by {
      assert "dz"[0] != "DZ"[0];
    }
  }
}
