/**
 * The values the cart computes with: the price of one cart line (walking
 * the product's variant tree along a '/'-separated path), the sum over
 * the lines, the partial updates the cart merges into its state, and the
 * legacy rate-table lookups for the shipping types and shipping price.
 */
module CartPricing {
  import opened Wrappers
  import opened JsBuiltins
  import opened Products
  import SM = ShippingMethods

  // ---------------------------------------------------------------------
  // Line pricing

  /** The value of a cart item: the product, how many, and the chosen
      variant path such as "red/large". */
  datatype Line = Line(product: Product, quantity: int, variant: Option<string>)

  /** A unit price and the discount taken off it. */
  datatype Pricing = Pricing(price: int, discount: int)

  /** `options.find(o => o.name === name)`: the first option with that name. */
  function FindOption(options: seq<VariantOption>, name: string): (r: Option<VariantOption>)
    ensures r.None? <==> forall k :: 0 <= k < |options| ==> options[k].name != name
    ensures r.Some? ==> exists k :: 0 <= k < |options| && options[k] == r.value && FirstNamed(options, name, k)
  {
    if options == [] then None
    else if options[0].name == name then
      assert FirstNamed(options, name, 0);
      Some(options[0])
    else
      var r := FindOption(options[1..], name);
      if r.Some? then
        var k :| 0 <= k < |options[1..]| && options[1..][k] == r.value && FirstNamed(options[1..], name, k);
        assert FirstNamed(options, name, k + 1);
        r
      else
        r
  }

  /** `options[k]` is named `name` and no earlier option is. */
  predicate FirstNamed(options: seq<VariantOption>, name: string, k: int)
    requires 0 <= k < |options|
  {
    options[k].name == name && forall j :: 0 <= j < k ==> options[j].name != name
  }

  /** The loop of `getItemTotal`: each path segment selects the option of
      that name at the current level, whose own price and discount (when
      set) replace the running ones; the walk stops at the end of the
      path, at a level without options tree, or at a segment that names
      no option. */
  function Walk(level: Option<ProductVariant>, parts: seq<string>, acc: Pricing): Pricing
    decreases |parts|
  {
    if parts == [] || level.None? then acc
    else match FindOption(level.value.options, parts[0])
      case None => acc
      case Some(o) => Walk(o.child, parts[1..], Pricing(o.price.GetOr(acc.price), o.discount.GetOr(acc.discount)))
  }

  /** The options the path selects, in order, before the walk stops. */
  function MatchedOptions(level: Option<ProductVariant>, parts: seq<string>): (ms: seq<VariantOption>)
    ensures |ms| <= |parts|
    ensures forall i :: 0 <= i < |ms| ==> ms[i].name == parts[i]
    decreases |parts|
  {
    if parts == [] || level.None? then []
    else match FindOption(level.value.options, parts[0])
      case None => []
      case Some(o) => [o] + MatchedOptions(o.child, parts[1..])
  }

  function Prices(ms: seq<VariantOption>): (r: seq<Option<int>>)
    ensures |r| == |ms|
  {
    if ms == [] then [] else [ms[0].price] + Prices(ms[1..])
  }

  function Discounts(ms: seq<VariantOption>): (r: seq<Option<int>>)
    ensures |r| == |ms|
  {
    if ms == [] then [] else [ms[0].discount] + Discounts(ms[1..])
  }

  /** The last value that is set, or `default` when none is. */
  function LastSet(values: seq<Option<int>>, default: int): int {
    if values == [] then default
    else if values[|values| - 1].Some? then values[|values| - 1].value
    else LastSet(values[..|values| - 1], default)
  }

  lemma {:induction false} LastSetCons(v: Option<int>, values: seq<Option<int>>, default: int)
    ensures LastSet([v] + values, default) == LastSet(values, v.GetOr(default))
    decreases |values|
  {
    if values != [] {
      var all := [v] + values;
      assert all[|all| - 1] == values[|values| - 1];
      assert all[..|all| - 1] == [v] + values[..|values| - 1];
      LastSetCons(v, values[..|values| - 1], default);
    }
  }

  /** The walk's result, stated without the loop: the price is the last
      price set among the selected options (the product's price when none
      sets one), and likewise for the discount. */
  lemma {:induction false} WalkIsLastSet(level: Option<ProductVariant>, parts: seq<string>, acc: Pricing)
    ensures Walk(level, parts, acc) == Pricing(
      LastSet(Prices(MatchedOptions(level, parts)), acc.price),
      LastSet(Discounts(MatchedOptions(level, parts)), acc.discount))
    decreases |parts|
  {
    if parts != [] && level.Some? {
      match FindOption(level.value.options, parts[0])
      case None =>
      case Some(o) =>
        var rest := MatchedOptions(o.child, parts[1..]);
        var ms := [o] + rest;
        assert ms[1..] == rest;
        WalkIsLastSet(o.child, parts[1..], Pricing(o.price.GetOr(acc.price), o.discount.GetOr(acc.discount)));
        LastSetCons(o.price, Prices(rest), acc.price);
        LastSetCons(o.discount, Discounts(rest), acc.discount);
    }
  }

  /** Once a segment fails to select an option, later segments are ignored. */
  lemma {:induction false} WalkStopsAtMiss(level: Option<ProductVariant>, parts: seq<string>, extra: seq<string>)
    requires |MatchedOptions(level, parts)| < |parts|
    ensures MatchedOptions(level, parts + extra) == MatchedOptions(level, parts)
    decreases |parts|
  {
    if level.Some? {
      assert (parts + extra)[0] == parts[0];
      match FindOption(level.value.options, parts[0])
      case None =>
      case Some(o) =>
        assert (parts + extra)[1..] == parts[1..] + extra;
        WalkStopsAtMiss(o.child, parts[1..], extra);
    }
  }

  /** The product's own price, and its discount or 0. */
  function BasePricing(p: Product): Pricing {
    Pricing(p.price, p.discount.GetOr(0))
  }

  /** The pricing of a line: the walk runs only for a non-empty variant path. */
  function LinePricing(line: Line): Pricing {
    if line.variant.Some? && line.variant.value != "" then
      Walk(line.product.variant, Split(line.variant.value, '/'), BasePricing(line.product))
    else
      BasePricing(line.product)
  }

  /** `unit * count`, written as repeated addition so that sums of line
      totals stay linear arithmetic for the verifier (`TimesIsProduct`). */
  function Times(unit: int, count: int): int
    decreases if count < 0 then -count else count
  {
    if count == 0 then 0
    else if count > 0 then Times(unit, count - 1) + unit
    else Times(unit, count + 1) - unit
  }

  lemma {:induction false} TimesIsProduct(unit: int, count: int)
    ensures Times(unit, count) == unit * count
    decreases if count < 0 then -count else count
  {
    if count > 0 {
      TimesIsProduct(unit, count - 1);
    } else if count < 0 {
      TimesIsProduct(unit, count + 1);
    }
  }

  /** `(price - discount) * quantity`. */
  function LineTotal(line: Line): int {
    Times(LinePricing(line).price - LinePricing(line).discount, line.quantity)
  }

  /** A line is worth its quantity times the unit price after discount,
      where the options selected along the path override the product's. */
  lemma LineTotalMeaning(line: Line)
    ensures var parts := if line.variant.Some? && line.variant.value != "" then Split(line.variant.value, '/') else [];
            var ms := MatchedOptions(line.product.variant, parts);
            LineTotal(line)
            == (LastSet(Prices(ms), line.product.price) - LastSet(Discounts(ms), line.product.discount.GetOr(0))) * line.quantity
  {
    TimesIsProduct(LinePricing(line).price - LinePricing(line).discount, line.quantity);
    if line.variant.Some? && line.variant.value != "" {
      WalkIsLastSet(line.product.variant, Split(line.variant.value, '/'), BasePricing(line.product));
    }
  }

  /** A line's total is linear in its quantity, so merging two quantities
      of the same product and variant adds their totals. */
  lemma LineTotalAddsQuantities(line: Line, more: int)
    ensures LineTotal(line.(quantity := line.quantity + more)) == LineTotal(line) + LineTotal(line.(quantity := more))
  {
    var p := LinePricing(line);
    var unit := p.price - p.discount;
    assert LinePricing(line.(quantity := line.quantity + more)) == p;
    assert LinePricing(line.(quantity := more)) == p;
    TimesIsProduct(unit, line.quantity + more);
    TimesIsProduct(unit, line.quantity);
    TimesIsProduct(unit, more);
    assert unit * (line.quantity + more) == unit * line.quantity + unit * more;
  }

  lemma SplitExamples()
    ensures Split("red/large", '/') == ["red", "large"]
    ensures Split("blue/large", '/') == ["blue", "large"]
  {
    assert "red/large" == "red" + ['/'] + "large";
    assert "blue/large" == "blue" + ['/'] + "large";
    SplitTwo("red", "large", '/');
    SplitTwo("blue", "large", '/');
  }

  /** An example product of price 100 with options "red" (price 120)
      and, below it, "large" (discount 10). */
  const LargeOption := VariantOption("large", None, Some(10), None)
  const RedOption := VariantOption("red", Some(120), None, Some(ProductVariant("size", [LargeOption])))
  const ExampleProduct := Product("p1", 100, None, Some(ProductVariant("color", [RedOption])))

  lemma ExampleFinds()
    ensures FindOption([RedOption], "red") == Some(RedOption)
    ensures FindOption([LargeOption], "large") == Some(LargeOption)
    ensures FindOption([RedOption], "blue") == None
  {
  }

  lemma ExampleWalks()
    ensures Walk(ExampleProduct.variant, ["red", "large"], Pricing(100, 0)) == Pricing(120, 10)
    ensures Walk(ExampleProduct.variant, ["blue", "large"], Pricing(100, 0)) == Pricing(100, 0)
  {
    ExampleFinds();
    assert ["red", "large"][1..] == ["large"];
    assert ["large"][1..] == [];
    assert Walk(RedOption.child, ["large"], Pricing(120, 0)) == Pricing(120, 10);
  }

  /** Two of "red/large" cost 2 * (120 - 10); a path whose first segment
      names no option is charged the base price. */
  lemma VariantPricingExample()
    ensures LineTotal(Line(ExampleProduct, 2, Some("red/large"))) == 220
    ensures LineTotal(Line(ExampleProduct, 2, Some("blue/large"))) == 200
  {
    SplitExamples();
    ExampleWalks();
    assert LinePricing(Line(ExampleProduct, 2, Some("red/large"))) == Pricing(120, 10);
    assert LinePricing(Line(ExampleProduct, 2, Some("blue/large"))) == Pricing(100, 0);
  }

  /** The sum of `f` over `xs`, first to last. */
  function SumBy<T>(xs: seq<T>, f: T -> int): int {
    if xs == [] then 0 else SumBy(xs[..|xs| - 1], f) + f(xs[|xs| - 1])
  }

  /** The subtotal of a sequence of lines. */
  function Sum(lines: seq<Line>): int {
    SumBy(lines, LineTotal)
  }

  lemma {:induction false} SumAppend<T>(a: seq<T>, b: seq<T>, f: T -> int)
    ensures SumBy(a + b, f) == SumBy(a, f) + SumBy(b, f)
    decreases |b|
  {
    if b == [] {
      assert a + b == a;
    } else {
      var ab := a + b;
      assert ab[..|ab| - 1] == a + b[..|b| - 1];
      assert ab[|ab| - 1] == b[|b| - 1];
      SumAppend(a, b[..|b| - 1], f);
    }
  }

  lemma SumSingleton<T>(x: T, f: T -> int)
    ensures SumBy([x], f) == f(x)
  {
    assert [x][..0] == [];
  }

  /** Removing an element takes exactly its value off the sum. */
  lemma {:induction false} SumRemoveAt<T>(xs: seq<T>, i: int, f: T -> int)
    requires 0 <= i < |xs|
    ensures SumBy(xs[..i] + xs[i + 1..], f) == SumBy(xs, f) - f(xs[i])
  {
    var rest := xs[..i] + xs[i + 1..];
    if i == |xs| - 1 {
      assert rest == xs[..i];
    } else {
      var init := xs[..|xs| - 1];
      SumRemoveAt(init, i, f);
      assert rest[..|rest| - 1] == init[..i] + init[i + 1..];
      assert rest[|rest| - 1] == xs[|xs| - 1];
    }
  }

  /** Replacing an element changes the sum by the difference of their values. */
  lemma SumReplaceAt<T>(xs: seq<T>, i: int, x: T, f: T -> int)
    requires 0 <= i < |xs|
    ensures SumBy(xs[i := x], f) == SumBy(xs, f) - f(xs[i]) + f(x)
  {
    var front, back := xs[..i], xs[i + 1..];
    assert xs[i := x] == (front + [x]) + back;
    assert xs == (front + [xs[i]]) + back;
    SumAppend(front + [x], back, f);
    SumAppend(front, [x], f);
    SumAppend(front + [xs[i]], back, f);
    SumAppend(front, [xs[i]], f);
    SumSingleton(x, f);
    SumSingleton(xs[i], f);
  }

  /** Only the values of the elements present matter. */
  lemma {:induction false} SumByAgree<T>(xs: seq<T>, f: T -> int, g: T -> int)
    requires forall j :: 0 <= j < |xs| ==> f(xs[j]) == g(xs[j])
    ensures SumBy(xs, f) == SumBy(xs, g)
  {
    if xs != [] {
      SumByAgree(xs[..|xs| - 1], f, g);
    }
  }

  /** Revaluing the element at `i` alone changes the sum by the difference
      of its two values. */
  lemma {:induction false} SumByChangeAt<T>(xs: seq<T>, i: nat, f: T -> int, g: T -> int)
    requires i < |xs|
    requires forall j :: 0 <= j < |xs| && j != i ==> f(xs[j]) == g(xs[j])
    ensures SumBy(xs, g) == SumBy(xs, f) - f(xs[i]) + g(xs[i])
  {
    var init := xs[..|xs| - 1];
    if i == |xs| - 1 {
      SumByAgree(init, f, g);
    } else {
      SumByChangeAt(init, i, f, g);
    }
  }

  // ---------------------------------------------------------------------
  // Partial updates: the object spread `{ ...current, ...patch }`, where
  // a field the patch carries (`Some`) replaces the current one.

  datatype ItemPatch = ItemPatch(product: Option<Product>, quantity: Option<int>, variant: Option<Option<string>>)

  function MergeLine(line: Line, patch: ItemPatch): (r: Line)
    ensures r.product == (if patch.product.Some? then patch.product.value else line.product)
    ensures r.quantity == (if patch.quantity.Some? then patch.quantity.value else line.quantity)
    ensures r.variant == (if patch.variant.Some? then patch.variant.value else line.variant)
  {
    Line(patch.product.GetOr(line.product), patch.quantity.GetOr(line.quantity), patch.variant.GetOr(line.variant))
  }

  /** Applying the same patch twice is applying it once; an empty patch
      changes nothing. */
  lemma MergeLineIdempotent(line: Line, patch: ItemPatch)
    ensures MergeLine(MergeLine(line, patch), patch) == MergeLine(line, patch)
    ensures MergeLine(line, ItemPatch(None, None, None)) == line
  {
  }

  /** The cart's shipping types: delivery to the closest desk, to the
      home, or to the store. */
  datatype CartShippingType = Pickup | Home | Store

  /** The shipping address; every text field may be null. */
  datatype ShippingAddress = ShippingAddress(
    name: Option<string>,
    phone: Option<string>,
    city: Option<string>,
    state: Option<string>,
    street: Option<string>,
    kind: CartShippingType)

  /** The address a new cart starts with: all fields null, pickup. */
  const DefaultAddress := ShippingAddress(None, None, None, None, None, Pickup)

  datatype AddressPatch = AddressPatch(
    name: Option<Option<string>>,
    phone: Option<Option<string>>,
    city: Option<Option<string>>,
    state: Option<Option<string>>,
    street: Option<Option<string>>,
    kind: Option<CartShippingType>)

  function MergeAddress(a: ShippingAddress, patch: AddressPatch): (r: ShippingAddress)
    ensures r.name == (if patch.name.Some? then patch.name.value else a.name)
    ensures r.phone == (if patch.phone.Some? then patch.phone.value else a.phone)
    ensures r.city == (if patch.city.Some? then patch.city.value else a.city)
    ensures r.state == (if patch.state.Some? then patch.state.value else a.state)
    ensures r.street == (if patch.street.Some? then patch.street.value else a.street)
    ensures r.kind == (if patch.kind.Some? then patch.kind.value else a.kind)
  {
    ShippingAddress(patch.name.GetOr(a.name), patch.phone.GetOr(a.phone), patch.city.GetOr(a.city),
      patch.state.GetOr(a.state), patch.street.GetOr(a.street), patch.kind.GetOr(a.kind))
  }

  datatype MethodPatch = MethodPatch(
    id: Option<string>,
    name: Option<string>,
    price: Option<int>,
    sourceId: Option<string>,
    storeId: Option<string>,
    rates: Option<Option<SM.Rates>>,
    status: Option<SM.ShippingMethodStatus>,
    policy: Option<SM.ShippingMethodPolicy>)

  function MergeMethod(m: SM.ShippingMethod, patch: MethodPatch): (r: SM.ShippingMethod)
    ensures r.id == (if patch.id.Some? then patch.id.value else m.id)
    ensures r.name == (if patch.name.Some? then patch.name.value else m.name)
    ensures r.price == (if patch.price.Some? then patch.price.value else m.price)
    ensures r.sourceId == (if patch.sourceId.Some? then patch.sourceId.value else m.sourceId)
    ensures r.storeId == (if patch.storeId.Some? then patch.storeId.value else m.storeId)
    ensures r.rates == (if patch.rates.Some? then patch.rates.value else m.rates)
    ensures r.status == (if patch.status.Some? then patch.status.value else m.status)
    ensures r.policy == (if patch.policy.Some? then patch.policy.value else m.policy)
  {
    SM.ShippingMethod(patch.id.GetOr(m.id), patch.name.GetOr(m.name), patch.price.GetOr(m.price),
      patch.sourceId.GetOr(m.sourceId), patch.storeId.GetOr(m.storeId), patch.rates.GetOr(m.rates),
      patch.status.GetOr(m.status), patch.policy.GetOr(m.policy))
  }

  // ---------------------------------------------------------------------
  // Legacy rate table

  /** The state's number as `parseInt` reads the address's state field;
      a null state reads as `NaN`. */
  function StateNumber(state: Option<string>, radix: Radix): Option<int> {
    if state.None? then None else ParseInt(state.value, radix)
  }

  /** `rates[n - 1]`: the row of state `n`; `NaN`, 0, a negative or a too
      large number selects no row. */
  function StateRow(rates: SM.Rates, n: Option<int>): (row: Option<SM.RateRow>)
    ensures row.Some? <==> n.Some? && 1 <= n.value <= |rates|
    ensures row.Some? ==> row.value == rates[n.value - 1]
  {
    if n.Some? && 1 <= n.value <= |rates| then Some(rates[n.value - 1]) else None
  }

  /** `row[c]`: a missing column, like a null entry, is unavailable. */
  function Entry(row: SM.RateRow, c: nat): Option<int> {
    if c < |row| then row[c] else None
  }

  /** The column of the rate table that lists a shipping type. */
  function Column(t: CartShippingType): (c: nat)
    ensures c < 3
    ensures (c == 0) == (t == Pickup) && (c == 1) == (t == Home)
  {
    match t
    case Pickup => 0
    case Home => 1
    case Store => 2
  }

  /** Whether `method` offers shipping type `t` to `state`: it has a rate
      table, the state (read with the default radix) selects a row, and
      the row's entry for `t` is a number, 0 included. */
  predicate Offers(shippingMethod: SM.ShippingMethod, state: Option<string>, t: CartShippingType) {
    && shippingMethod.rates.Some?
    && var row := StateRow(shippingMethod.rates.value, StateNumber(state, DefaultRadix));
    && row.Some?
    && Entry(row.value, Column(t)).Some?
  }

  /** The types a rate row offers, in column order. */
  function RowTypes(row: SM.RateRow): (types: seq<CartShippingType>)
    ensures forall t :: t in types <==> Entry(row, Column(t)).Some?
    ensures forall i, j :: 0 <= i < j < |types| ==> Column(types[i]) < Column(types[j])
  {
    (if Entry(row, 0).Some? then [Pickup] else [])
    + (if Entry(row, 1).Some? then [Home] else [])
    + (if Entry(row, 2).Some? then [Store] else [])
  }

  /** Once the state selects a row, the types that row offers are the
      offered types. */
  lemma OffersOfStateRow(shippingMethod: SM.ShippingMethod, state: Option<string>, row: SM.RateRow, types: seq<CartShippingType>)
    requires shippingMethod.rates.Some?
    requires StateRow(shippingMethod.rates.value, StateNumber(state, DefaultRadix)) == Some(row)
    requires types == RowTypes(row)
    ensures forall t :: t in types <==> Offers(shippingMethod, state, t)
  {
  }

  /** Without rates, or when the state selects no row, nothing is offered. */
  lemma NoRowNoOffers(shippingMethod: SM.ShippingMethod, state: Option<string>)
    requires shippingMethod.rates.None?
      || StateRow(shippingMethod.rates.value, StateNumber(state, DefaultRadix)).None?
    ensures forall t :: !Offers(shippingMethod, state, t)
  {
  }

  /** The shipping price of the cart: 0 without a method; the method's flat
      price when the state is null or empty; otherwise the state's row
      (read in decimal) at the pickup column for pickup and at the home
      column for every other type, 0 when the row or entry is missing. */
  function ShippingPriceOf(shippingMethod: Option<SM.ShippingMethod>, address: ShippingAddress): int {
    if shippingMethod.None? then 0
    else if address.state.None? || address.state.value == "" then shippingMethod.value.price
    else
      var row := if shippingMethod.value.rates.Some?
        then StateRow(shippingMethod.value.rates.value, StateNumber(address.state, Decimal))
        else None;
      if row.None? then 0
      else Entry(row.value, if address.kind == Pickup then 0 else 1).GetOr(0)
  }

  /** No method ships for free; no state means the flat price. */
  lemma ShippingPriceBaseCases(shippingMethod: Option<SM.ShippingMethod>, address: ShippingAddress)
    ensures shippingMethod.None? ==> ShippingPriceOf(shippingMethod, address) == 0
    ensures shippingMethod.Some? && (address.state.None? || address.state == Some("")) ==>
      ShippingPriceOf(shippingMethod, address) == shippingMethod.value.price
  {
  }

  /** Delivery to the store is charged the home rate, not the store column. */
  lemma StoreChargedAsHome(shippingMethod: Option<SM.ShippingMethod>, address: ShippingAddress)
    requires address.kind == Store
    ensures ShippingPriceOf(shippingMethod, address) == ShippingPriceOf(shippingMethod, address.(kind := Home))
  {
  }

  /** For pickup and home, with a state whose text has no `0x` prefix, the
      price is the rate of an offered type and 0 for one not offered. */
  lemma PriceMatchesOffer(shippingMethod: SM.ShippingMethod, address: ShippingAddress)
    requires address.kind != Store
    requires address.state.Some? && address.state.value != ""
    requires !HexPrefixed(Unsigned(TrimStart(address.state.value)))
    ensures Offers(shippingMethod, address.state, address.kind) ==>
      ShippingPriceOf(Some(shippingMethod), address)
      == Entry(StateRow(shippingMethod.rates.value, StateNumber(address.state, DefaultRadix)).value, Column(address.kind)).value
    ensures !Offers(shippingMethod, address.state, address.kind) ==> ShippingPriceOf(Some(shippingMethod), address) == 0
  {
    ParseIntRadixAgree(address.state.value);
  }

  /** An address patch applied twice acts once; an empty patch changes
      nothing. */
  lemma MergeAddressIdempotent(a: ShippingAddress, patch: AddressPatch)
    ensures MergeAddress(MergeAddress(a, patch), patch) == MergeAddress(a, patch)
    ensures MergeAddress(a, AddressPatch(None, None, None, None, None, None)) == a
  {
  }

  /** Editing the name, phone, city or street of the address leaves the
      offered types and the shipping price alone: only the state and the
      type are read. */
  lemma ContactEditKeepsShipping(shippingMethod: Option<SM.ShippingMethod>, a: ShippingAddress, patch: AddressPatch)
    requires patch.state.None? && patch.kind.None?
    ensures ShippingPriceOf(shippingMethod, MergeAddress(a, patch)) == ShippingPriceOf(shippingMethod, a)
    ensures forall t :: shippingMethod.Some? ==>
      (Offers(shippingMethod.value, MergeAddress(a, patch).state, t) <==> Offers(shippingMethod.value, a.state, t))
  {
  }

  /** A method patch applied twice acts once; an empty patch changes
      nothing. */
  lemma MergeMethodIdempotent(m: SM.ShippingMethod, patch: MethodPatch)
    ensures MergeMethod(MergeMethod(m, patch), patch) == MergeMethod(m, patch)
    ensures MergeMethod(m, MethodPatch(None, None, None, None, None, None, None, None)) == m
  {
  }

  /** Editing anything of the method but its flat price and its rate table
      leaves the offered types and the shipping price alone. */
  lemma MethodEditKeepsShipping(m: SM.ShippingMethod, a: ShippingAddress, patch: MethodPatch)
    requires patch.price.None? && patch.rates.None?
    ensures ShippingPriceOf(Some(MergeMethod(m, patch)), a) == ShippingPriceOf(Some(m), a)
    ensures forall t :: Offers(MergeMethod(m, patch), a.state, t) <==> Offers(m, a.state, t)
  {
  }

  lemma DigitStartIsNotTrimmed(s: string)
    requires s != [] && IsDigit(s[0])
    ensures TrimStart(s) == s
  {
    WhitespaceIsNotDigit(s[0]);
  }

  lemma ParseHexStateExample()
    ensures ParseInt("0x2", DefaultRadix) == Some(2)
  {
    var s := "0x2";
    DigitStartIsNotTrimmed(s);
    assert Unsigned(s) == s && HexPrefixed(s);
    assert s[2..] == "2";
    LeadingDigitsOfDigits("2", 16);
    assert DigitsValue("2", 16) == 2 by {
      assert "2"[..0] == [];
    }
  }

  lemma ParseDecimalStateExample()
    ensures ParseInt("0x2", Decimal) == Some(0)
  {
    var s := "0x2";
    DigitStartIsNotTrimmed(s);
    assert Unsigned(s) == s;
    assert LeadingDigits(s, 10) == "0" by {
      assert LeadingDigits(s[1..], 10) == [];
    }
    assert DigitsValue("0", 10) == 0 by {
      assert "0"[..0] == [];
    }
  }

  lemma ParseOneExample()
    ensures ParseInt("1", DefaultRadix) == Some(1)
  {
    ParseDecimalString(1, DefaultRadix);
    assert DecimalString(1) == "1";
  }

  /** An example legacy method with a pickup rate for states 1 and 2. */
  const ExampleMethod := SM.ShippingMethod("m", "legacy", 300, "m", "s", Some([[Some(100)], [Some(200)]]),
                                           SM.Published, SM.Public)

  /** The radix difference: the state "0x2" selects the second row for the
      offered types, while the price reads it as 0 and charges nothing. */
  lemma RadixMismatchExample()
    ensures Offers(ExampleMethod, Some("0x2"), Pickup)
    ensures ShippingPriceOf(Some(ExampleMethod), DefaultAddress.(state := Some("0x2"))) == 0
  {
    ParseHexStateExample();
    ParseDecimalStateExample();
    assert StateNumber(Some("0x2"), DefaultRadix) == Some(2);
    assert StateNumber(Some("0x2"), Decimal) == Some(0);
  }

  /** A method whose only row is `[0, null, 50]`. */
  const ZeroRowMethod := ExampleMethod.(rates := Some([[Some(0), None, Some(50)]]))

  /** Free pickup is offered (0 is not "missing"), home is not, and the
      store type is. */
  lemma ZeroRateIsOffered()
    ensures Offers(ZeroRowMethod, Some("1"), Pickup)
    ensures !Offers(ZeroRowMethod, Some("1"), Home)
    ensures Offers(ZeroRowMethod, Some("1"), Store)
  {
    ParseOneExample();
    var row := [Some(0), None, Some(50)];
    OffersInRow(ZeroRowMethod, Some("1"), 1, Pickup);
    OffersInRow(ZeroRowMethod, Some("1"), 1, Home);
    OffersInRow(ZeroRowMethod, Some("1"), 1, Store);
    assert ZeroRowMethod.rates.value[0] == row;
  }

  /** Once the state selects row `n`, a type is offered iff its column in
      that row has a rate. */
  lemma OffersInRow(shippingMethod: SM.ShippingMethod, state: Option<string>, n: int, t: CartShippingType)
    requires shippingMethod.rates.Some? && StateNumber(state, DefaultRadix) == Some(n)
    requires 1 <= n <= |shippingMethod.rates.value|
    ensures Offers(shippingMethod, state, t) <==> Entry(shippingMethod.rates.value[n - 1], Column(t)).Some?
  {
  }

  /** What `setShippingMethod` accepts: a shipping method, or a store whose
      default rates stand in for one. */
  datatype ShippingSource = FromMethod(shippingMethod: SM.ShippingMethod) | FromStore(store: SM.Store)

  /** The shipping method built from a store's default rates. */
  function MethodFromStore(store: SM.Store, rates: SM.Rates): SM.ShippingMethod {
    SM.ShippingMethod(store.id, store.name, 0, store.id, store.id, Some(rates), SM.Published, SM.Public)
  }
}
