/** The plugin's handler for `onRadicalMartPrepareProductPrice`: it picks the
    largest discount configured for a user group the shopper belongs to,
    writes it into the price as a percentage, lets RadicalMart recalculate
    the price and then re-derives the price's fields. The application, the
    identity and the plugin parameters are inputs of the handler here. */
module Wishboxgroupdiscount {
  import opened PhpValues
  import opened PriceKeys
  import opened Collaborators
  import opened PriceFields

  /** One row of the plugin parameter `userGroupDiscounts`. */
  datatype GroupDiscount = GroupDiscount(userGroupId: string, discount: nat)

  // ---------------------------------------------------------------------
  // The groups the price is restricted to

  /** The price carries a non-empty list of user groups: `isset`, `is_array`
      and a non-zero `count`. */
  predicate HasGroupList(price: Record)
  {
    IsSet(price, UserGroupIds) && price[UserGroupIds].List? && |price[UserGroupIds].items| > 0
  }

  /** The price's group list, or nothing when it has none. */
  function PriceGroupIds(price: Record): seq<Value>
  {
    if UserGroupIds in price && price[UserGroupIds].List? then price[UserGroupIds].items else []
  }

  /** `strcasecmp($v, $u) == 0` for some authorised group `$u` of the user. */
  predicate MatchesSomeGroup(v: Value, userGroups: seq<string>)
  {
    exists u :: u in userGroups && EqualsIgnoringCase(ToPhpString(v), u)
  }

  /** `array_uintersect($priceUserGroupIds, $userGroupIds, "strcasecmp")`:
      the price's own entries that equal some group of the user, ignoring
      case, each as often as the price lists it. */
  function GroupIds(priceIds: seq<Value>, userGroups: seq<string>): (g: seq<Value>)
    ensures forall v :: v in g <==> v in priceIds && MatchesSomeGroup(v, userGroups)
    ensures forall v :: multiset(g)[v] == if MatchesSomeGroup(v, userGroups) then multiset(priceIds)[v] else 0
    decreases |priceIds|
  {
    if priceIds == [] then []
    else
      assert priceIds == [priceIds[0]] + priceIds[1..];
      var rest := GroupIds(priceIds[1..], userGroups);
      if MatchesSomeGroup(priceIds[0], userGroups) then [priceIds[0]] + rest else rest
  }

  // ---------------------------------------------------------------------
  // The configured discounts

  /** `in_array($needle, $haystack)`, with PHP's loose comparison. */
  predicate InArray(needle: string, haystack: seq<Value>)
  {
    exists v :: v in haystack && LooseEquals(needle, v)
  }

  /** The discounts of the rows of `config` whose group is in `groupIds`, in
      the order of `config`. */
  function Matching(config: seq<GroupDiscount>, groupIds: seq<Value>): (ds: seq<nat>)
    ensures forall d :: d in ds <==> exists e :: e in config && InArray(e.userGroupId, groupIds) && e.discount == d
    ensures |ds| <= |config|
    decreases |config|
  {
    if config == [] then []
    else
      var init := config[..|config| - 1];
      var e := config[|config| - 1];
      assert config == init + [e];
      var ds := Matching(init, groupIds);
      if InArray(e.userGroupId, groupIds) then ds + [e.discount] else ds
  }

  /** `max($discounts)`. */
  function Max(ds: seq<nat>): (m: nat)
    requires ds != []
    ensures m in ds && forall d :: d in ds ==> d <= m
    decreases |ds|
  {
    if |ds| == 1 then ds[0]
    else
      assert ds == [ds[0]] + ds[1..];
      var m := Max(ds[1..]);
      if ds[0] >= m then ds[0] else m
  }

  /** A user who shares no group with the price matches no row, so the
      emptiness test on the intersection never decides anything the test on
      the collected discounts would not. */
  lemma {:induction false} NoGroupsNoMatch(config: seq<GroupDiscount>)
    ensures Matching(config, []) == []
    decreases |config|
  {
    if config != [] {
      NoGroupsNoMatch(config[..|config| - 1]);
    }
  }

  /** The discount applied is one of the matching rows' discounts and at
      least every other one. */
  lemma BestDiscount(config: seq<GroupDiscount>, groupIds: seq<Value>)
    requires Matching(config, groupIds) != []
    ensures exists e :: e in config && InArray(e.userGroupId, groupIds) && e.discount == Max(Matching(config, groupIds))
    ensures forall e :: e in config && InArray(e.userGroupId, groupIds) ==> e.discount <= Max(Matching(config, groupIds))
  {
    var ds := Matching(config, groupIds);
    var m := Max(ds);
    assert m in ds;
    forall e | e in config && InArray(e.userGroupId, groupIds)
      ensures e.discount <= m
    {
      assert e.discount in ds;
    }
  }

  // ---------------------------------------------------------------------
  // Writing the discount

  /** `$discount . '%'`. */
  function DiscountText(d: nat): string
  {
    NatToDecimal(d) + "%"
  }

  /** The price with the selected discount written into it. */
  function WithDiscount(price: Record, d: nat): Record
  {
    price[DiscountEnable := Int(1)][FieldKey(Discount, Amount) := Str(DiscountText(d))]
  }

  /** Writing the discount turns the discount on, stores a percentage whose
      digits read back as the discount, and changes no other key. */
  lemma DiscountWritten(price: Record, d: nat)
    ensures WithDiscount(price, d).Keys == price.Keys + {DiscountEnable, FieldKey(Discount, Amount)}
    ensures WithDiscount(price, d)[DiscountEnable] == Int(1)
    ensures WithDiscount(price, d)[FieldKey(Discount, Amount)] == Str(DiscountText(d))
    ensures var t := DiscountText(d);
      IsPercent(t) && t[|t| - 1] == '%' && AllDigits(t[..|t| - 1]) && DecimalValue(t[..|t| - 1]) == d
    ensures forall k :: k in price && k != DiscountEnable && k != FieldKey(Discount, Amount) ==>
      WithDiscount(price, d)[k] == price[k]
  {
    var t := DiscountText(d);
    assert t[..|t| - 1] == NatToDecimal(d);
    assert t[|t| - 1] in t;
    DecimalRoundTrip(d);
  }

  // ---------------------------------------------------------------------
  // The handler

  /** Whether the handler applies a discount: on the site, with a non-empty
      group list on the price, for a signed-in user one of whose groups has a
      configured row. */
  predicate Applies(price: Record, isSite: bool, userId: int, userGroups: seq<string>, config: seq<GroupDiscount>)
  {
    isSite && HasGroupList(price) && userId > 0 && Matching(config, GroupIds(PriceGroupIds(price), userGroups)) != []
  }

  /** `onRadicalMartPrepareProductPrice($context, $price, $currency)` with the
      price passed by reference: returns the new price. `isSite` is the
      application's client test, `userId` and `userGroups` the identity's id
      and authorised groups, `config` the `userGroupDiscounts` parameter. */
  method OnPrepareProductPrice(context: string, price: Record, isSite: bool, userId: int,
                               userGroups: seq<string>, config: seq<GroupDiscount>, h: Host)
    returns (result: Record)
    ensures !Applies(price, isSite, userId, userGroups, config) ==> result == price
    ensures Applies(price, isSite, userId, userGroups, config) ==>
      RederivedFrom(h.calculate(context, WithDiscount(price, Max(Matching(config, GroupIds(PriceGroupIds(price), userGroups))))), h, result)
  {
    result := price;
    var found, discount := SelectDiscount(price, isSite, userId, userGroups, config);
    if found {
      result := ApplyDiscount(context, result, discount, h);
    }
  }

  /** The guards and the selection of the handler: `found` says whether it
      goes on past them, and `discount` is then the largest matching discount. */
  method SelectDiscount(price: Record, isSite: bool, userId: int, userGroups: seq<string>, config: seq<GroupDiscount>)
    returns (found: bool, discount: nat)
    ensures found <==> Applies(price, isSite, userId, userGroups, config)
    ensures found ==> discount == Max(Matching(config, GroupIds(PriceGroupIds(price), userGroups)))
  {
    found, discount := false, 0;
    if !isSite {
      return;
    }
    if !IsSet(price, UserGroupIds) || !price[UserGroupIds].List? || |price[UserGroupIds].items| == 0 {
      return;
    }
    var priceUserGroupIds := price[UserGroupIds].items;
    if userId <= 0 {
      return;
    }
    var groupIds := GroupIds(priceUserGroupIds, userGroups);
    if |groupIds| == 0 {
      NoGroupsNoMatch(config);
      return;
    }
    var discounts := CollectDiscounts(config, groupIds);
    if |discounts| == 0 {
      return;
    }
    found, discount := true, Max(discounts);
  }

  /** The `foreach` over `userGroupDiscounts`: collects, in order, the
      discount of every row whose group is in `groupIds`. */
  method CollectDiscounts(config: seq<GroupDiscount>, groupIds: seq<Value>) returns (discounts: seq<nat>)
    ensures discounts == Matching(config, groupIds)
  {
    discounts := [];
    for i := 0 to |config|
      invariant discounts == Matching(config[..i], groupIds)
    {
      assert config[..i + 1][..i] == config[..i];
      if InArray(config[i].userGroupId, groupIds) {
        discounts := discounts + [config[i].discount];
      }
    }
    assert config[..|config|] == config;
  }

  /** The end of the handler, once a discount is selected: writes it, lets
      `PriceHelper::calculate` recalculate the price and re-derives its fields. */
  method ApplyDiscount(context: string, price: Record, discount: nat, h: Host) returns (result: Record)
    ensures RederivedFrom(h.calculate(context, WithDiscount(price, discount)), h, result)
  {
    result := price[DiscountEnable := Int(1)];
    result := result[FieldKey(Discount, Amount) := Str(NatToDecimal(discount) + "%")];
    result := h.calculate(context, result);
    result := RederiveFields(result, h);
  }
}
