# Wishbox group discount for RadicalMart, modelled in Dafny

The plugin `plg_radicalmart_wishboxgroupdiscount` answers RadicalMart's
`onRadicalMartPrepareProductPrice` event. The handler has two parts:

* **Group-discount selector.** On the site client, it takes a price that
  restricts itself to a non-empty list of user groups
  (`wishboxGroupDiscountUserGroupIds`) and a signed-in user. It intersects the
  price's groups with the user's authorised groups, comparing them with
  `strcasecmp`. It then walks the configured `userGroupDiscounts` rows and
  collects the discount of every row whose group is in the intersection,
  using `in_array`. The largest discount is written into the price as
  `discount_enable = 1` and `discount = "<n>%"`. Every failed guard leaves
  the price as it was.
* **Field re-derivation pass.** After `PriceHelper::calculate` has
  recalculated the price, the handler re-derives the price's fields
  block by block:
  * it resolves the currency;
  * it cleans every monetary field (`purchase`, `extra`, `base`,
    `discount`, `final`, `benefit` and the `sum_*` fields);
  * it renders each field as `_string`, `_seo` and `_number`;
  * it casts the two `_enable` flags;
  * it turns `discount_end` into a timestamp.

The model has six modules.

* `PhpValues` (`php_values.dfy`) covers PHP values and the operations the
  handler applies to them: `empty`, subtraction, the `(int)` cast, string
  conversion, and `strcasecmp` and loose `==` equality.
* `PriceKeys` (`price_keys.dfy`) covers the keys of a price array.
  * Every key the handler touches is a constructor of `Key`. A field key is
    a field and a slot (the amount, `_string`, `_seo` or `_number`). Distinct
    keys are therefore distinct without string reasoning.
  * Any other key is an `Other(name)` whose name is none of the named keys.
  * `Name` gives each key's PHP string.
  * A price is a `map<Key, Value>`. Reading a missing key gives null, as PHP
    does (with a warning).
* `Collaborators` (`host.dfy`) holds the code the plugin calls but does not
  own, as arrow-typed fields of a `Host` value. These are `PriceHelper`'s
  `calculate`, `clean`, `toString`, `cleanAdjustmentValue`, `getCurrency` and
  `getDefaultCurrency`, `htmlspecialchars`, the date parser, and the clock.
  Every property below holds whatever they compute, within the result types
  `Host` fixes for them (listed under "Left out").
* `PriceFields` (`price_fields.dfy`) covers the re-derivation pass.
  * `RederiveFields` runs the handler's blocks in order as small methods on
    the price map. The price is passed in and the new price is returned in
    place of PHP's by-reference `$price`.
  * Two writes move within their block. `purchase_enable` (line 172) is cast
    after the purchase renderings of lines 173-175, and `discount_enable`
    (line 208) after the discount branch of lines 210-228. The keys are
    disjoint from the field's keys, so the result is the same.
  * It is proved against the specification `RederivedFrom`. That
    specification says which keys the pass writes (`Written`) and what each
    one then holds (`Rederived`, `Expected`), in terms of the price
    `calculate` returned. Every other key keeps its value.
  * Each block is proved to take the price "part way through the pass"
    (`Overlay`) one field or key further.
* `PassFacts` (`pass_facts.dfy`) holds the properties that follow from the
  specification. These are:
  * the three cases of an adjustment;
  * the `sum_*` fields, which are written only when set;
  * the benefits, which are differences of the stored amounts;
  * the expiry branch, which never runs;
  * the currency.
* `Wishboxgroupdiscount` (`wishboxgroupdiscount.dfy`) covers the selector and
  the handler as a whole.
  * The intersection (`GroupIds`), the matching rows (`Matching`) and `Max`
    are functions with contracts.
  * The `foreach` is the loop of `CollectDiscounts`.
  * `OnPrepareProductPrice` first runs the guards and the loop
    (`SelectDiscount`). Then `ApplyDiscount` writes the discount, calls
    `calculate` and runs the pass.

The application's client test, the identity's id and authorised groups, and
the `userGroupDiscounts` parameter are parameters of the handler. The
authorised groups are given as strings, the form `strcasecmp` compares them
in.

Three details of the handler shape the model:

* Configured rows are matched against the intersection with loose `==`
  through `in_array` (line 147), not with `strcasecmp`; only the
  intersection itself (line 134) ignores letter case.
* An adjustment with no number stores null under `_number` (lines 191 and
  197), so the key is present and holds null.
* Unless `sum_base` and `sum_final` are both set (line 301), the
  `sum_benefit` keys keep whatever `calculate` left there.

The emptiness test on the intersection (line 136) never decides anything on
its own. A user who shares no group with the price matches no row, so the
later test on the collected discounts would return as well
(`NoGroupsNoMatch`).

## Model

| member | source | states |
|---|---|---|
| `Wishboxgroupdiscount.OnPrepareProductPrice` | src/Extension/Wishboxgroupdiscount.php:108-307 | When any guard fails, the price is returned unchanged: not on the site, no non-empty group list, user id ≤ 0, or no configured row matching the intersection. Otherwise the result is the re-derivation of `calculate` applied to the price with the largest matching discount written into it. |
| `Wishboxgroupdiscount.SelectDiscount` | src/Extension/Wishboxgroupdiscount.php:110-158 | The guard chain and selection: it goes on exactly when all guards pass, and the discount is then the maximum of the matching rows' discounts. |
| `Wishboxgroupdiscount.HasGroupList` | src/Extension/Wishboxgroupdiscount.php:117-119 | The group-list guard: the price's `wishboxGroupDiscountUserGroupIds` is set and not null, is an array, and has at least one entry. |
| `Wishboxgroupdiscount.CollectDiscounts` | src/Extension/Wishboxgroupdiscount.php:141-151 | The `foreach` loop collects exactly `Matching(config, groupIds)`, through the loop invariant over the rows seen so far. |
| `Wishboxgroupdiscount.ApplyDiscount` | src/Extension/Wishboxgroupdiscount.php:160-163 | Writing the discount, calling `calculate` and running the pass gives a price that satisfies `RederivedFrom` for `calculate(WithDiscount(price, d))`. |
| `Wishboxgroupdiscount.GroupIds` | src/Extension/Wishboxgroupdiscount.php:134 | The intersection keeps exactly the price-side entries that equal some user group ignoring ASCII case, each as often as the price lists it. |
| `Wishboxgroupdiscount.InArray` | src/Extension/Wishboxgroupdiscount.php:147 | `in_array` without its strict flag: the needle loosely equals (`LooseEquals`) some entry of the intersection. |
| `Wishboxgroupdiscount.Matching` | src/Extension/Wishboxgroupdiscount.php:145-151 | A discount is collected exactly when some configured row whose group loosely equals an entry of the intersection carries it. There are at most as many discounts as rows. |
| `Wishboxgroupdiscount.Max` | src/Extension/Wishboxgroupdiscount.php:158 | `max` of a non-empty list is one of its elements and at least every element. |
| `Wishboxgroupdiscount.BestDiscount` | src/Extension/Wishboxgroupdiscount.php:141-158 | The applied discount is the discount of some matching row and at least the discount of every matching row. |
| `Wishboxgroupdiscount.NoGroupsNoMatch` | src/Extension/Wishboxgroupdiscount.php:136-156 | With an empty intersection no row matches, so the test on line 136 is subsumed by the one on line 153. |
| `Wishboxgroupdiscount.DiscountWritten` | src/Extension/Wishboxgroupdiscount.php:160-161 | Writing the discount adds or sets only `discount_enable` (to 1) and `discount`. `discount` becomes a percentage text whose digits before the `%` read back as the discount. Every other key is unchanged. |
| `Wishboxgroupdiscount.WithDiscount` | src/Extension/Wishboxgroupdiscount.php:160-161 | The price with `discount_enable` set to 1 and `discount` set to the discount's decimal text followed by `%`; `DiscountWritten` states its keys and values. |
| `PriceFields.RederiveFields` | src/Extension/Wishboxgroupdiscount.php:165-307 | The whole pass satisfies `RederivedFrom`: it keeps every key of the calculated price and adds only the written keys. Each written key holds its re-derived value and every other key keeps its value. |
| `PriceFields.PrepareCurrency` | src/Extension/Wishboxgroupdiscount.php:165-168 | The currency block stores the resolved currency and yields the code of its currency. |
| `PriceFields.PrepareAmount` | src/Extension/Wishboxgroupdiscount.php:170-175 | A clean-and-render block stores the field's expected rendering: the cleaned amount and `toString` in its three modes. |
| `PriceFields.PrepareAdjustment` | src/Extension/Wishboxgroupdiscount.php:177-198 | The three-branch adjustment block (also lines 206-228 and 268-288) stores `RenderAdjustment` of the calculated value. |
| `PriceFields.RenderAdjustment` | src/Extension/Wishboxgroupdiscount.php:180-198 | The four keys of an adjustment after `cleanAdjustmentValue`: a non-empty text without `%` is cleaned and rendered like an amount; a non-empty text with `%` keeps its text, escaped for `_seo`, with a null `_number`; an empty one keeps its text with null `_seo` and `_number` (the same branches at lines 210-228 and 270-288). |
| `PriceFields.CurrencyOf` | src/Extension/Wishboxgroupdiscount.php:166 | The resolved currency: the component default when the calculated currency is empty, the calculated currency otherwise. |
| `PriceFields.CodeOf` | src/Extension/Wishboxgroupdiscount.php:167-168 | The code every helper call receives: `getCurrency` of the resolved currency, read at `code`. |
| `PriceFields.PrepareBenefit` | src/Extension/Wishboxgroupdiscount.php:250-254 | The benefit block (also lines 300-307) stores the rendering of the cleaned difference of the two cleaned amounts. |
| `PriceFields.PrepareFlag` | src/Extension/Wishboxgroupdiscount.php:172 | An `_enable` flag becomes its `(int)` cast (also line 208). |
| `PriceFields.PrepareDiscountEnd` | src/Extension/Wishboxgroupdiscount.php:230-234 | A non-empty `discount_end` becomes its timestamp. An empty one is left alone. |
| `PriceFields.PrepareSumAmount` | src/Extension/Wishboxgroupdiscount.php:256-263 | `sum_base` (and `sum_final`, lines 291-298) is re-derived exactly when it is set. |
| `PriceFields.PrepareSumDiscount` | src/Extension/Wishboxgroupdiscount.php:265-289 | `sum_discount` goes through the adjustment block exactly when it is set. |
| `PriceFields.PrepareSumBenefit` | src/Extension/Wishboxgroupdiscount.php:300-307 | `sum_benefit` is derived exactly when both sums are set. |
| `PriceFields.PrepareCurrencyAndPurchase` | src/Extension/Wishboxgroupdiscount.php:165-175 | After the currency and purchase blocks, `purchase`, the currency and `purchase_enable` are done. |
| `PriceFields.PrepareExtraAndBase` | src/Extension/Wishboxgroupdiscount.php:177-204 | After the extra and base blocks, those two fields are done as well. |
| `PriceFields.PrepareDiscount` | src/Extension/Wishboxgroupdiscount.php:206-234 | After the discount and `discount_end` blocks, every non-field key the pass writes is done. |
| `PriceFields.PrepareFinal` | src/Extension/Wishboxgroupdiscount.php:236-254 | Once `$original` is set, the expiry reset is skipped; `final` and `benefit` are then done. |
| `PriceFields.PrepareSumBaseAndDiscount` | src/Extension/Wishboxgroupdiscount.php:256-289 | After the `sum_base` and `sum_discount` blocks, each of those two fields is done exactly when set. |
| `PriceFields.PrepareSumFinalAndBenefit` | src/Extension/Wishboxgroupdiscount.php:291-307 | After the last two blocks, every field the pass rewrites is done. |
| `PriceFields.OverlayComplete` | src/Extension/Wishboxgroupdiscount.php:165-307 | Once every block has run, the partial result is exactly the specified result. |
| `PriceFields.RewrittenMember` | src/Extension/Wishboxgroupdiscount.php:256-307 | The fields and keys the blocks accumulate, including the conditional `sum_*` ones, are exactly the keys `Written` describes. |
| `PassFacts.RederivedUnique` | src/Extension/Wishboxgroupdiscount.php:165-307 | The specification of the pass determines its result: two results that meet it for the same calculated price are equal. |
| `PassFacts.Untouched` | src/Extension/Wishboxgroupdiscount.php:165-307 | A key the pass does not write is neither added nor changed. |
| `PassFacts.AdjustmentKinds` | src/Extension/Wishboxgroupdiscount.php:180-193 | Every cleaned adjustment falls in exactly one branch: amount, percentage or empty. |
| `PassFacts.AdjustmentAmount` | src/Extension/Wishboxgroupdiscount.php:180-186 | For a non-empty adjustment without `%`, all four keys come from `clean` and `toString` (also lines 210-216 and 270-276). |
| `PassFacts.AdjustmentPercent` | src/Extension/Wishboxgroupdiscount.php:187-192 | For a non-empty adjustment with `%`, the value and `_string` are the cleaned text, `_seo` is its escape and `_number` is null (also lines 217-222 and 277-282). |
| `PassFacts.AdjustmentEmpty` | src/Extension/Wishboxgroupdiscount.php:193-198 | For an empty adjustment, the value and `_string` are the cleaned text, and `_seo` and `_number` are null (also lines 223-228 and 283-288). |
| `PassFacts.SumFieldWritten` | src/Extension/Wishboxgroupdiscount.php:256-298 | When `sum_base`, `sum_discount` or `sum_final` is set, all four of its keys hold the field's rendering. |
| `PassFacts.SumFieldKept` | src/Extension/Wishboxgroupdiscount.php:256-298 | When such a field is not set, none of its four keys is added or changed. |
| `PassFacts.ExpectedBenefit` | src/Extension/Wishboxgroupdiscount.php:251 | A benefit's expected amount is the cleaned difference of the expected amounts it subtracts (also line 303). |
| `PassFacts.SumBenefitWritten` | src/Extension/Wishboxgroupdiscount.php:300-307 | When both sums are set, `sum_benefit` is the cleaned difference of the `sum_base` and `sum_final` the pass stores. |
| `PassFacts.SumBenefitKept` | src/Extension/Wishboxgroupdiscount.php:300-307 | Unless both sums are set, the `sum_benefit` keys are neither added nor changed. |
| `PassFacts.BenefitIsDifference` | src/Extension/Wishboxgroupdiscount.php:250-254 | `benefit` is always the cleaned difference of the `base` and `final` the pass stores. |
| `PassFacts.FinalNotReset` | src/Extension/Wishboxgroupdiscount.php:236-248 | `final` is the cleaned calculated `final`, never `base`: the expiry branch never runs. |
| `PassFacts.FlagsCast` | src/Extension/Wishboxgroupdiscount.php:208 | `discount_enable` (and `purchase_enable`, line 172) is the `(int)` cast of the calculated flag, never reset to 0. |
| `PassFacts.CurrencyResolved` | src/Extension/Wishboxgroupdiscount.php:166 | The currency is the price's own when it is non-empty, and the component default otherwise. |
| `PassFacts.DiscountEndConverted` | src/Extension/Wishboxgroupdiscount.php:231-234 | A non-empty `discount_end` becomes the timestamp of the date it names. |
| `PassFacts.DiscountEndKept` | src/Extension/Wishboxgroupdiscount.php:231-234 | An empty `discount_end` is neither added nor changed. |
| `PhpValues.NatToDecimal` | src/Extension/Wishboxgroupdiscount.php:161 | PHP's rendering of a discount is a non-empty run of digits with no leading zero. |
| `PhpValues.DecimalRoundTrip` | src/Extension/Wishboxgroupdiscount.php:161 | Reading back the rendering of a number gives the number. |
| `PhpValues.IntegerRoundTrip` | src/Extension/Wishboxgroupdiscount.php:147 | The rendering of every integer is an integer string that reads back as that integer. |
| `PhpValues.DigitPrefix` | src/Extension/Wishboxgroupdiscount.php:172 | The digits `(int)` reads form the longest run of digits a string starts with. |
| `PhpValues.DigitPrefixOfDigits` | src/Extension/Wishboxgroupdiscount.php:172 | The `(int)` cast reads the whole of a string of digits. |
| `PhpValues.IntCastOfDecimal` | src/Extension/Wishboxgroupdiscount.php:208 | `(int)` of an integer's decimal rendering is that integer, so a flag stored as a numeric string casts to its number. |
| `PhpValues.ComparisonsDisagree` | src/Extension/Wishboxgroupdiscount.php:134-147 | The two comparisons the selector uses differ in both directions. `strcasecmp` ignores letter case but not leading zeros, and loose `==` does the reverse. |
| `PhpValues.LooseEqualsDecimal` | src/Extension/Wishboxgroupdiscount.php:147 | A configured group id string loosely equals both the integer id it renders and another copy of the same string. |
| `PhpValues.LooseEquals` | src/Extension/Wishboxgroupdiscount.php:147 | PHP 8's loose `==` of a configured group id string against an intersection entry: numeric strings and numbers compare as numbers, null as the empty string, a boolean against the string's truthiness, and an array equals no string. |
| `PhpValues.EqualsIgnoringCase` | src/Extension/Wishboxgroupdiscount.php:134 | `strcasecmp(a, b) == 0`: the two strings have the same length and agree at every position after ASCII lower-casing. |
| `PhpValues.LowerString` | src/Extension/Wishboxgroupdiscount.php:134 | Lower-casing keeps the length and maps every character through ASCII lower-casing. |
| `PhpValues.CaseFoldEquality` | src/Extension/Wishboxgroupdiscount.php:134 | `strcasecmp` finds two strings equal exactly when their lower-cased forms are the same string, in both directions. |
| `PhpValues.CaseFoldEquivalence` | src/Extension/Wishboxgroupdiscount.php:134 | `strcasecmp` equality is reflexive, symmetric and transitive. |
| `PhpValues.IntCast` | src/Extension/Wishboxgroupdiscount.php:172 | `(int)` as applied to the flags (also line 208): null and false give 0, true 1, a float is truncated toward zero, a string gives its leading integer, and an array 0 or 1 by emptiness. |
| `PhpValues.Empty` | src/Extension/Wishboxgroupdiscount.php:180 | `empty` of a value (also lines 166 and 231): null, false, 0, 0.0, `""`, `"0"` and the empty array. |
| `PhpValues.Minus` | src/Extension/Wishboxgroupdiscount.php:251 | `$a - $b` on the two cleaned floats (also line 303), as exact real subtraction; the result is a float. |
| `PhpValues.ToPhpString` | src/Extension/Wishboxgroupdiscount.php:134 | The string PHP hands `strcasecmp` for an entry of the price's group list: a string as it is, an integer in decimal, null and false as `""`, true as `"1"`, a float by its floor and an array as `"Array"`. |
| `PriceKeys.Get` | src/Extension/Wishboxgroupdiscount.php:166 | Reading `$price[$k]`: the stored value when the key is present and null when it is missing, as PHP reads a missing key. |
| `PriceKeys.IsSet` | src/Extension/Wishboxgroupdiscount.php:117 | `isset($price[$k])` (also lines 257, 266, 292 and 301): the key is present and its value is not null. |

## Left out

- `onRadicalMartPreparePricesForm`, `getSubscribedEvents`, the constructor and `$autoloadLanguage` are left out. They only register the handler, load an XML form and load language files.
- The internals of `PriceHelper` (`calculate`, `clean`, `toString`, `getCurrency`, `getDefaultCurrency`, `cleanAdjustmentValue`) are not part of this model. Nor are the internals of `htmlspecialchars` and `Factory::getDate()->toUnix()`. They are arbitrary functions in `Host`, so no rounding, currency formatting or date parsing is modelled.
- `Factory::getApplication()`, `getIdentity()`, `getAuthorisedGroups()` and `$this->params->get('userGroupDiscounts')` are replaced by handler parameters. An unset parameter, which PHP's `foreach` skips over with a warning, is the empty row list.
- The `$currency` argument of the handler is left out. Line 167 overwrites it before any use.
- Exceptions are left out. `calculate`, `getCurrency` and the date parser may throw and end the handler; the model's helpers always return.
- PHP arrays keep keys in insertion order, but a `map` has no order, so the order of the keys in the result is not modelled.
- `LooseEquals`: numeric strings are only an optional sign followed by digits. PHP 8 also accepts surrounding whitespace, fractions and exponents.
- `IntCast`: strings are read by their leading integer. PHP also reads a fraction or exponent (`(int) "1e3"` is 1000).
- `IntCast`: the result is an unbounded integer. PHP's `(int)` on the flags (lines 172 and 208) saturates at `PHP_INT_MAX` for a numeric string beyond 64 bits, so `IntCastOfDecimal` holds in PHP only for integers within 64 bits. PHP integers stored in a price are unbounded in `Value` for the same reason.
- `ToPhpString`: a float is rendered by its floor (`-1.5` as `"-2"`, where PHP writes `"-1.5"`) and an array as `"Array"`. In PHP 8, passing an array to `strcasecmp` raises a `TypeError`.
- `Minus`: non-numbers read as 0. The handler only subtracts values returned by `clean`, which are floats.
- `Minus`: the subtraction of lines 251 and 303 is exact on reals, where PHP subtracts IEEE-754 doubles (`0.3 - 0.1` is `0.19999999999999998` in PHP and `0.2` here), so `clean` receives the exact difference. Floats in general are `real`s in `Value`.
- The result types of the helpers in `Host` are fixed: `clean` always returns a float, never null; `cleanAdjustmentValue` and `toString` return strings; `toUnix` returns an integer. One proof relies on this. `FieldRewritten` tests `isset` on the calculated `sum_base` and `sum_final`, while line 301 tests the rewritten ones, and the two agree only because `clean` cannot return null.
- `GroupDiscount`: a row's group id is a string and its discount a natural number. Non-integer, negative or string discounts and `max` over mixed types are not modelled.
- The dead expiry test on line 239 compares `discount_end` through `IntCast` rather than PHP's loose `>` and `<=`. The branch never runs, so this has no effect.
- `getCurrency($code)['code']` is a single function `currencyCode`. A currency lookup that returns no array is not modelled.
- `Name` is not proved injective. The model relies on `Other` keys never carrying one of the named keys' strings.
