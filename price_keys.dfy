/** The keys of a RadicalMart price array. The keys the plugin reads or
    writes are constructors of `Key`; any other key of the array is an
    `Other` key, which the plugin passes through untouched. `Name` gives the
    PHP string of every key. */
module PriceKeys {
  import opened PhpValues

  /** The monetary fields of a price, each stored under four keys. */
  datatype Field =
    | Purchase | Extra | Base | Discount | Final | Benefit
    | SumBase | SumDiscount | SumFinal | SumBenefit

  /** The four keys of a field: the amount itself, its human-readable
      rendering (`_string`), its SEO rendering (`_seo`) and its plain
      numeric rendering (`_number`). */
  datatype Slot = Amount | Text | SeoText | NumberText

  datatype Key =
    | FieldKey(field: Field, slot: Slot)
    | Currency
    | PurchaseEnable
    | DiscountEnable
    | DiscountEnd
    | UserGroupIds
    | Other(name: string)

  /** A PHP price array. */
  type Record = map<Key, Value>

  function FieldName(f: Field): string
  {
    match f
    case Purchase => "purchase"
    case Extra => "extra"
    case Base => "base"
    case Discount => "discount"
    case Final => "final"
    case Benefit => "benefit"
    case SumBase => "sum_base"
    case SumDiscount => "sum_discount"
    case SumFinal => "sum_final"
    case SumBenefit => "sum_benefit"
  }

  function SlotSuffix(s: Slot): string
  {
    match s
    case Amount => ""
    case Text => "_string"
    case SeoText => "_seo"
    case NumberText => "_number"
  }

  /** The PHP string of a key. */
  function Name(k: Key): string
  {
    match k
    case FieldKey(f, s) => FieldName(f) + SlotSuffix(s)
    case Currency => "currency"
    case PurchaseEnable => "purchase_enable"
    case DiscountEnable => "discount_enable"
    case DiscountEnd => "discount_end"
    case UserGroupIds => "wishboxGroupDiscountUserGroupIds"
    case Other(name) => name
  }

  /** `$m[$k]`: reading a missing key yields null. */
  function Get(m: Record, k: Key): Value
  {
    if k in m then m[k] else Null
  }

  /** `isset($m[$k])`: the key is present and its value is not null. */
  predicate IsSet(m: Record, k: Key)
  {
    k in m && m[k] != Null
  }
}
