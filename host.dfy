/** The collaborators the plugin calls but does not own: RadicalMart's
    `PriceHelper`, PHP's `htmlspecialchars`, the framework's date parser and
    its clock. Each is an arbitrary function supplied by the caller, so every
    property proved about the plugin holds whatever they compute within the
    result types fixed here: `clean` always gives a float and never null,
    `cleanAdjustmentValue` and `toString` a string, and `toUnix` an integer. */
module Collaborators {
  import opened PhpValues
  import opened PriceKeys

  /** The third argument of `PriceHelper::toString`: 'default', 'seo' or `false`. */
  datatype Mode = Default | Seo | Plain

  datatype Host = Host(
    /** `PriceHelper::calculate($context, $price)` */
    calculate: (string, Record) -> Record,
    /** `PriceHelper::getDefaultCurrency()['code']` */
    defaultCurrencyCode: Value,
    /** `PriceHelper::getCurrency($code)['code']` */
    currencyCode: Value -> Value,
    /** `PriceHelper::clean($value, $code)` */
    clean: (Value, Value) -> real,
    /** `PriceHelper::toString($number, $code, $mode)` */
    toString: (real, Value, Mode) -> string,
    /** `PriceHelper::cleanAdjustmentValue($raw)` */
    cleanAdjustmentValue: Value -> string,
    /** `htmlspecialchars($s)` */
    escape: string -> string,
    /** `Factory::getDate($value)->toUnix()` */
    toUnix: Value -> int,
    /** `Factory::getDate()->toUnix()`, the current time */
    now: int)
}
