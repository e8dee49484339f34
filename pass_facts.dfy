/** What the re-derivation pass promises, read off its specification
    `RederivedFrom`: the three cases of an adjustment, the `sum_*` fields
    written only when set, the benefits as differences of the stored
    amounts, and the expiry reset that never happens. */
module PassFacts {
  import opened PhpValues
  import opened PriceKeys
  import opened Collaborators
  import opened PriceFields

  /** The specification determines the result: two prices that both satisfy
      it for the same calculated price are equal. */
  lemma RederivedUnique(c: Record, h: Host, q1: Record, q2: Record)
    requires RederivedFrom(c, h, q1) && RederivedFrom(c, h, q2)
    ensures q1 == q2
  {
    forall k | k in q1
      ensures k in q2 && q1[k] == q2[k]
    {
      assert k in c || Written(c, k);
    }
  }

  /** Reading one key of the result. */
  lemma ReadKey(c: Record, h: Host, q: Record, k: Key)
    requires RederivedFrom(c, h, q)
    requires Written(c, k)
    ensures k in q && q[k] == Rederived(c, h, k)
  {
    assert k in q;
  }

  /** The pass keeps every key of the calculated price, and a key it does not
      write keeps its value. */
  lemma Untouched(c: Record, h: Host, q: Record, k: Key)
    requires RederivedFrom(c, h, q)
    requires !Written(c, k)
    ensures k in q <==> k in c
    ensures k in c ==> q[k] == c[k]
  {
  }

  /** Every cleaned adjustment is exactly one of an amount, a percentage and
      an empty string. */
  lemma AdjustmentKinds(a: string)
    ensures IsAmount(a) || IsPercent(a) || EmptyString(a)
    ensures !(IsAmount(a) && IsPercent(a)) && !(IsAmount(a) && EmptyString(a)) && !(IsPercent(a) && EmptyString(a))
  {
  }

  /** The value `cleanAdjustmentValue` makes of the calculated value of an
      adjustment field. */
  function CleanedAdjustment(c: Record, h: Host, f: Field): string
  {
    h.cleanAdjustmentValue(Get(c, FieldKey(f, Amount)))
  }

  /** Whether the pass writes adjustment field `f`: `extra` and `discount`
      always, `sum_discount` when set. */
  predicate AdjustmentWritten(c: Record, f: Field)
  {
    IsAdjustmentField(f) && (f == SumDiscount ==> IsSet(c, FieldKey(SumDiscount, Amount)))
  }

  /** The keys of an adjustment field the pass writes, read through the
      three slots it sets. */
  lemma ReadAdjustment(c: Record, h: Host, q: Record, f: Field)
    requires RederivedFrom(c, h, q) && AdjustmentWritten(c, f)
    ensures FieldKey(f, Amount) in q && q[FieldKey(f, Amount)] == Expected(c, h, f).amount
    ensures FieldKey(f, Text) in q && q[FieldKey(f, Text)] == Expected(c, h, f).text
    ensures FieldKey(f, SeoText) in q && q[FieldKey(f, SeoText)] == Expected(c, h, f).seo
    ensures FieldKey(f, NumberText) in q && q[FieldKey(f, NumberText)] == Expected(c, h, f).number
  {
    ReadKey(c, h, q, FieldKey(f, Amount));
    ReadKey(c, h, q, FieldKey(f, Text));
    ReadKey(c, h, q, FieldKey(f, SeoText));
    ReadKey(c, h, q, FieldKey(f, NumberText));
  }

  /** An adjustment that is an amount (non-empty, no `%`): all four keys come
      from `clean` and `toString`. */
  lemma AdjustmentAmount(c: Record, h: Host, q: Record, f: Field)
    requires RederivedFrom(c, h, q) && AdjustmentWritten(c, f)
    requires IsAmount(CleanedAdjustment(c, h, f))
    ensures var code := CodeOf(c, h);
      var x := h.clean(Str(CleanedAdjustment(c, h, f)), code);
      && FieldKey(f, Amount) in q && q[FieldKey(f, Amount)] == Num(x)
      && FieldKey(f, Text) in q && q[FieldKey(f, Text)] == Str(h.toString(x, code, Default))
      && FieldKey(f, SeoText) in q && q[FieldKey(f, SeoText)] == Str(h.toString(x, code, Seo))
      && FieldKey(f, NumberText) in q && q[FieldKey(f, NumberText)] == Str(h.toString(x, code, Plain))
  {
    ReadAdjustment(c, h, q, f);
  }

  /** An adjustment that is a percentage (non-empty, with `%`): the value and
      `_string` are the cleaned text, `_seo` its escape, `_number` null. */
  lemma AdjustmentPercent(c: Record, h: Host, q: Record, f: Field)
    requires RederivedFrom(c, h, q) && AdjustmentWritten(c, f)
    requires IsPercent(CleanedAdjustment(c, h, f))
    ensures var a := CleanedAdjustment(c, h, f);
      && FieldKey(f, Amount) in q && q[FieldKey(f, Amount)] == Str(a)
      && FieldKey(f, Text) in q && q[FieldKey(f, Text)] == Str(a)
      && FieldKey(f, SeoText) in q && q[FieldKey(f, SeoText)] == Str(h.escape(a))
      && FieldKey(f, NumberText) in q && q[FieldKey(f, NumberText)] == Null
  {
    ReadAdjustment(c, h, q, f);
  }

  /** An empty adjustment: the value and `_string` are the cleaned text,
      `_seo` and `_number` null. */
  lemma AdjustmentEmpty(c: Record, h: Host, q: Record, f: Field)
    requires RederivedFrom(c, h, q) && AdjustmentWritten(c, f)
    requires EmptyString(CleanedAdjustment(c, h, f))
    ensures var a := CleanedAdjustment(c, h, f);
      && FieldKey(f, Amount) in q && q[FieldKey(f, Amount)] == Str(a)
      && FieldKey(f, Text) in q && q[FieldKey(f, Text)] == Str(a)
      && FieldKey(f, SeoText) in q && q[FieldKey(f, SeoText)] == Null
      && FieldKey(f, NumberText) in q && q[FieldKey(f, NumberText)] == Null
  {
    ReadAdjustment(c, h, q, f);
  }

  /** `sum_base`, `sum_discount` and `sum_final` are written when their
      calculated amount is set: each of the four keys holds the field's
      rendering. */
  lemma SumFieldWritten(c: Record, h: Host, q: Record, f: Field, s: Slot)
    requires RederivedFrom(c, h, q)
    requires f == SumBase || f == SumDiscount || f == SumFinal
    requires IsSet(c, FieldKey(f, Amount))
    ensures FieldKey(f, s) in q && q[FieldKey(f, s)] == SlotOf(Expected(c, h, f), s)
  {
    ReadKey(c, h, q, FieldKey(f, s));
  }

  /** When the calculated amount of `sum_base`, `sum_discount` or `sum_final`
      is not set, none of the field's four keys is added or changed. */
  lemma SumFieldKept(c: Record, h: Host, q: Record, f: Field, s: Slot)
    requires RederivedFrom(c, h, q)
    requires f == SumBase || f == SumDiscount || f == SumFinal
    requires !IsSet(c, FieldKey(f, Amount))
    ensures FieldKey(f, s) in q <==> FieldKey(f, s) in c
    ensures FieldKey(f, s) in c ==> q[FieldKey(f, s)] == c[FieldKey(f, s)]
  {
    Untouched(c, h, q, FieldKey(f, s));
  }

  /** The expected benefits are the cleaned differences of the expected
      amounts they subtract. */
  lemma ExpectedBenefit(c: Record, h: Host, f: Field, g: Field, e: Field)
    requires (f, g, e) == (Benefit, Base, Final) || (f, g, e) == (SumBenefit, SumBase, SumFinal)
    ensures Expected(c, h, f).amount
      == Num(h.clean(Minus(Expected(c, h, g).amount, Expected(c, h, e).amount), CodeOf(c, h)))
  {
  }

  /** `sum_benefit`, written when both `sum_base` and `sum_final` are set, is
      the cleaned difference of the two sums the pass stores. */
  lemma SumBenefitWritten(c: Record, h: Host, q: Record)
    requires RederivedFrom(c, h, q)
    requires IsSet(c, FieldKey(SumBase, Amount)) && IsSet(c, FieldKey(SumFinal, Amount))
    ensures FieldKey(SumBase, Amount) in q && FieldKey(SumFinal, Amount) in q && FieldKey(SumBenefit, Amount) in q
    ensures q[FieldKey(SumBenefit, Amount)]
      == Num(h.clean(Minus(q[FieldKey(SumBase, Amount)], q[FieldKey(SumFinal, Amount)]), CodeOf(c, h)))
  {
    SumFieldWritten(c, h, q, SumBase, Amount);
    SumFieldWritten(c, h, q, SumFinal, Amount);
    ReadKey(c, h, q, FieldKey(SumBenefit, Amount));
    ExpectedBenefit(c, h, SumBenefit, SumBase, SumFinal);
  }

  /** Unless both `sum_base` and `sum_final` are set, the keys of
      `sum_benefit` are as the calculated price has them. */
  lemma SumBenefitKept(c: Record, h: Host, q: Record, s: Slot)
    requires RederivedFrom(c, h, q)
    requires !(IsSet(c, FieldKey(SumBase, Amount)) && IsSet(c, FieldKey(SumFinal, Amount)))
    ensures FieldKey(SumBenefit, s) in q <==> FieldKey(SumBenefit, s) in c
    ensures FieldKey(SumBenefit, s) in c ==> q[FieldKey(SumBenefit, s)] == c[FieldKey(SumBenefit, s)]
  {
    Untouched(c, h, q, FieldKey(SumBenefit, s));
  }

  /** `benefit` is the cleaned difference of the `base` and `final` the pass
      stores. */
  lemma BenefitIsDifference(c: Record, h: Host, q: Record)
    requires RederivedFrom(c, h, q)
    ensures FieldKey(Base, Amount) in q && FieldKey(Final, Amount) in q && FieldKey(Benefit, Amount) in q
    ensures q[FieldKey(Benefit, Amount)]
      == Num(h.clean(Minus(q[FieldKey(Base, Amount)], q[FieldKey(Final, Amount)]), CodeOf(c, h)))
  {
    ReadKey(c, h, q, FieldKey(Base, Amount));
    ReadKey(c, h, q, FieldKey(Final, Amount));
    ReadKey(c, h, q, FieldKey(Benefit, Amount));
    ExpectedBenefit(c, h, Benefit, Base, Final);
  }

  /** `final` is the cleaned calculated `final`: the reset of `final` to
      `base` on an expired discount never happens. */
  lemma FinalNotReset(c: Record, h: Host, q: Record)
    requires RederivedFrom(c, h, q)
    ensures FieldKey(Final, Amount) in q
    ensures q[FieldKey(Final, Amount)] == Num(h.clean(Get(c, FieldKey(Final, Amount)), CodeOf(c, h)))
  {
    ReadKey(c, h, q, FieldKey(Final, Amount));
  }

  /** `discount_enable` is the calculated flag cast to an integer, never
      reset to 0 on an expired discount; `purchase_enable` is cast likewise. */
  lemma FlagsCast(c: Record, h: Host, q: Record)
    requires RederivedFrom(c, h, q)
    ensures DiscountEnable in q && q[DiscountEnable] == Int(IntCast(Get(c, DiscountEnable)))
    ensures PurchaseEnable in q && q[PurchaseEnable] == Int(IntCast(Get(c, PurchaseEnable)))
  {
    ReadKey(c, h, q, DiscountEnable);
    ReadKey(c, h, q, PurchaseEnable);
  }

  /** The price's currency: its own when it has a non-empty one, the
      component default otherwise. */
  lemma CurrencyResolved(c: Record, h: Host, q: Record)
    requires RederivedFrom(c, h, q)
    ensures Currency in q
    ensures !Empty(Get(c, Currency)) ==> q[Currency] == c[Currency]
    ensures Empty(Get(c, Currency)) ==> q[Currency] == h.defaultCurrencyCode
  {
    ReadKey(c, h, q, Currency);
  }

  /** A non-empty `discount_end` becomes a timestamp. */
  lemma DiscountEndConverted(c: Record, h: Host, q: Record)
    requires RederivedFrom(c, h, q)
    requires !Empty(Get(c, DiscountEnd))
    ensures DiscountEnd in q && q[DiscountEnd] == Int(h.toUnix(c[DiscountEnd]))
  {
    ReadKey(c, h, q, DiscountEnd);
  }

  /** An empty `discount_end` is neither added nor changed. */
  lemma DiscountEndKept(c: Record, h: Host, q: Record)
    requires RederivedFrom(c, h, q)
    requires Empty(Get(c, DiscountEnd))
    ensures DiscountEnd in q <==> DiscountEnd in c
    ensures DiscountEnd in c ==> q[DiscountEnd] == c[DiscountEnd]
  {
    Untouched(c, h, q, DiscountEnd);
  }
}
