/** The re-derivation pass of `onRadicalMartPrepareProductPrice`: after
    `PriceHelper::calculate`, every monetary field of the price is cleaned
    again and its `_string`, `_seo` and `_number` renderings are rewritten. */
module PriceFields {
  import opened PhpValues
  import opened PriceKeys
  import opened Collaborators

  /** The values a block of the pass stores under the four keys of a field. */
  datatype Rendering = Rendering(amount: Value, text: Value, seo: Value, number: Value)

  function SlotOf(r: Rendering, s: Slot): Value
  {
    match s
    case Amount => r.amount
    case Text => r.text
    case SeoText => r.seo
    case NumberText => r.number
  }

  /** An amount and the helper's three renderings of it. */
  function RenderAmount(x: real, code: Value, h: Host): Rendering
  {
    Rendering(Num(x), Str(h.toString(x, code, Default)), Str(h.toString(x, code, Seo)),
      Str(h.toString(x, code, Plain)))
  }

  /** An adjustment that is an amount: non-empty and without a percent sign. */
  predicate IsAmount(a: string)
  {
    !EmptyString(a) && '%' !in a
  }

  /** An adjustment that is a percentage: non-empty and with a percent sign. */
  predicate IsPercent(a: string)
  {
    !EmptyString(a) && '%' in a
  }

  /** What an adjustment block makes of the raw value of an adjustment field
      (`extra`, `discount`, `sum_discount`): an amount is cleaned and rendered
      like any other amount; a percentage keeps its text, escaped for SEO,
      with no number; an empty adjustment keeps its text only. */
  function RenderAdjustment(raw: Value, code: Value, h: Host): Rendering
  {
    var a := h.cleanAdjustmentValue(raw);
    if IsAmount(a) then RenderAmount(h.clean(Str(a), code), code, h)
    else Rendering(Str(a), Str(a), if IsPercent(a) then Str(h.escape(a)) else Null, Null)
  }

  /** `p` with the four keys of field `f` set to `r`. */
  function Put(p: Record, f: Field, r: Rendering): Record
  {
    p[FieldKey(f, Amount) := r.amount][FieldKey(f, Text) := r.text]
     [FieldKey(f, SeoText) := r.seo][FieldKey(f, NumberText) := r.number]
  }

  // ---------------------------------------------------------------------
  // What the pass computes, in terms of the calculated price `c`

  /** The price's currency after the pass: the component default when the
      price has none. */
  function CurrencyOf(c: Record, h: Host): Value
  {
    if Empty(Get(c, Currency)) then h.defaultCurrencyCode else Get(c, Currency)
  }

  /** The code of the resolved currency, which every helper call receives. */
  function CodeOf(c: Record, h: Host): Value
  {
    h.currencyCode(CurrencyOf(c, h))
  }

  /** The fields the pass rewrites, as its blocks add them one by one. */
  function RewrittenFields(c: Record): set<Field>
  {
    {Purchase, Extra, Base, Discount, Final, Benefit} +
    IfSet(c, SumBase) + IfSet(c, SumDiscount) + IfSet(c, SumFinal) + IfSet(c, SumBenefit)
  }

  /** The `sum_*` field `f` if the pass rewrites it, else nothing. */
  function IfSet(c: Record, f: Field): set<Field>
  {
    if FieldRewritten(c, f) then {f} else {}
  }

  /** The keys the pass writes that are not field keys, as its blocks add them. */
  function RewrittenScalars(c: Record): set<Key>
  {
    {Currency, PurchaseEnable, DiscountEnable} + DiscountEndKeys(c)
  }

  /** `discount_end` if the pass rewrites it, else nothing. */
  function DiscountEndKeys(c: Record): set<Key>
  {
    if Empty(Get(c, DiscountEnd)) then {} else {DiscountEnd}
  }

  /** Whether the pass rewrites field `f` of the calculated price `c`: the
      six fields of every price always, `sum_base`, `sum_discount` and
      `sum_final` when their amount is set, `sum_benefit` when both sums it
      subtracts are. */
  predicate FieldRewritten(c: Record, f: Field)
  {
    match f
    case SumBase => IsSet(c, FieldKey(SumBase, Amount))
    case SumDiscount => IsSet(c, FieldKey(SumDiscount, Amount))
    case SumFinal => IsSet(c, FieldKey(SumFinal, Amount))
    case SumBenefit => IsSet(c, FieldKey(SumBase, Amount)) && IsSet(c, FieldKey(SumFinal, Amount))
    case _ => true
  }

  /** Whether the pass writes key `k` of the calculated price `c`: the keys
      of the fields it rewrites, the currency, the two flags, and
      `discount_end` when it is not empty. */
  predicate Written(c: Record, k: Key)
  {
    match k
    case FieldKey(f, _) => FieldRewritten(c, f)
    case Currency => true
    case PurchaseEnable => true
    case DiscountEnable => true
    case DiscountEnd => !Empty(Get(c, DiscountEnd))
    case _ => false
  }

  /** The cleaned amount `f` of the calculated price. */
  function Cleaned(c: Record, h: Host, f: Field): real
  {
    h.clean(Get(c, FieldKey(f, Amount)), CodeOf(c, h))
  }

  /** What the pass stores under the keys of field `f`. The benefits are
      the differences of the cleaned amounts; `final` is always the calculated
      `final`, because the reset to `base` on an expired discount never runs. */
  function Expected(c: Record, h: Host, f: Field): Rendering
  {
    var code := CodeOf(c, h);
    match f
    case Extra => RenderAdjustment(Get(c, FieldKey(Extra, Amount)), code, h)
    case Discount => RenderAdjustment(Get(c, FieldKey(Discount, Amount)), code, h)
    case SumDiscount => RenderAdjustment(Get(c, FieldKey(SumDiscount, Amount)), code, h)
    case Benefit => RenderAmount(h.clean(Num(Cleaned(c, h, Base) - Cleaned(c, h, Final)), code), code, h)
    case SumBenefit => RenderAmount(h.clean(Num(Cleaned(c, h, SumBase) - Cleaned(c, h, SumFinal)), code), code, h)
    case _ => RenderAmount(Cleaned(c, h, f), code, h)
  }

  /** What the pass stores under a key it writes. */
  function Rederived(c: Record, h: Host, k: Key): Value
  {
    match k
    case FieldKey(f, s) => SlotOf(Expected(c, h, f), s)
    case Currency => CurrencyOf(c, h)
    case PurchaseEnable => Int(IntCast(Get(c, PurchaseEnable)))
    case DiscountEnable => Int(IntCast(Get(c, DiscountEnable)))
    case DiscountEnd => Int(h.toUnix(Get(c, DiscountEnd)))
    case _ => Get(c, k)
  }

  /** `q` is what the pass makes of the calculated price `c`: it has the keys
      of `c` and the keys the pass writes, each written key holds its
      re-derived value and every other key is as in `c`. */
  ghost predicate RederivedFrom(c: Record, h: Host, q: Record)
  {
    && (forall k :: k in q <==> k in c || Written(c, k))
    && (forall k :: k in q ==> q[k] == if Written(c, k) then Rederived(c, h, k) else c[k])
  }

  // ---------------------------------------------------------------------
  // Part way through the pass

  /** Whether key `k` is done once the fields `fs` and the other keys `ks` are. */
  predicate Done(k: Key, fs: set<Field>, ks: set<Key>)
  {
    if k.FieldKey? then k.field in fs else k in ks
  }

  /** The keys of `ks` that are not field keys. */
  function ScalarKeys(ks: set<Key>): set<Key>
  {
    set k | k in ks && !k.FieldKey?
  }

  /** The fields in the order the pass visits them. */
  function FieldOrder(): seq<Field>
  {
    [Purchase, Extra, Base, Discount, Final, Benefit, SumBase, SumDiscount, SumFinal, SumBenefit]
  }

  function FieldIndex(f: Field): (i: nat)
    ensures i < |FieldOrder()| && FieldOrder()[i] == f
  {
    match f
    case Purchase => 0
    case Extra => 1
    case Base => 2
    case Discount => 3
    case Final => 4
    case Benefit => 5
    case SumBase => 6
    case SumDiscount => 7
    case SumFinal => 8
    case SumBenefit => 9
  }

  /** The price part way through the pass, once the fields `fs` and the other
      keys `ks` are done: those hold their re-derived values, every other key
      is as in `c`. */
  function Overlay(c: Record, h: Host, fs: set<Field>, ks: set<Key>): Record
  {
    Layer(c, h, fs, ks, |FieldOrder()|)
  }

  /** `c` with the keys `ks` and the fields `fs` among the first `n` of
      `FieldOrder()` done. */
  function Layer(c: Record, h: Host, fs: set<Field>, ks: set<Key>, n: nat): Record
    requires n <= |FieldOrder()|
    decreases n
  {
    if n == 0 then
      map k | k in c.Keys + ScalarKeys(ks) :: if !k.FieldKey? && k in ks then Rederived(c, h, k) else c[k]
    else
      var f := FieldOrder()[n - 1];
      var p := Layer(c, h, fs, ks, n - 1);
      if f in fs then Put(p, f, Expected(c, h, f)) else p
  }

  lemma {:induction false} LayerGet(c: Record, h: Host, fs: set<Field>, ks: set<Key>, n: nat, k: Key)
    requires n <= |FieldOrder()|
    ensures var done := if k.FieldKey? then k.field in fs && FieldIndex(k.field) < n else k in ks;
      && (k in Layer(c, h, fs, ks, n) <==> k in c || done)
      && Get(Layer(c, h, fs, ks, n), k) == if done then Rederived(c, h, k) else Get(c, k)
    decreases n
  {
    if n > 0 {
      LayerGet(c, h, fs, ks, n - 1, k);
      var f := FieldOrder()[n - 1];
      if f in fs {
        PutLookup(Layer(c, h, fs, ks, n - 1), f, Expected(c, h, f), k);
      }
    }
  }

  /** Reading one key of a partial result. */
  lemma OverlayGet(c: Record, h: Host, fs: set<Field>, ks: set<Key>, k: Key)
    ensures k in Overlay(c, h, fs, ks) <==> k in c || Done(k, fs, ks)
    ensures Get(Overlay(c, h, fs, ks), k) == if Done(k, fs, ks) then Rederived(c, h, k) else Get(c, k)
  {
    LayerGet(c, h, fs, ks, |FieldOrder()|, k);
  }

  /** Before the pass, nothing is done. */
  lemma OverlayStart(c: Record, h: Host)
    ensures Overlay(c, h, {}, {}) == c
  {
    forall k ensures (k in Overlay(c, h, {}, {}) <==> k in c) && Get(Overlay(c, h, {}, {}), k) == Get(c, k) {
      OverlayGet(c, h, {}, {}, k);
    }
  }

  /** Storing the expected rendering of a field extends a partial result. */
  lemma PutExtends(c: Record, h: Host, fs: set<Field>, ks: set<Key>, f: Field)
    ensures Put(Overlay(c, h, fs, ks), f, Expected(c, h, f)) == Overlay(c, h, fs + {f}, ks)
  {
    var p := Overlay(c, h, fs, ks);
    var q := Put(p, f, Expected(c, h, f));
    var r := Overlay(c, h, fs + {f}, ks);
    forall k ensures (k in q <==> k in r) && (k in q ==> q[k] == r[k]) {
      PutLookup(p, f, Expected(c, h, f), k);
      OverlayGet(c, h, fs + {f}, ks, k);
      if !(k.FieldKey? && k.field == f) {
        OverlayGet(c, h, fs, ks, k);
        assert Done(k, fs + {f}, ks) == Done(k, fs, ks);
      }
    }
  }

  /** Storing the re-derived value of a key that is not a field key extends a
      partial result. */
  lemma SetExtends(c: Record, h: Host, fs: set<Field>, ks: set<Key>, k: Key)
    requires !k.FieldKey?
    ensures Overlay(c, h, fs, ks)[k := Rederived(c, h, k)] == Overlay(c, h, fs, ks + {k})
  {
    var q := Overlay(c, h, fs, ks)[k := Rederived(c, h, k)];
    var r := Overlay(c, h, fs, ks + {k});
    forall j ensures j in q <==> j in r {
      OverlayGet(c, h, fs, ks, j);
      OverlayGet(c, h, fs, ks + {k}, j);
    }
    forall j | j in q ensures q[j] == r[j] {
      OverlayGet(c, h, fs, ks, j);
      OverlayGet(c, h, fs, ks + {k}, j);
    }
  }

  /** Once every written key is done, the partial result is the whole pass. */
  lemma OverlayComplete(c: Record, h: Host)
    ensures RederivedFrom(c, h, Overlay(c, h, RewrittenFields(c), RewrittenScalars(c)))
  {
    var q := Overlay(c, h, RewrittenFields(c), RewrittenScalars(c));
    forall k
      ensures (k in q <==> k in c || Written(c, k))
      ensures k in q ==> q[k] == if Written(c, k) then Rederived(c, h, k) else c[k]
    {
      OverlayGet(c, h, RewrittenFields(c), RewrittenScalars(c), k);
      RewrittenMember(c, k);
    }
  }

  /** The sets the blocks accumulate are the keys `Written` describes. */
  lemma {:induction false} RewrittenMember(c: Record, k: Key)
    ensures Done(k, RewrittenFields(c), RewrittenScalars(c)) <==> Written(c, k)
  {
    match k {
      case FieldKey(f, _) =>
        match f {
          case SumBase =>
          case SumDiscount =>
          case SumFinal =>
          case SumBenefit =>
          case _ =>
        }
      case _ =>
    }
  }

  /** Reading one key of `Put(p, f, r)`. */
  lemma PutLookup(p: Record, f: Field, r: Rendering, k: Key)
    ensures k in Put(p, f, r) <==> k in p || (k.FieldKey? && k.field == f)
    ensures k in Put(p, f, r) ==>
      Put(p, f, r)[k] == if k.FieldKey? && k.field == f then SlotOf(r, k.slot) else p[k]
  {
    if k.FieldKey? && k.field == f {
      match k.slot
      case Amount =>
      case Text =>
      case SeoText =>
      case NumberText =>
    }
  }

  /** The fields whose block cleans and renders their own amount. */
  predicate IsAmountField(f: Field)
  {
    f in {Purchase, Base, Final, SumBase, SumFinal}
  }

  /** The fields whose block goes through `cleanAdjustmentValue`. */
  predicate IsAdjustmentField(f: Field)
  {
    f in {Extra, Discount, SumDiscount}
  }

  /** An amount block applied part way through the pass stores the field's
      expected rendering. */
  lemma AmountStep(c: Record, h: Host, fs: set<Field>, ks: set<Key>, f: Field, code: Value)
    requires IsAmountField(f) && f !in fs && code == CodeOf(c, h)
    ensures var p := Overlay(c, h, fs, ks);
      Put(p, f, RenderAmount(h.clean(Get(p, FieldKey(f, Amount)), code), code, h)) == Overlay(c, h, fs + {f}, ks)
  {
    OverlayGet(c, h, fs, ks, FieldKey(f, Amount));
    PutExtends(c, h, fs, ks, f);
  }

  /** An adjustment block applied part way through the pass stores the
      field's expected rendering. */
  lemma AdjustmentStep(c: Record, h: Host, fs: set<Field>, ks: set<Key>, f: Field, code: Value)
    requires IsAdjustmentField(f) && f !in fs && code == CodeOf(c, h)
    ensures var p := Overlay(c, h, fs, ks);
      Put(p, f, RenderAdjustment(Get(p, FieldKey(f, Amount)), code, h)) == Overlay(c, h, fs + {f}, ks)
  {
    OverlayGet(c, h, fs, ks, FieldKey(f, Amount));
    PutExtends(c, h, fs, ks, f);
  }

  /** A benefit block, run once both amounts it subtracts are cleaned, stores
      the expected rendering of their difference. */
  lemma BenefitStep(c: Record, h: Host, fs: set<Field>, ks: set<Key>, f: Field, g: Field, e: Field, code: Value)
    requires (f, g, e) == (Benefit, Base, Final) || (f, g, e) == (SumBenefit, SumBase, SumFinal)
    requires g in fs && e in fs && code == CodeOf(c, h)
    ensures var p := Overlay(c, h, fs, ks);
      && FieldKey(g, Amount) in p && FieldKey(e, Amount) in p
      && Put(p, f, RenderAmount(h.clean(Minus(p[FieldKey(g, Amount)], p[FieldKey(e, Amount)]), code), code, h))
         == Overlay(c, h, fs + {f}, ks)
  {
    OverlayGet(c, h, fs, ks, FieldKey(g, Amount));
    OverlayGet(c, h, fs, ks, FieldKey(e, Amount));
    PutExtends(c, h, fs, ks, f);
  }

  // ---------------------------------------------------------------------
  // The pass, block by block. Each block takes the price part way through
  // the pass, with the fields `fs` and the keys `ks` done, and leaves it
  // with one more field or key done.

  /** The currency block: resolves the currency and the code of its currency. */
  method PrepareCurrency(ghost c: Record, h: Host, p: Record) returns (q: Record, code: Value)
    requires p == Overlay(c, h, {}, {})
    ensures q == Overlay(c, h, {}, {Currency})
    ensures code == CodeOf(c, h)
  {
    q := p[Currency := if Empty(Get(p, Currency)) then h.defaultCurrencyCode else Get(p, Currency)];
    OverlayStart(c, h);
    SetExtends(c, h, {}, {}, Currency);
    assert {} + {Currency} == {Currency};
    OverlayGet(c, h, {}, {Currency}, Currency);
    code := h.currencyCode(q[Currency]);
  }

  /** A "clean, then render three ways" block for the amount of field `f`. */
  method PrepareAmount(ghost c: Record, h: Host, p: Record, code: Value, f: Field,
                       ghost fs: set<Field>, ghost ks: set<Key>) returns (q: Record)
    requires p == Overlay(c, h, fs, ks) && code == CodeOf(c, h)
    requires IsAmountField(f) && f !in fs
    ensures q == Overlay(c, h, fs + {f}, ks)
  {
    AmountStep(c, h, fs, ks, f, code);
    var x := h.clean(Get(p, FieldKey(f, Amount)), code);
    q := p[FieldKey(f, Amount) := Num(x)];
    q := q[FieldKey(f, Text) := Str(h.toString(x, code, Default))];
    q := q[FieldKey(f, SeoText) := Str(h.toString(x, code, Seo))];
    q := q[FieldKey(f, NumberText) := Str(h.toString(x, code, Plain))];
  }

  /** An adjustment block: cleans the raw value of `f` with `cleanAdjustmentValue`
      and renders it as an amount, a percentage or nothing. */
  method PrepareAdjustment(ghost c: Record, h: Host, p: Record, code: Value, f: Field,
                           ghost fs: set<Field>, ghost ks: set<Key>) returns (q: Record)
    requires p == Overlay(c, h, fs, ks) && code == CodeOf(c, h)
    requires IsAdjustmentField(f) && f !in fs
    ensures q == Overlay(c, h, fs + {f}, ks)
  {
    AdjustmentStep(c, h, fs, ks, f, code);
    var a := h.cleanAdjustmentValue(Get(p, FieldKey(f, Amount)));
    q := p[FieldKey(f, Amount) := Str(a)];
    if !EmptyString(a) && '%' !in a {
      var x := h.clean(q[FieldKey(f, Amount)], code);
      q := q[FieldKey(f, Amount) := Num(x)];
      q := q[FieldKey(f, Text) := Str(h.toString(x, code, Default))];
      q := q[FieldKey(f, SeoText) := Str(h.toString(x, code, Seo))];
      q := q[FieldKey(f, NumberText) := Str(h.toString(x, code, Plain))];
      assert q == Put(p, f, RenderAmount(x, code, h));
    } else if !EmptyString(a) {
      q := q[FieldKey(f, Text) := q[FieldKey(f, Amount)]];
      q := q[FieldKey(f, SeoText) := Str(h.escape(a))];
      q := q[FieldKey(f, NumberText) := Null];
    } else {
      q := q[FieldKey(f, Text) := q[FieldKey(f, Amount)]];
      q := q[FieldKey(f, SeoText) := Null];
      q := q[FieldKey(f, NumberText) := Null];
    }
  }

  /** A benefit block: field `f` gets the difference of the cleaned amounts
      `g` and `e`. */
  method PrepareBenefit(ghost c: Record, h: Host, p: Record, code: Value, f: Field, g: Field, e: Field,
                        ghost fs: set<Field>, ghost ks: set<Key>) returns (q: Record)
    requires p == Overlay(c, h, fs, ks) && code == CodeOf(c, h)
    requires (f, g, e) == (Benefit, Base, Final) || (f, g, e) == (SumBenefit, SumBase, SumFinal)
    requires g in fs && e in fs
    ensures q == Overlay(c, h, fs + {f}, ks)
  {
    BenefitStep(c, h, fs, ks, f, g, e, code);
    var x := h.clean(Minus(p[FieldKey(g, Amount)], p[FieldKey(e, Amount)]), code);
    q := p[FieldKey(f, Amount) := Num(x)];
    q := q[FieldKey(f, Text) := Str(h.toString(x, code, Default))];
    q := q[FieldKey(f, SeoText) := Str(h.toString(x, code, Seo))];
    q := q[FieldKey(f, NumberText) := Str(h.toString(x, code, Plain))];
  }

  /** An `_enable` block: the flag `k` cast to an integer. */
  method PrepareFlag(ghost c: Record, h: Host, p: Record, k: Key,
                     ghost fs: set<Field>, ghost ks: set<Key>) returns (q: Record)
    requires p == Overlay(c, h, fs, ks)
    requires (k == PurchaseEnable || k == DiscountEnable) && k !in ks
    ensures q == Overlay(c, h, fs, ks + {k})
  {
    OverlayGet(c, h, fs, ks, k);
    SetExtends(c, h, fs, ks, k);
    q := p[k := Int(IntCast(Get(p, k)))];
  }

  /** The `discount_end` block: a non-empty date becomes a Unix timestamp. */
  method PrepareDiscountEnd(ghost c: Record, h: Host, p: Record,
                            ghost fs: set<Field>, ghost ks: set<Key>) returns (q: Record)
    requires p == Overlay(c, h, fs, ks) && DiscountEnd !in ks
    ensures q == Overlay(c, h, fs, ks + DiscountEndKeys(c))
  {
    OverlayGet(c, h, fs, ks, DiscountEnd);
    q := p;
    if !Empty(Get(p, DiscountEnd)) {
      SetExtends(c, h, fs, ks, DiscountEnd);
      q := p[DiscountEnd := Int(h.toUnix(Get(p, DiscountEnd)))];
    } else {
      assert ks + {} == ks;
    }
  }

  /** A `sum_*` amount block: runs only when the amount is set. */
  method PrepareSumAmount(ghost c: Record, h: Host, p: Record, code: Value, f: Field,
                          ghost fs: set<Field>, ghost ks: set<Key>) returns (q: Record)
    requires p == Overlay(c, h, fs, ks) && code == CodeOf(c, h)
    requires (f == SumBase || f == SumFinal) && f !in fs
    ensures q == Overlay(c, h, fs + IfSet(c, f), ks)
  {
    OverlayGet(c, h, fs, ks, FieldKey(f, Amount));
    q := p;
    if IsSet(p, FieldKey(f, Amount)) {
      q := PrepareAmount(c, h, p, code, f, fs, ks);
    } else {
      assert fs + {} == fs;
    }
  }

  /** The `sum_discount` block: runs only when the adjustment is set. */
  method PrepareSumDiscount(ghost c: Record, h: Host, p: Record, code: Value,
                            ghost fs: set<Field>, ghost ks: set<Key>) returns (q: Record)
    requires p == Overlay(c, h, fs, ks) && code == CodeOf(c, h)
    requires SumDiscount !in fs
    ensures q == Overlay(c, h, fs + IfSet(c, SumDiscount), ks)
  {
    OverlayGet(c, h, fs, ks, FieldKey(SumDiscount, Amount));
    q := p;
    if IsSet(p, FieldKey(SumDiscount, Amount)) {
      q := PrepareAdjustment(c, h, p, code, SumDiscount, fs, ks);
    } else {
      assert fs + {} == fs;
    }
  }

  /** The `sum_benefit` block: runs only when both sums it subtracts are set. */
  method PrepareSumBenefit(ghost c: Record, h: Host, p: Record, code: Value,
                           ghost fs: set<Field>, ghost ks: set<Key>) returns (q: Record)
    requires p == Overlay(c, h, fs, ks) && code == CodeOf(c, h)
    requires SumBase in fs <==> IsSet(c, FieldKey(SumBase, Amount))
    requires SumFinal in fs <==> IsSet(c, FieldKey(SumFinal, Amount))
    requires SumBenefit !in fs
    ensures q == Overlay(c, h, fs + IfSet(c, SumBenefit), ks)
  {
    OverlayGet(c, h, fs, ks, FieldKey(SumBase, Amount));
    OverlayGet(c, h, fs, ks, FieldKey(SumFinal, Amount));
    q := p;
    if IsSet(p, FieldKey(SumBase, Amount)) && IsSet(p, FieldKey(SumFinal, Amount)) {
      q := PrepareBenefit(c, h, p, code, SumBenefit, SumBase, SumFinal, fs, ks);
    } else {
      assert fs + {} == fs;
    }
  }

  // The pass in stages, following the handler's blocks in order. Each
  // stage says which fields and keys it leaves done. Within the purchase and
  // discount blocks the `_enable` cast comes after the field's four keys
  // rather than between them; the keys are disjoint, so the result is the same.

  /** The currency and purchase blocks. */
  method PrepareCurrencyAndPurchase(ghost c: Record, h: Host, p: Record) returns (q: Record, code: Value)
    requires p == c
    ensures q == Overlay(c, h, {Purchase}, {Currency, PurchaseEnable})
    ensures code == CodeOf(c, h)
  {
    OverlayStart(c, h);
    // Prepare currency
    q, code := PrepareCurrency(c, h, p);
    // Prepare purchase
    q := PrepareAmount(c, h, q, code, Purchase, {}, {Currency});
    q := PrepareFlag(c, h, q, PurchaseEnable, {} + {Purchase}, {Currency});
    assert {} + {Purchase} == {Purchase} && {Currency} + {PurchaseEnable} == {Currency, PurchaseEnable};
  }

  /** The extra and base blocks. */
  method PrepareExtraAndBase(ghost c: Record, h: Host, p: Record, code: Value) returns (q: Record)
    requires p == Overlay(c, h, {Purchase}, {Currency, PurchaseEnable}) && code == CodeOf(c, h)
    ensures q == Overlay(c, h, {Purchase, Extra, Base}, {Currency, PurchaseEnable})
  {
    // Prepare extra
    q := PrepareAdjustment(c, h, p, code, Extra, {Purchase}, {Currency, PurchaseEnable});
    // Prepare base
    q := PrepareAmount(c, h, q, code, Base, {Purchase} + {Extra}, {Currency, PurchaseEnable});
    assert {Purchase} + {Extra} + {Base} == {Purchase, Extra, Base};
  }

  /** The discount block, with its `_enable` flag, and the `discount_end` block. */
  method PrepareDiscount(ghost c: Record, h: Host, p: Record, code: Value) returns (q: Record)
    requires p == Overlay(c, h, {Purchase, Extra, Base}, {Currency, PurchaseEnable}) && code == CodeOf(c, h)
    ensures q == Overlay(c, h, {Purchase, Extra, Base, Discount}, RewrittenScalars(c))
  {
    // Prepare discount
    q := PrepareAdjustment(c, h, p, code, Discount, {Purchase, Extra, Base}, {Currency, PurchaseEnable});
    q := PrepareFlag(c, h, q, DiscountEnable, {Purchase, Extra, Base} + {Discount}, {Currency, PurchaseEnable});
    assert {Purchase, Extra, Base} + {Discount} == {Purchase, Extra, Base, Discount};
    assert {Currency, PurchaseEnable} + {DiscountEnable} == {Currency, PurchaseEnable, DiscountEnable};
    // Prepare discount_end
    q := PrepareDiscountEnd(c, h, q, {Purchase, Extra, Base, Discount}, {Currency, PurchaseEnable, DiscountEnable});
  }

  /** The final and benefit blocks, with the expiry reset that the constant
      `$original` switches off. */
  method PrepareFinal(ghost c: Record, h: Host, p: Record, code: Value) returns (q: Record)
    requires p == Overlay(c, h, {Purchase, Extra, Base, Discount}, RewrittenScalars(c)) && code == CodeOf(c, h)
    ensures q == Overlay(c, h, {Purchase, Extra, Base, Discount, Final, Benefit}, RewrittenScalars(c))
  {
    q := p;
    var original := true;
    // Prepare final
    if !original && IntCast(Get(q, DiscountEnd)) > 0 && IntCast(Get(q, DiscountEnd)) <= h.now {
      q := q[DiscountEnable := Int(0)];
      q := q[FieldKey(Final, Amount) := Get(q, FieldKey(Base, Amount))];
    }
    q := PrepareAmount(c, h, q, code, Final, {Purchase, Extra, Base, Discount}, RewrittenScalars(c));
    // Prepare benefit
    q := PrepareBenefit(c, h, q, code, Benefit, Base, Final, {Purchase, Extra, Base, Discount} + {Final},
                        RewrittenScalars(c));
    assert {Purchase, Extra, Base, Discount} + {Final} + {Benefit} == {Purchase, Extra, Base, Discount, Final, Benefit};
  }

  /** The `sum_base` and `sum_discount` blocks. */
  method PrepareSumBaseAndDiscount(ghost c: Record, h: Host, p: Record, code: Value) returns (q: Record)
    requires p == Overlay(c, h, {Purchase, Extra, Base, Discount, Final, Benefit}, RewrittenScalars(c))
    requires code == CodeOf(c, h)
    ensures q == Overlay(c, h, {Purchase, Extra, Base, Discount, Final, Benefit} + IfSet(c, SumBase) + IfSet(c, SumDiscount), RewrittenScalars(c))
  {
    ghost var fs: set<Field> := {Purchase, Extra, Base, Discount, Final, Benefit};
    // Prepare sum base
    q := PrepareSumAmount(c, h, p, code, SumBase, fs, RewrittenScalars(c));
    // Prepare sum discount
    q := PrepareSumDiscount(c, h, q, code, fs + IfSet(c, SumBase), RewrittenScalars(c));
  }

  /** The `sum_final` and `sum_benefit` blocks. */
  method PrepareSumFinalAndBenefit(ghost c: Record, h: Host, p: Record, code: Value) returns (q: Record)
    requires p == Overlay(c, h, {Purchase, Extra, Base, Discount, Final, Benefit} + IfSet(c, SumBase) + IfSet(c, SumDiscount), RewrittenScalars(c))
    requires code == CodeOf(c, h)
    ensures q == Overlay(c, h, RewrittenFields(c), RewrittenScalars(c))
  {
    ghost var fs: set<Field> := {Purchase, Extra, Base, Discount, Final, Benefit} + IfSet(c, SumBase) + IfSet(c, SumDiscount);
    // Prepare sum final
    q := PrepareSumAmount(c, h, p, code, SumFinal, fs, RewrittenScalars(c));
    // Prepare sum benefit
    q := PrepareSumBenefit(c, h, q, code, fs + IfSet(c, SumFinal), RewrittenScalars(c));
  }

  /** The pass itself, on the price `c` that `PriceHelper::calculate` returned. */
  method RederiveFields(c: Record, h: Host) returns (p: Record)
    ensures RederivedFrom(c, h, p)
  {
    var code;
    p, code := PrepareCurrencyAndPurchase(c, h, c);
    p := PrepareExtraAndBase(c, h, p, code);
    p := PrepareDiscount(c, h, p, code);
    p := PrepareFinal(c, h, p, code);
    p := PrepareSumBaseAndDiscount(c, h, p, code);
    p := PrepareSumFinalAndBenefit(c, h, p, code);
    OverlayComplete(c, h);
  }
}
