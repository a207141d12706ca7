/** The derivation engine of `runAll`: from the five crawled lists it builds the
    fintech and airport products, concatenates everything in a fixed order and stamps
    one shared `kst_time` on every record. */
module Derivation {
  import opened Options
  import opened JsNumber
  import opened Rates

  // ---------------------------------------------------------------- margin tables

  /** A `[buy, sell]` pair of `AIRPORT_SPREADS`. */
  datatype Margin = Margin(buy: real, sell: real)

  const DEFAULT_MARGIN := Margin(0.08, 0.08)

  const WOORI_MARGINS: map<string, Margin> := map[
    "USD" := Margin(0.042, 0.042), "EUR" := Margin(0.045, 0.043), "JPY" := Margin(0.045, 0.070),
    "CNY" := Margin(0.118, 0.098), "VND" := Margin(0.139, 0.169), "THB" := Margin(0.1015, 0.100)]

  const HANA_MARGINS: map<string, Margin> := map[
    "USD" := Margin(0.042, 0.042), "EUR" := Margin(0.045, 0.042), "JPY" := Margin(0.045, 0.070),
    "CNY" := Margin(0.120, 0.100), "VND" := Margin(0.170, 0.185), "THB" := Margin(0.105, 0.100)]

  const KB_MARGINS: map<string, Margin> := map[
    "USD" := Margin(0.0425, 0.0425), "EUR" := Margin(0.045, 0.045), "JPY" := Margin(0.045, 0.070),
    "CNY" := Margin(0.120, 0.100), "VND" := Margin(0.180, 0.180), "THB" := Margin(0.110, 0.110)]

  /** `config[code] || config['DEFAULT']`. */
  function MarginFor(table: map<string, Margin>, code: string): (m: Margin)
    ensures code in table ==> m == table[code]
    ensures code !in table ==> m == DEFAULT_MARGIN
  {
    if code in table then table[code] else DEFAULT_MARGIN
  }

  /** A margin pair that raises the buying price and lowers the selling price by no more
      than the price itself. */
  predicate SaneMargin(m: Margin) {
    0.0 <= m.buy && 0.0 <= m.sell <= 1.0
  }

  predicate SaneTable(table: map<string, Margin>) {
    forall c :: c in table ==> SaneMargin(table[c])
  }

  /** Every bank table prices all six target currencies, with sane margins, so the
      `DEFAULT` pair is reached only for a currency outside the target list. */
  lemma MarginTablesComplete()
    ensures forall c :: c in TARGET_CURRENCIES ==> c in WOORI_MARGINS && c in HANA_MARGINS && c in KB_MARGINS
    ensures SaneTable(WOORI_MARGINS) && SaneTable(HANA_MARGINS) && SaneTable(KB_MARGINS)
    ensures SaneMargin(DEFAULT_MARGIN)
  {
  }

  // ---------------------------------------------------------------- per-bank products

  /** `{...item, bank_code, cash_buy, cash_sell, spread}`: the record under another bank
      code with new prices. */
  function Reprice(item: RateRecord, bank: string, buy: Num, sell: Num, spread: Num): RateRecord {
    item.(bankCode := bank, cashBuy := buy, cashSell := sell, spread := spread)
  }

  /** `out` is `src` record for record, renamed to `bank`: same length and order, and
      currency, unit and base rate copied unchanged. */
  predicate DerivedFrom(src: seq<RateRecord>, out: seq<RateRecord>, bank: string) {
    |out| == |src| &&
    forall i :: 0 <= i < |src| ==>
      && out[i].bankCode == bank
      && out[i].currencyCode == src[i].currencyCode
      && out[i].unit == src[i].unit
      && out[i].baseRate == src[i].baseRate
  }

  /** A record that buys and sells at the base rate with no spread. */
  predicate AtBaseRate(r: RateRecord) {
    r.cashBuy == r.baseRate && r.cashSell == r.baseRate && r.spread == Fin(0.0)
  }

  /** WOORI_POCKET and SOL_TRAVEL: the source list priced at its base rates. */
  function AtBase(src: seq<RateRecord>, bank: string): (out: seq<RateRecord>)
    ensures DerivedFrom(src, out, bank)
    ensures forall i :: 0 <= i < |out| ==> AtBaseRate(out[i])
  {
    seq(|src|, i requires 0 <= i < |src| =>
      Reprice(src[i], bank, src[i].baseRate, src[i].baseRate, Fin(0.0)))
  }

  /** TRB: buys at the base rate, sells 1% under it rounded to hundredths, no spread. */
  function Trb(hana: seq<RateRecord>): (out: seq<RateRecord>)
    ensures DerivedFrom(hana, out, "TRB")
    ensures forall i :: 0 <= i < |out| ==>
              && out[i].cashBuy == hana[i].baseRate
              && out[i].cashSell == Round2(Times(hana[i].baseRate, 0.99))
              && out[i].spread == Fin(0.0)
  {
    seq(|hana|, i requires 0 <= i < |hana| =>
      Reprice(hana[i], "TRB", hana[i].baseRate, Round2(Times(hana[i].baseRate, 0.99)), Fin(0.0)))
  }

  predicate IsMajor(code: string) {
    code in ["USD", "JPY", "EUR"]
  }

  /** The TRW buying margin: none for USD, JPY and EUR, 0.8% for the others. */
  function TrwMargin(code: string): (m: real)
    ensures IsMajor(code) <==> m == 0.0
    ensures !IsMajor(code) <==> m == 0.008
  {
    if IsMajor(code) then 0.0 else 0.008
  }

  function TrwRecord(item: RateRecord): RateRecord {
    var m := TrwMargin(item.currencyCode);
    Reprice(item, "TRW", Round2(Times(item.baseRate, 1.0 + m)), Round2(Times(item.baseRate, 0.99)),
            Round2(Times(item.baseRate, m)))
  }

  /** TRW: buys at the base rate plus its margin, sells 1% under it, all rounded. */
  function Trw(hana: seq<RateRecord>): (out: seq<RateRecord>)
    ensures DerivedFrom(hana, out, "TRW")
    ensures forall i :: 0 <= i < |out| ==> out[i] == TrwRecord(hana[i])
  {
    seq(|hana|, i requires 0 <= i < |hana| => TrwRecord(hana[i]))
  }

  /** `createAirportData` for one record and its margin pair. */
  function Margined(item: RateRecord, bank: string, m: Margin): RateRecord {
    Reprice(item, bank, Round2(Times(item.baseRate, 1.0 + m.buy)), Round2(Times(item.baseRate, 1.0 - m.sell)),
            Round2(Times(item.baseRate, m.buy)))
  }

  function AirportRecord(item: RateRecord, bank: string, table: map<string, Margin>): RateRecord {
    Margined(item, bank, MarginFor(table, item.currencyCode))
  }

  /** `createAirportData`: each record priced with its currency's margins from `table`. */
  function Airport(src: seq<RateRecord>, bank: string, table: map<string, Margin>): (out: seq<RateRecord>)
    ensures DerivedFrom(src, out, bank)
    ensures forall i :: 0 <= i < |out| ==> out[i] == AirportRecord(src[i], bank, table)
  {
    seq(|src|, i requires 0 <= i < |src| => AirportRecord(src[i], bank, table))
  }

  // ---------------------------------------------------------------- FX-based products

  /** A record of a product that trades at the base rate. */
  function BaseRateRecord(bank: string, code: string, unit: nat, base: Num): (r: RateRecord)
    ensures r.bankCode == bank && r.currencyCode == code && r.unit == unit && r.baseRate == base
    ensures AtBaseRate(r)
  {
    RateRecord(bank, code, unit, base, base, base, Fin(0.0))
  }

  predicate IsVnd(r: RateRecord) {
    r.currencyCode == "VND"
  }

  predicate IsUsd(q: FxQuote) {
    q.currencyCode == "USD"
  }

  /** The TOSS records for the KB Star FX quotes, one per quote. */
  function TossQuotes(fx: seq<FxQuote>): (out: seq<RateRecord>)
    ensures |out| == |fx|
    ensures forall i :: 0 <= i < |fx| ==>
              out[i] == BaseRateRecord("TOSS", fx[i].currencyCode, fx[i].unit, fx[i].baseRate)
  {
    seq(|fx|, i requires 0 <= i < |fx| =>
      BaseRateRecord("TOSS", fx[i].currencyCode, fx[i].unit, fx[i].baseRate))
  }

  /** TOSS: nothing without FX quotes; otherwise one record per quote, then a VND record
      borrowed from the first Hana VND record when there is one. */
  function Toss(fx: seq<FxQuote>, hana: seq<RateRecord>): seq<RateRecord> {
    if |fx| == 0 then []
    else
      match Find(hana, IsVnd)
      case None => TossQuotes(fx)
      case Some(v) => TossQuotes(fx) + [BaseRateRecord("TOSS", "VND", v.unit, v.baseRate)]
  }

  /** KAKAO: one USD record at the first USD quote's rate, with unit 1, or nothing. */
  function Kakao(fx: seq<FxQuote>): seq<RateRecord> {
    match Find(fx, IsUsd)
    case None => []
    case Some(q) => [BaseRateRecord("KAKAO", "USD", 1, q.baseRate)]
  }

  // ---------------------------------------------------------------- assembly

  /** The final list before stamping, in the order `runAll` appends the blocks. */
  function Assemble(kb: seq<RateRecord>, hana: seq<RateRecord>, woori: seq<RateRecord>,
                    shinhan: seq<RateRecord>, fx: seq<FxQuote>): seq<RateRecord>
  {
    kb + hana + woori + shinhan
    + Toss(fx, hana) + Trb(hana) + Trw(hana) + Kakao(fx)
    + AtBase(woori, "WOORI_POCKET") + AtBase(shinhan, "SOL_TRAVEL")
    + Airport(hana, "AIR_HANA", HANA_MARGINS) + Airport(woori, "AIR_WOORI", WOORI_MARGINS)
    + Airport(kb, "AIR_KB", KB_MARGINS)
  }

  /** A stored row: the record with the run's `kst_time`. */
  datatype Stamped = Stamped(record: RateRecord, kstTime: string)

  /** The final `map` that adds `kst_time`: every record keeps all its fields and gets
      the same stamp. */
  function Publish(data: seq<RateRecord>, kst: string): (out: seq<Stamped>)
    ensures |out| == |data|
    ensures forall i :: 0 <= i < |out| ==> out[i].record == data[i] && out[i].kstTime == kst
  {
    seq(|data|, i requires 0 <= i < |data| => Stamped(data[i], kst))
  }

  // ---------------------------------------------------------------- properties

  /** TOSS: nothing without quotes; otherwise the quotes in order at their base rates,
      followed by at most one VND record, which is present exactly when Hana has a VND
      record and then carries the first one's unit and base rate. With quotes limited to
      the five FX currencies the TOSS list holds VND at most once. */
  lemma TossSelection(fx: seq<FxQuote>, hana: seq<RateRecord>)
    ensures |fx| == 0 ==> Toss(fx, hana) == []
    ensures |fx| > 0 ==> && |fx| <= |Toss(fx, hana)| <= |fx| + 1
                         && Toss(fx, hana)[..|fx|] == TossQuotes(fx)
    ensures |fx| > 0 ==> (|Toss(fx, hana)| == |fx| + 1 <==> exists r :: r in hana && IsVnd(r))
    ensures |Toss(fx, hana)| == |fx| + 1 ==>
              exists i :: 0 <= i < |hana| && IsVnd(hana[i]) && (forall j :: 0 <= j < i ==> !IsVnd(hana[j]))
                          && Toss(fx, hana)[|fx|] == BaseRateRecord("TOSS", "VND", hana[i].unit, hana[i].baseRate)
    ensures forall r :: r in Toss(fx, hana) ==> r.bankCode == "TOSS" && AtBaseRate(r)
    ensures (forall q :: q in fx ==> q.currencyCode in FX_CURRENCIES) ==>
              forall i, j :: 0 <= i < j < |Toss(fx, hana)| ==> !(IsVnd(Toss(fx, hana)[i]) && IsVnd(Toss(fx, hana)[j]))
  {
    var t := Toss(fx, hana);
    if |fx| > 0 {
      assert t[..|fx|] == TossQuotes(fx);
      if forall q :: q in fx ==> q.currencyCode in FX_CURRENCIES {
        forall i | 0 <= i < |fx| ensures !IsVnd(t[i]) {
          assert fx[i] in fx;
        }
      }
    }
  }

  /** KAKAO: exactly one record when the quotes include USD, none otherwise; it is the
      first USD quote's rate at unit 1, bought and sold at that rate. */
  lemma KakaoSelection(fx: seq<FxQuote>)
    ensures |Kakao(fx)| <= 1
    ensures |Kakao(fx)| == 1 <==> exists q :: q in fx && IsUsd(q)
    ensures |Kakao(fx)| == 1 ==>
              exists i :: 0 <= i < |fx| && IsUsd(fx[i]) && (forall j :: 0 <= j < i ==> !IsUsd(fx[j]))
                          && Kakao(fx)[0] == RateRecord("KAKAO", "USD", 1, fx[i].baseRate, fx[i].baseRate, fx[i].baseRate, Fin(0.0))
  {
    if Find(fx, IsUsd).None? {
      assert forall q :: q in fx ==> !IsUsd(q);
    }
  }

  /** `parseFloat((0).toFixed(2))` is 0, so a zero spread is the rounded difference of
      equal prices. */
  lemma ZeroSpread(n: Num)
    requires n.Fin?
    ensures Round2(Minus(n, n)) == Fin(0.0)
  {
  }

  /** The products that trade at the base rate keep the spread rule of the bank records
      they copy: WOORI_POCKET, SOL_TRAVEL and the buying side of TRB. */
  lemma AtBaseKeepsNormalized(src: seq<RateRecord>, bank: string)
    requires forall r :: r in src ==> Normalized(r)
    ensures forall r :: r in AtBase(src, bank) ==> Normalized(r)
    ensures forall r :: r in Trb(src) ==> Normalized(r)
  {
    forall r | r in AtBase(src, bank) ensures Normalized(r) {
      var i :| 0 <= i < |src| && AtBase(src, bank)[i] == r;
      assert src[i] in src;
      ZeroSpread(r.baseRate);
    }
    forall r | r in Trb(src) ensures Normalized(r) {
      var i :| 0 <= i < |src| && Trb(src)[i] == r;
      assert src[i] in src;
      ZeroSpread(r.baseRate);
    }
  }

  /** For `x >= 0`, `Round2` gives `x` to the nearest hundredth, itself not negative. */
  lemma RoundedNonNegative(x: real)
    requires x >= 0.0
    ensures Round2(Fin(x)) == Fin(RoundHalfAway(x))
    ensures RoundHalfAway(x) >= 0.0
    ensures -0.005 <= RoundHalfAway(x) - x <= 0.005
  {
    RoundHalfAwayNearest(x);
    FloorBounds(x * 100.0 + 0.5);
  }

  /** TRW for a positive base rate: the selling price never exceeds the buying price and
      the spread is not negative; for USD, JPY and EUR it buys at the rounded base rate
      with no spread. */
  lemma TrwPrices(item: RateRecord)
    requires Positive(item.baseRate)
    ensures var r := TrwRecord(item);
            && r.cashBuy.Fin? && r.cashSell.Fin? && r.spread.Fin?
            && r.cashSell.v <= r.cashBuy.v && r.spread.v >= 0.0
    ensures IsMajor(item.currencyCode) ==>
              TrwRecord(item).cashBuy == Round2(item.baseRate) && TrwRecord(item).spread == Fin(0.0)
  {
    var b := item.baseRate.v;
    var m := TrwMargin(item.currencyCode);
    var hi, lo, sp := b * (1.0 + m), b * 0.99, b * m;
    if IsMajor(item.currencyCode) {
      assert hi == b && sp == 0.0;
    } else {
      assert hi == b + b * 0.008 && sp == b * 0.008;
    }
    RoundedNonNegative(hi);
    RoundedNonNegative(lo);
    RoundedNonNegative(sp);
    RoundHalfAwayMonotone(lo, hi);
  }

  /** A record priced with a sane margin pair, for a positive base rate: it never sells
      above its buying price, its spread is not negative, and the buying price less the
      spread is the base rate to within a hundredth. */
  lemma MarginedPricesOrdered(item: RateRecord, bank: string, m: Margin)
    requires SaneMargin(m) && Positive(item.baseRate)
    ensures var r := Margined(item, bank, m);
            && r.cashBuy.Fin? && r.cashSell.Fin? && r.spread.Fin?
            && r.cashSell.v <= r.cashBuy.v
            && r.spread.v >= 0.0
            && -0.01 <= r.cashBuy.v - r.spread.v - item.baseRate.v <= 0.01
  {
    ScaledOrder(item.baseRate, m.buy, m.sell);
    ScaledSpread(item.baseRate, m.buy);
  }

  /** The rounded products of a positive base rate with a margin pair: selling below the
      base rate never rounds above buying above it. */
  lemma ScaledOrder(base: Num, buy: real, sell: real)
    requires Positive(base) && 0.0 <= buy && 0.0 <= sell
    ensures var up, down := Round2(Times(base, 1.0 + buy)), Round2(Times(base, 1.0 - sell));
            up.Fin? && down.Fin? && down.v <= up.v
  {
    TimesOrdered(base, 1.0 - sell, 1.0 + buy);
    Round2Ordered(Times(base, 1.0 - sell), Times(base, 1.0 + buy));
  }

  /** The rounded spread of a positive base rate is not negative, and the rounded buying
      price less it is the base rate to within a hundredth. */
  lemma ScaledSpread(base: Num, buy: real)
    requires Positive(base) && 0.0 <= buy
    ensures var up, spread := Round2(Times(base, 1.0 + buy)), Round2(Times(base, buy));
            && up.Fin? && spread.Fin?
            && spread.v >= 0.0
            && -0.01 <= up.v - spread.v - base.v <= 0.01
  {
    MarginedPrices(base.v, buy);
    RoundTimes(base, 1.0 + buy);
    RoundTimes(base, buy);
  }

  lemma Round2Ordered(a: Num, c: Num)
    requires a.Fin? && c.Fin? && a.v <= c.v
    ensures Round2(a).Fin? && Round2(a).v <= Round2(c).v
  {
    RoundHalfAwayMonotone(a.v, c.v);
  }

  lemma TimesOrdered(base: Num, j: real, k: real)
    requires Positive(base) && j <= k
    ensures Times(base, j).Fin? && Times(base, j).v <= Times(base, k).v
  {
    ProductNonNegative(base.v, k - j);
    assert base.v * k - base.v * j == base.v * (k - j);
  }

  lemma RoundTimes(base: Num, k: real)
    requires base.Fin?
    ensures Round2(Times(base, k)) == Fin(RoundHalfAway(base.v * k))
  {
  }

  /** The airport products of a sane table obey `MarginedPricesOrdered`. */
  lemma AirportPrices(src: seq<RateRecord>, bank: string, table: map<string, Margin>)
    requires SaneTable(table)
    ensures forall i :: 0 <= i < |src| && Positive(src[i].baseRate) ==>
              var r := Airport(src, bank, table)[i];
              && r.cashBuy.Fin? && r.cashSell.Fin? && r.spread.Fin?
              && r.cashSell.v <= r.cashBuy.v
              && r.spread.v >= 0.0
              && -0.01 <= r.cashBuy.v - r.spread.v - src[i].baseRate.v <= 0.01
  {
    forall i | 0 <= i < |src| && Positive(src[i].baseRate)
      ensures var r := Airport(src, bank, table)[i];
              && r.cashBuy.Fin? && r.cashSell.Fin? && r.spread.Fin?
              && r.cashSell.v <= r.cashBuy.v
              && r.spread.v >= 0.0
              && -0.01 <= r.cashBuy.v - r.spread.v - src[i].baseRate.v <= 0.01
    {
      var m := MarginFor(table, src[i].currencyCode);
      assert SaneMargin(m);
      MarginedPricesOrdered(src[i], bank, m);
    }
  }

  /** The rounded prices of a base rate `b` with margins `buy` and `sell`. */
  lemma MarginedPrices(b: real, buy: real)
    requires b > 0.0 && 0.0 <= buy
    ensures RoundHalfAway(b * buy) >= 0.0
    ensures -0.01 <= RoundHalfAway(b * (1.0 + buy)) - RoundHalfAway(b * buy) - b <= 0.01
  {
    var bought := b * buy;
    ProductNonNegative(b, buy);
    assert b * (1.0 + buy) == b + bought;
    RoundedNonNegative(b + bought);
    RoundedNonNegative(bought);
  }

  lemma ProductNonNegative(x: real, y: real)
    requires x >= 0.0 && y >= 0.0
    ensures x * y >= 0.0
  {
  }

  /** Every record of `s` has one of the six target currencies. */
  predicate AllTarget(s: seq<RateRecord>) {
    forall r :: r in s ==> r.currencyCode in TARGET_CURRENCIES
  }

  lemma AllTargetConcat(a: seq<RateRecord>, b: seq<RateRecord>)
    requires AllTarget(a) && AllTarget(b)
    ensures AllTarget(a + b)
  {
  }

  /** A derived block has the currencies of its source. */
  lemma DerivedTarget(src: seq<RateRecord>, out: seq<RateRecord>, bank: string)
    requires AllTarget(src) && DerivedFrom(src, out, bank)
    ensures AllTarget(out)
  {
    forall r | r in out ensures r.currencyCode in TARGET_CURRENCIES {
      var i :| 0 <= i < |out| && out[i] == r;
      assert src[i] in src;
    }
  }

  lemma TossTarget(fx: seq<FxQuote>, hana: seq<RateRecord>)
    requires forall q :: q in fx ==> q.currencyCode in FX_CURRENCIES
    ensures AllTarget(Toss(fx, hana))
  {
    var t := Toss(fx, hana);
    forall r | r in t ensures r.currencyCode in TARGET_CURRENCIES {
      var i :| 0 <= i < |t| && t[i] == r;
      if i < |fx| {
        assert fx[i] in fx;
      }
    }
  }

  /** Every record in the final list has one of the six target currencies, provided the
      bank lists do and the quotes use the FX currencies. */
  lemma AssembledCurrencies(kb: seq<RateRecord>, hana: seq<RateRecord>, woori: seq<RateRecord>,
                            shinhan: seq<RateRecord>, fx: seq<FxQuote>)
    requires AllTarget(kb) && AllTarget(hana) && AllTarget(woori) && AllTarget(shinhan)
    requires forall q :: q in fx ==> q.currencyCode in FX_CURRENCIES
    ensures AllTarget(Assemble(kb, hana, woori, shinhan, fx))
  {
    var b1, b2, b3, b4 := Toss(fx, hana), Trb(hana), Trw(hana), Kakao(fx);
    var b5, b6 := AtBase(woori, "WOORI_POCKET"), AtBase(shinhan, "SOL_TRAVEL");
    var b7, b8, b9 := Airport(hana, "AIR_HANA", HANA_MARGINS), Airport(woori, "AIR_WOORI", WOORI_MARGINS),
                      Airport(kb, "AIR_KB", KB_MARGINS);
    TossTarget(fx, hana);
    DerivedTarget(hana, b2, "TRB");
    DerivedTarget(hana, b3, "TRW");
    assert AllTarget(b4);
    DerivedTarget(woori, b5, "WOORI_POCKET");
    DerivedTarget(shinhan, b6, "SOL_TRAVEL");
    DerivedTarget(hana, b7, "AIR_HANA");
    DerivedTarget(woori, b8, "AIR_WOORI");
    DerivedTarget(kb, b9, "AIR_KB");
    var all := kb;
    AllTargetConcat(all, hana); all := all + hana;
    AllTargetConcat(all, woori); all := all + woori;
    AllTargetConcat(all, shinhan); all := all + shinhan;
    AllTargetConcat(all, b1); all := all + b1;
    AllTargetConcat(all, b2); all := all + b2;
    AllTargetConcat(all, b3); all := all + b3;
    AllTargetConcat(all, b4); all := all + b4;
    AllTargetConcat(all, b5); all := all + b5;
    AllTargetConcat(all, b6); all := all + b6;
    AllTargetConcat(all, b7); all := all + b7;
    AllTargetConcat(all, b8); all := all + b8;
    AllTargetConcat(all, b9); all := all + b9;
  }

  /** Appending keeps every prefix of the front part. */
  lemma PrefixKept(a: seq<RateRecord>, b: seq<RateRecord>, n: nat)
    requires n <= |a|
    ensures (a + b)[..n] == a[..n]
  {
  }

  /** The final list holds the bank lists unchanged at the front, each bank's products
      once per record (two for KB, four for Hana, three for Woori, two for Shinhan), the
      TOSS and KAKAO records, and nothing else. */
  lemma AssembledSize(kb: seq<RateRecord>, hana: seq<RateRecord>, woori: seq<RateRecord>,
                      shinhan: seq<RateRecord>, fx: seq<FxQuote>)
    ensures var all := Assemble(kb, hana, woori, shinhan, fx);
            && all[..|kb| + |hana| + |woori| + |shinhan|] == kb + hana + woori + shinhan
            && |all| == 2 * |kb| + 4 * |hana| + 3 * |woori| + 2 * |shinhan| + |Toss(fx, hana)| + |Kakao(fx)|
  {
    var front := kb + hana + woori + shinhan;
    var n := |front|;
    var b1, b2, b3, b4 := Toss(fx, hana), Trb(hana), Trw(hana), Kakao(fx);
    var b5, b6 := AtBase(woori, "WOORI_POCKET"), AtBase(shinhan, "SOL_TRAVEL");
    var b7, b8, b9 := Airport(hana, "AIR_HANA", HANA_MARGINS), Airport(woori, "AIR_WOORI", WOORI_MARGINS),
                      Airport(kb, "AIR_KB", KB_MARGINS);
    assert |b2| == |b3| == |b7| == |hana|;
    assert |b5| == |b8| == |woori| && |b6| == |shinhan| && |b9| == |kb|;
    var all := front;
    assert all[..n] == front;
    PrefixKept(all, b1, n); all := all + b1;
    PrefixKept(all, b2, n); all := all + b2;
    PrefixKept(all, b3, n); all := all + b3;
    PrefixKept(all, b4, n); all := all + b4;
    PrefixKept(all, b5, n); all := all + b5;
    PrefixKept(all, b6, n); all := all + b6;
    PrefixKept(all, b7, n); all := all + b7;
    PrefixKept(all, b8, n); all := all + b8;
    PrefixKept(all, b9, n); all := all + b9;
    assert all == Assemble(kb, hana, woori, shinhan, fx);
  }

  /** Without any source the run stores nothing. */
  lemma TotalOutage(kst: string)
    ensures Publish(Assemble([], [], [], [], []), kst) == []
  {
    assert Toss([], []) == [] && Kakao([]) == [];
  }

  /** A Hana USD base rate of 1400: TRW buys at 1400 and sells at 1386 with no spread. */
  lemma TrwUsdExample()
    ensures var r := TrwRecord(RateRecord("HANA", "USD", 1, Fin(1424.5), Fin(1375.5), Fin(1400.0), Fin(24.5)));
            r == RateRecord("TRW", "USD", 1, Fin(1400.0), Fin(1386.0), Fin(1400.0), Fin(0.0))
  {
  }

  /** A Hana JPY base rate of 900 per 100 yen at the airport: 940.50 to buy, 837.00 to
      sell, a spread of 40.50. */
  lemma AirportJpyExample()
    ensures var r := AirportRecord(RateRecord("HANA", "JPY", 100, Fin(915.75), Fin(884.25), Fin(900.0), Fin(15.75)),
                                   "AIR_HANA", HANA_MARGINS);
            r == RateRecord("AIR_HANA", "JPY", 100, Fin(940.5), Fin(837.0), Fin(900.0), Fin(40.5))
  {
  }

  /** A currency missing from the table falls back to `DEFAULT`: 8% on both sides. */
  lemma AirportDefaultExample()
    ensures var r := AirportRecord(RateRecord("KB", "GBP", 1, Fin(1800.0), Fin(1700.0), Fin(1750.0), Fin(50.0)),
                                   "AIR_KB", KB_MARGINS);
            r == RateRecord("AIR_KB", "GBP", 1, Fin(1890.0), Fin(1610.0), Fin(1750.0), Fin(140.0))
  {
  }

  /** The TOSS block of `runAll`: the quotes mapped to records, the Hana VND record
      pushed after them, all appended to `data` when there are quotes. */
  method AppendToss(data: seq<RateRecord>, fx: seq<FxQuote>, hana: seq<RateRecord>)
    returns (r: seq<RateRecord>)
    ensures r == data + Toss(fx, hana)
  {
    r := data;
    if |fx| > 0 {
      var toss := TossQuotes(fx);
      var hanaVnd := Find(hana, IsVnd);
      if hanaVnd.Some? {
        toss := toss + [BaseRateRecord("TOSS", "VND", hanaVnd.value.unit, hanaVnd.value.baseRate)];
      }
      r := r + toss;
    }
  }

  /** The KAKAO block of `runAll`: one record pushed when the quotes include USD. */
  method AppendKakao(data: seq<RateRecord>, fx: seq<FxQuote>) returns (r: seq<RateRecord>)
    ensures r == data + Kakao(fx)
  {
    r := data;
    if |fx| > 0 {
      var kbUsd := Find(fx, IsUsd);
      if kbUsd.Some? {
        r := r + [BaseRateRecord("KAKAO", "USD", 1, kbUsd.value.baseRate)];
      }
    }
  }

  /** `if (src.length > 0) finalData = [...finalData, ...block]`: a block derived from
      an empty source is empty, so the guard never changes the result. */
  method AppendWhenAny(data: seq<RateRecord>, src: seq<RateRecord>, block: seq<RateRecord>)
    returns (r: seq<RateRecord>)
    requires |src| == 0 ==> block == []
    ensures r == data + block
  {
    r := data;
    if |src| > 0 {
      r := r + block;
    }
  }

  /** `runAll` after the crawls: `finalData` grows block by block under the same guards
      as the source, then every record is stamped with `kst`. */
  method RunAll(kb: seq<RateRecord>, hana: seq<RateRecord>, woori: seq<RateRecord>,
                shinhan: seq<RateRecord>, fx: seq<FxQuote>, kst: string)
    returns (finalData: seq<Stamped>)
    ensures finalData == Publish(Assemble(kb, hana, woori, shinhan, fx), kst)
  {
    var data := kb + hana + woori + shinhan;
    data := AppendToss(data, fx, hana);
    data := AppendWhenAny(data, hana, Trb(hana));
    data := AppendWhenAny(data, hana, Trw(hana));
    data := AppendKakao(data, fx);
    data := AppendWhenAny(data, woori, AtBase(woori, "WOORI_POCKET"));
    data := AppendWhenAny(data, shinhan, AtBase(shinhan, "SOL_TRAVEL"));
    data := AppendWhenAny(data, hana, Airport(hana, "AIR_HANA", HANA_MARGINS));
    data := AppendWhenAny(data, woori, Airport(woori, "AIR_WOORI", WOORI_MARGINS));
    data := AppendWhenAny(data, kb, Airport(kb, "AIR_KB", KB_MARGINS));
    assert data == Assemble(kb, hana, woori, shinhan, fx);
    finalData := Publish(data, kst);
  }
}
