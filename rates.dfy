/** The normalised rate record every source is reduced to, the currency lists that
    filter the sources, and the two list operations the crawler builds on: collecting the
    rows a row rule accepts (`.each` with a conditional `push`) and `Array.prototype.find`. */
module Rates {
  import opened Options
  import opened JsNumber

  /** `TARGET_CURRENCIES`: the currencies kept from every bank page. */
  const TARGET_CURRENCIES: seq<string> := ["USD", "JPY", "EUR", "CNY", "VND", "THB"]

  /** The currencies kept from the KB Star FX feed (no VND). */
  const FX_CURRENCIES: seq<string> := ["USD", "EUR", "JPY", "CNY", "THB"]

  /** One row of the output table, in the field order the crawler writes it. */
  datatype RateRecord = RateRecord(
    bankCode: string,
    currencyCode: string,
    unit: nat,
    cashBuy: Num,
    cashSell: Num,
    baseRate: Num,
    spread: Num)

  /** A mid-rate quote of the KB Star FX feed. */
  datatype FxQuote = FxQuote(currencyCode: string, unit: nat, baseRate: Num, updatedAt: string)

  /** What every record read from a bank page satisfies: an allowed currency, a base rate
      that passed at least the truthiness test, and a spread equal to the cash buying
      rate minus the base rate, rounded to hundredths. */
  predicate Normalized(r: RateRecord) {
    && r.currencyCode in TARGET_CURRENCIES
    && Truthy(r.baseRate)
    && r.spread == Round2(Minus(r.cashBuy, r.baseRate))
  }

  /** The results of `f` on the elements of `xs` it accepts, in order. */
  function FilterMap<T, U>(xs: seq<T>, f: T -> Option<U>): (ys: seq<U>)
    ensures |ys| <= |xs|
  {
    if xs == [] then []
    else
      var last := f(xs[|xs| - 1]);
      FilterMap(xs[..|xs| - 1], f) + (if last.Some? then [last.value] else [])
  }

  /** One more element: its value, if accepted, comes after the values collected so far. */
  lemma FilterMapStep<T, U>(xs: seq<T>, i: nat, f: T -> Option<U>)
    requires i < |xs|
    ensures FilterMap(xs[..i + 1], f) == FilterMap(xs[..i], f) + (if f(xs[i]).Some? then [f(xs[i]).value] else [])
  {
    assert xs[..i + 1][..i] == xs[..i];
  }

  /** Every collected value comes from an element of the input. */
  lemma {:induction false} FilterMapSound<T, U>(xs: seq<T>, f: T -> Option<U>)
    ensures forall y :: y in FilterMap(xs, f) ==> exists x :: x in xs && f(x) == Some(y)
  {
    if xs != [] {
      var init := xs[..|xs| - 1];
      FilterMapSound(init, f);
      forall y | y in FilterMap(xs, f)
        ensures exists x :: x in xs && f(x) == Some(y)
      {
        if y in FilterMap(init, f) {
          var x :| x in init && f(x) == Some(y);
          assert x in xs;
        } else {
          assert f(xs[|xs| - 1]) == Some(y);
        }
      }
    }
  }

  /** Every element the rule accepts contributes its value. */
  lemma {:induction false} FilterMapComplete<T, U>(xs: seq<T>, f: T -> Option<U>)
    ensures forall x :: x in xs && f(x).Some? ==> f(x).value in FilterMap(xs, f)
  {
    if xs != [] {
      var init := xs[..|xs| - 1];
      FilterMapComplete(init, f);
      forall x | x in xs && f(x).Some?
        ensures f(x).value in FilterMap(xs, f)
      {
        if x != xs[|xs| - 1] {
          var i :| 0 <= i < |xs| && xs[i] == x;
          assert x in init by { assert init[i] == x; }
        }
      }
    }
  }

  /** `xs.find(p)`: the first element satisfying `p`, or nothing. */
  function Find<T>(xs: seq<T>, p: T -> bool): (r: Option<T>)
    ensures r.Some? ==> exists i :: 0 <= i < |xs| && xs[i] == r.value && p(xs[i])
                                    && forall j :: 0 <= j < i ==> !p(xs[j])
    ensures r.None? ==> forall x :: x in xs ==> !p(x)
  {
    if xs == [] then None
    else if p(xs[0]) then Some(xs[0])
    else
      var r := Find(xs[1..], p);
      assert r.Some? ==> exists i :: 0 < i < |xs| && xs[i] == r.value && p(xs[i])
                                     && forall j :: 0 <= j < i ==> !p(xs[j]) by {
        if r.Some? {
          var i :| 0 <= i < |xs[1..]| && xs[1..][i] == r.value && p(xs[1..][i])
                   && forall j :: 0 <= j < i ==> !p(xs[1..][j]);
          assert forall j :: 0 <= j < i + 1 ==> !p(xs[j]) by {
            forall j | 0 <= j < i + 1 ensures !p(xs[j]) {
              if j > 0 { assert xs[j] == xs[1..][j - 1]; }
            }
          }
        }
      }
      r
  }
}
