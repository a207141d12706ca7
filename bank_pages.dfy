/** Reading rates out of four sources once their markup has been reduced to text:
    the KB table (`crawlKB`), the Hana currency list (`crawlHana`), the frames of the
    rendered Shinhan page (`crawlShinhan`) and the KB Star FX feed (`crawlKBStarFX`).
    A row is the sequence of its cell texts; a page that could not be fetched, decoded
    or rendered is `None`, which the crawler's `catch` turns into an empty result. */
module BankPages {
  import opened Options
  import opened JsText
  import opened JsNumber
  import opened Rates

  type Row = seq<string>

  /** `parseFloat(text.replace(/,/g, ''))`. */
  function ParseAmount(text: string): Num {
    ParseFloat(StripCommas(text))
  }

  /** A rate printed with a thousands separator reads as the number without it, whether
      read with `|| 0` or without. */
  lemma GroupedAmount(a: string, b: string)
    requires |a| > 0 && AllDigits(a) && |b| == 3 && AllDigits(b)
    ensures ParseAmount(a + "," + b) == Fin((DigitsValue(a) * 1000 + DigitsValue(b)) as real)
    ensures SpanValue(a + "," + b) == ParseAmount(a + "," + b)
  {
    UngroupDigits(a, b);
    GroupedValue(a, b);
    assert SpanValue(a + "," + b) == ParseOrZero(a + b);
  }

  /** The digits on both sides of the separator, read together. */
  lemma GroupedValue(a: string, b: string)
    requires |a| > 0 && AllDigits(a) && |b| == 3 && AllDigits(b)
    ensures ParseFloat(a + b) == Fin((DigitsValue(a) * 1000 + DigitsValue(b)) as real)
  {
    DigitsConcat(a, b);
    assert Pow10(|b|) == 1000;
    ParseDigits(a + b);
  }

  /** Stripping commas from digits around a separator leaves the digits. */
  lemma UngroupDigits(a: string, b: string)
    requires AllDigits(a) && AllDigits(b)
    ensures StripCommas(a + "," + b) == a + b
  {
    calc {
      StripCommas(a + "," + b);
      { StripCommasConcat(a + ",", b); }
      StripCommas(a + ",") + StripCommas(b);
      { StripCommasConcat(a, ","); }
      StripCommas(a) + StripCommas(",") + StripCommas(b);
      { assert StripCommas(",") == ""; DigitsKept(a); DigitsKept(b); }
      a + "" + b;
    }
  }

  lemma DigitsKept(a: string)
    requires AllDigits(a)
    ensures StripCommas(a) == a
  {
    assert ',' !in a by { forall i | 0 <= i < |a| ensures a[i] != ',' { assert IsDigit(a[i]); } }
  }

  /** Quoted per 100 units when the currency's name mentions "100". */
  function UnitFromName(name: string): (unit: nat)
    ensures unit == 1 || unit == 100
    ensures unit == 100 <==> Contains(name, "100")
  {
    if Contains(name, "100") then 100 else 1
  }

  // ---------------------------------------------------------------- KB

  /** One `tr` of the KB table: code, name, base rate, ..., cash buying rate, cash
      selling rate. A seventh cell may be missing; its text then reads as 0. */
  function KBRow(tds: Row): (r: Option<RateRecord>)
    ensures r.Some? <==> |tds| > 5 && Trim(tds[0]) in TARGET_CURRENCIES
                         && Truthy(ParseAmount(tds[2]))
    ensures r.Some? ==> && r.value.bankCode == "KB" && Normalized(r.value)
                        && r.value.currencyCode == Trim(tds[0])
                        && r.value.unit == UnitFromName(Trim(tds[1]))
                        && r.value.baseRate == ParseAmount(tds[2])
                        && r.value.cashBuy == ParseAmount(tds[5])
                        && r.value.cashSell == ParseOrZero(if |tds| > 6 then StripCommas(tds[6]) else "")
  {
    if |tds| <= 5 then None
    else
      var currency := Trim(tds[0]);
      var name := Trim(tds[1]);
      if currency !in TARGET_CURRENCIES then None
      else
        var baseRate := ParseAmount(tds[2]);
        var cashBuy := ParseAmount(tds[5]);
        var cashSell := ParseOrZero(if |tds| > 6 then StripCommas(tds[6]) else "");
        if Truthy(baseRate) then
          Some(RateRecord("KB", currency, UnitFromName(name), cashBuy, cashSell, baseRate,
                          Round2(Minus(cashBuy, baseRate))))
        else None
  }

  /** Every record of a KB page is a normalised KB record quoted per 1 or per 100. */
  lemma KBRecordsNormalized(rows: seq<Row>)
    ensures forall r :: r in FilterMap(rows, KBRow) ==>
              r.bankCode == "KB" && Normalized(r) && (r.unit == 1 || r.unit == 100)
  {
    FilterMapSound(rows, KBRow);
  }

  /** `crawlKB`: the records of the accepted rows, in table order. */
  method CrawlKB(page: Option<seq<Row>>) returns (results: seq<RateRecord>)
    ensures page.None? ==> results == []
    ensures page.Some? ==> results == FilterMap(page.value, KBRow)
    ensures forall r :: r in results ==> r.bankCode == "KB" && Normalized(r)
  {
    results := [];
    if page.None? {
      return;
    }
    var rows := page.value;
    var i := 0;
    while i < |rows|
      invariant 0 <= i <= |rows|
      invariant results == FilterMap(rows[..i], KBRow)
    {
      var record := KBRow(rows[i]);
      if record.Some? {
        results := results + [record.value];
      }
      FilterMapStep(rows, i, KBRow);
      i := i + 1;
    }
    assert rows[..i] == rows;
    KBRecordsNormalized(rows);
  }

  // ---------------------------------------------------------------- Hana

  /** One `li` of the Hana list: the texts of its name span and of its three rate spans
      (an absent span has the empty text). */
  datatype HanaItem = HanaItem(name: string, dealBascRt: string, acmnSllRt: string, acmnBuyRt: string)

  /** What `/^(.+?)\s+([A-Z]{3})(?:\s*\((\d+)\))?/` captures from a Hana name: the
      currency code and, when present, the number in parentheses. */
  datatype HanaLabel = HanaLabel(code: string, unit: Option<nat>)

  /** The optional group `(?:\s*\((\d+)\))?` tried at `i`. */
  function UnitGroup(s: string, i: nat): Option<nat>
    requires i <= |s|
  {
    var f := Span(s, i, IsSpace);
    if f < |s| && s[f] == '(' then
      var g := Span(s, f + 1, IsDigit);
      if f + 1 < g < |s| && s[g] == ')' then Some(DigitsValue(s[f + 1..g])) else None
    else None
  }

  /** The rest of the pattern, `\s+([A-Z]{3})(...)?`, tried right after a lazy prefix of
      length `k`. `\s+` must take the whole white-space run, since a letter has to follow it. */
  function MatchAfter(s: string, k: nat): (r: Option<HanaLabel>)
    requires 0 < k <= |s|
    ensures r.Some? ==> 0 < |r.value.code| == 3 && forall i :: 0 <= i < 3 ==> IsUpper(r.value.code[i])
  {
    if k == |s| || !IsSpace(s[k]) then None
    else
      var e := Span(s, k, IsSpace);
      if e + 3 <= |s| && IsUpper(s[e]) && IsUpper(s[e + 1]) && IsUpper(s[e + 2]) then
        Some(HanaLabel(s[e..e + 3], UnitGroup(s, e + 3)))
      else None
  }

  /** The lazy `(.+?)` tries prefix lengths 1, 2, ... in turn; it cannot grow past a line
      terminator. */
  function MatchFrom(s: string, k: nat): (r: Option<HanaLabel>)
    requires 0 < k
    ensures r.Some? ==> |r.value.code| == 3 && forall i :: 0 <= i < 3 ==> IsUpper(r.value.code[i])
    decreases |s| + 1 - k
  {
    if k > |s| || IsLineTerminator(s[k - 1]) then None
    else
      match MatchAfter(s, k)
      case Some(found) => Some(found)
      case None => MatchFrom(s, k + 1)
  }

  /** `name.match(/^(.+?)\s+([A-Z]{3})(?:\s*\((\d+)\))?/)`. */
  function MatchHanaName(name: string): (r: Option<HanaLabel>)
    ensures r.Some? ==> |r.value.code| == 3 && forall i :: 0 <= i < 3 ==> IsUpper(r.value.code[i])
  {
    MatchFrom(name, 1)
  }

  /** The lazy prefix grows past every length at which the rest of the pattern fails. */
  lemma {:induction false} MatchFromSkips(s: string, k: nat, j: nat)
    requires 0 < k <= j <= |s|
    requires forall i :: k - 1 <= i < j - 1 ==> !IsLineTerminator(s[i])
    requires forall i :: k <= i < j ==> MatchAfter(s, i).None?
    ensures MatchFrom(s, k) == MatchFrom(s, j)
    decreases j - k
  {
    if k < j {
      MatchFromSkips(s, k + 1, j);
    }
  }

  /** The `\s+([A-Z]{3})(...)?` part of the pattern found right after a prefix of length
      `j`: white space up to `e`, three capitals at `e`, and the label `l` they and the unit
      group after them give. */
  predicate RestAt(s: string, j: nat, e: nat, l: HanaLabel) {
    && j < e && e + 3 <= |s|
    && (forall i :: j <= i < e ==> IsSpace(s[i]))
    && IsUpper(s[e]) && IsUpper(s[e + 1]) && IsUpper(s[e + 2])
    && l == HanaLabel(s[e..e + 3], UnitGroup(s, e + 3))
  }

  /** The whole pattern matched with a lazy prefix of length `j`: the prefix holds no line
      terminator, the rest is found after it, and after no shorter prefix is it found. */
  ghost predicate LazyMatchAt(s: string, j: nat, e: nat, l: HanaLabel) {
    && 0 < j <= |s|
    && (forall i :: 0 <= i < j ==> !IsLineTerminator(s[i]))
    && RestAt(s, j, e, l)
    && forall j': nat, e': nat, l' :: 0 < j' < j ==> !RestAt(s, j', e', l')
  }

  lemma RestAtMatchAfter(s: string, j: nat, e: nat, l: HanaLabel)
    requires 0 < j <= |s|
    ensures RestAt(s, j, e, l) ==> MatchAfter(s, j) == Some(l)
  {
    if RestAt(s, j, e, l) {
      assert !IsSpace(s[e]);
      SpanUnique(s, j, IsSpace, e);
    }
  }

  lemma MatchAfterRestAt(s: string, j: nat)
    requires 0 < j <= |s|
    ensures MatchAfter(s, j).Some? ==> RestAt(s, j, Span(s, j, IsSpace), MatchAfter(s, j).value)
  {
  }

  /** The lazy prefix, tried from length `k` on, first succeeds at length `j` with
      label `l`, without crossing a line terminator. */
  ghost predicate FoundFrom(s: string, k: nat, j: nat, l: HanaLabel) {
    && 0 < k <= j <= |s|
    && (forall i :: k - 1 <= i < j ==> !IsLineTerminator(s[i]))
    && MatchAfter(s, j) == Some(l)
    && forall j' :: k <= j' < j ==> MatchAfter(s, j').None?
  }

  lemma FoundFromStep(s: string, k: nat, j: nat, l: HanaLabel)
    requires 0 < k < |s| && !IsLineTerminator(s[k - 1]) && MatchAfter(s, k).None?
    requires FoundFrom(s, k + 1, j, l)
    ensures FoundFrom(s, k, j, l)
  {
  }

  /** A match from prefix length `k` on is the rest of the pattern found after some
      prefix, with no line terminator skipped and no earlier success. */
  lemma {:induction false} MatchFromSound(s: string, k: nat)
    requires 0 < k && MatchFrom(s, k).Some?
    ensures exists j: nat :: FoundFrom(s, k, j, MatchFrom(s, k).value)
    decreases |s| + 1 - k
  {
    var l := MatchFrom(s, k).value;
    if MatchAfter(s, k).None? {
      assert MatchFrom(s, k + 1) == MatchFrom(s, k);
      MatchFromSound(s, k + 1);
      var j: nat :| FoundFrom(s, k + 1, j, l);
      FoundFromStep(s, k, j, l);
    } else {
      assert FoundFrom(s, k, k, l);
    }
  }

  /** A name matches with label `l` exactly when the lazy prefix, the white space, the
      three capitals and the unit group describe it. */
  lemma MatchHanaNameLazy(s: string, l: HanaLabel)
    ensures MatchHanaName(s) == Some(l) <==> exists j: nat, e: nat :: LazyMatchAt(s, j, e, l)
  {
    if MatchHanaName(s) == Some(l) {
      MatchFromSound(s, 1);
      var j: nat :| FoundFrom(s, 1, j, l);
      MatchAfterRestAt(s, j);
      forall j', e', l' | 0 < j' < j ensures !RestAt(s, j', e', l') {
        RestAtMatchAfter(s, j', e', l');
      }
      assert LazyMatchAt(s, j, Span(s, j, IsSpace), l);
    }
    if exists j: nat, e: nat :: LazyMatchAt(s, j, e, l) {
      var j: nat, e: nat :| LazyMatchAt(s, j, e, l);
      RestAtMatchAfter(s, j, e, l);
      forall j' | 1 <= j' < j ensures MatchAfter(s, j').None? {
        MatchAfterRestAt(s, j');
      }
      MatchFromSkips(s, 1, j);
    }
  }

  /** A name whose first `k` characters hold no white space, followed by white space up
      to `e` and three capitals, matches with those capitals as the code; whatever follows
      is left to the unit group, tried from the end `t` of the code. */
  lemma HanaNameAt(s: string, k: nat, e: nat, t: nat)
    requires 0 < k < e && t == e + 3 <= |s|
    requires forall i :: 0 <= i < k ==> !IsSpace(s[i])
    requires forall i :: k <= i < e ==> IsSpace(s[i])
    requires IsUpper(s[e]) && IsUpper(s[e + 1]) && IsUpper(s[e + 2])
    ensures MatchHanaName(s) == Some(HanaLabel(s[e..t], UnitGroup(s, t)))
  {
    PrefixSkipped(s, k);
    CodeAfterPrefix(s, k, e, t);
  }

  /** No lazy prefix shorter than a word without white space can be followed by `\s+`. */
  lemma PrefixSkipped(s: string, k: nat)
    requires 0 < k <= |s|
    requires forall i :: 0 <= i < k ==> !IsSpace(s[i])
    ensures MatchFrom(s, 1) == MatchFrom(s, k)
  {
    assert forall i :: 0 <= i < k ==> !IsLineTerminator(s[i]);
    forall i | 1 <= i < k ensures MatchAfter(s, i).None? {
      assert !IsSpace(s[i]);
    }
    MatchFromSkips(s, 1, k);
  }

  /** The prefix of length `k` is followed by white space up to `e` and three capitals. */
  lemma CodeAfterPrefix(s: string, k: nat, e: nat, t: nat)
    requires 0 < k < e && t == e + 3 <= |s|
    requires !IsSpace(s[k - 1])
    requires forall i :: k <= i < e ==> IsSpace(s[i])
    requires IsUpper(s[e]) && IsUpper(s[e + 1]) && IsUpper(s[e + 2])
    ensures MatchFrom(s, k) == Some(HanaLabel(s[e..t], UnitGroup(s, t)))
  {
    CodeAfter(s, k, e, t);
    assert !IsLineTerminator(s[k - 1]);
  }

  /** The rest of the pattern, tried after the prefix of length `k`, finds those capitals. */
  lemma CodeAfter(s: string, k: nat, e: nat, t: nat)
    requires 0 < k < e && t == e + 3 <= |s|
    requires forall i :: k <= i < e ==> IsSpace(s[i])
    requires IsUpper(s[e]) && IsUpper(s[e + 1]) && IsUpper(s[e + 2])
    ensures MatchAfter(s, k) == Some(HanaLabel(s[e..t], UnitGroup(s, t)))
  {
    assert IsSpace(s[k]) && !IsSpace(s[e]);
    SpanUnique(s, k, IsSpace, e);
  }

  /** The optional unit group over white space up to `f`, a '(' at `f`, digits and a ')'
      at `g`: the digits are the unit. */
  lemma UnitGroupDigits(s: string, i: nat, f: nat, g: nat, d: string)
    requires i <= f && f + 1 < g < |s|
    requires forall j :: i <= j < f ==> IsSpace(s[j])
    requires s[f] == '(' && s[g] == ')'
    requires s[f + 1..g] == d && AllDigits(d)
    ensures UnitGroup(s, i) == Some(DigitsValue(d))
  {
    SliceDigits(s, f + 1, g);
    SpanUnique(s, i, IsSpace, f);
    SpanUnique(s, f + 1, IsDigit, g);
    UnitGroupSpans(s, i, f, g);
  }

  /** The digits of a slice are digits of the text at their own places. */
  lemma SliceDigits(s: string, lo: nat, hi: nat)
    requires lo <= hi <= |s| && AllDigits(s[lo..hi])
    ensures forall j :: lo <= j < hi ==> IsDigit(s[j])
  {
    forall j | lo <= j < hi ensures IsDigit(s[j]) {
      assert s[j] == s[lo..hi][j - lo];
    }
  }

  /** The unit group read off the two runs it is made of. */
  lemma UnitGroupSpans(s: string, i: nat, f: nat, g: nat)
    requires i <= f && f + 1 < g < |s|
    requires Span(s, i, IsSpace) == f && s[f] == '('
    requires Span(s, f + 1, IsDigit) == g && s[g] == ')'
    ensures UnitGroup(s, i) == Some(DigitsValue(s[f + 1..g]))
  {
  }

  /** For any word `p` without white space, white space `w` and three capitals `c`, the
      name `p + w + c + u` matches with code `c`; the unit group is tried on `u`. */
  lemma HanaNameCode(p: string, w: string, c: string, u: string)
    requires |p| > 0 && forall i :: 0 <= i < |p| ==> !IsSpace(p[i])
    requires |w| > 0 && forall i :: 0 <= i < |w| ==> IsSpace(w[i])
    requires |c| == 3 && forall i :: 0 <= i < 3 ==> IsUpper(c[i])
    ensures MatchHanaName(p + w + c + u) == Some(HanaLabel(c, UnitGroup(p + w + c + u, |p + w + c|)))
  {
    PiecesAt(p, w, c, u);
    HanaNameAt(p + w + c + u, |p|, |p| + |w|, |p + w + c|);
  }

  /** Where the word, the white space and the code sit in `p + w + c + u`. */
  lemma PiecesAt(p: string, w: string, c: string, u: string)
    requires |p| > 0 && forall i :: 0 <= i < |p| ==> !IsSpace(p[i])
    requires |w| > 0 && forall i :: 0 <= i < |w| ==> IsSpace(w[i])
    requires |c| == 3 && forall i :: 0 <= i < 3 ==> IsUpper(c[i])
    ensures var s, k, e := p + w + c + u, |p|, |p| + |w|;
            && e + 3 == |p + w + c| <= |s|
            && (forall i :: 0 <= i < k ==> !IsSpace(s[i]))
            && (forall i :: k <= i < e ==> IsSpace(s[i]))
            && IsUpper(s[e]) && IsUpper(s[e + 1]) && IsUpper(s[e + 2])
            && s[e..|p + w + c|] == c
  {
    var s, k, e := p + w + c + u, |p|, |p| + |w|;
    forall i | 0 <= i < k ensures !IsSpace(s[i]) { assert s[i] == p[i]; }
    forall i | k <= i < e ensures IsSpace(s[i]) { assert s[i] == w[i - k]; }
    forall i | 0 <= i < 3 ensures s[e + i] == c[i] { assert s[e + i] == (p + w + c)[e + i]; }
    assert s[e..e + 3] == c;
  }

  /** With nothing after the code there is no unit. */
  lemma HanaNamePlain(p: string, w: string, c: string)
    requires |p| > 0 && forall i :: 0 <= i < |p| ==> !IsSpace(p[i])
    requires |w| > 0 && forall i :: 0 <= i < |w| ==> IsSpace(w[i])
    requires |c| == 3 && forall i :: 0 <= i < 3 ==> IsUpper(c[i])
    ensures MatchHanaName(p + w + c) == Some(HanaLabel(c, None))
  {
    var s := p + w + c;
    HanaNameCode(p, w, c, []);
    assert s + [] == s;
    SpanUnique(s, |s|, IsSpace, |s|);
    assert UnitGroup(s, |s|) == None;
  }

  /** With optional white space `v`, then digits `d` in parentheses after the code, the
      digits give the unit; any further text `t` is ignored, as the pattern is not
      anchored at the end. */
  lemma HanaNameWithUnit(p: string, w: string, c: string, v: string, d: string, t: string)
    requires |p| > 0 && forall i :: 0 <= i < |p| ==> !IsSpace(p[i])
    requires |w| > 0 && forall i :: 0 <= i < |w| ==> IsSpace(w[i])
    requires |c| == 3 && forall i :: 0 <= i < 3 ==> IsUpper(c[i])
    requires forall i :: 0 <= i < |v| ==> IsSpace(v[i])
    requires |d| > 0 && AllDigits(d)
    ensures var u := v + "(" + d + ")" + t;
            MatchHanaName(p + w + c + u) == Some(HanaLabel(c, Some(DigitsValue(d))))
  {
    var u := v + "(" + d + ")" + t;
    TailShape(v, d, t);
    forall j | 0 <= j < |v| ensures IsSpace(u[j]) {
      assert u[j] == u[..|v|][j];
    }
    HanaNameUnitAt(p, w, c, u, |v|, d);
  }

  /** The same with the text after the code given by where its pieces sit. */
  lemma HanaNameUnitAt(p: string, w: string, c: string, u: string, a: nat, d: string)
    requires |p| > 0 && forall i :: 0 <= i < |p| ==> !IsSpace(p[i])
    requires |w| > 0 && forall i :: 0 <= i < |w| ==> IsSpace(w[i])
    requires |c| == 3 && forall i :: 0 <= i < 3 ==> IsUpper(c[i])
    requires a + |d| + 1 < |u|
    requires forall j :: 0 <= j < a ==> IsSpace(u[j])
    requires u[a] == '(' && u[a + 1..a + 1 + |d|] == d && u[a + 1 + |d|] == ')'
    requires |d| > 0 && AllDigits(d)
    ensures MatchHanaName(p + w + c + u) == Some(HanaLabel(c, Some(DigitsValue(d))))
  {
    HanaNameCode(p, w, c, u);
    UnitAt(p + w + c, u, a, d);
  }

  /** The unit group read at the start of `u`, after any text `q`, when `u` holds white
      space up to index `a` and then the digits `d` in parentheses. */
  lemma UnitAt(q: string, u: string, a: nat, d: string)
    requires a + |d| + 1 < |u|
    requires forall j :: 0 <= j < a ==> IsSpace(u[j])
    requires u[a] == '(' && u[a + 1..a + 1 + |d|] == d && u[a + 1 + |d|] == ')'
    requires |d| > 0 && AllDigits(d)
    ensures UnitGroup(q + u, |q|) == Some(DigitsValue(d))
  {
    var s := q + u;
    var n := |q|;
    var f, g := n + a, n + a + 1 + |d|;
    ShiftedTail(q, u, a, d);
    UnitGroupDigits(s, n, f, g, d);
  }

  /** The pieces of `u` sit `|q|` further on in `q + u`. */
  lemma ShiftedTail(q: string, u: string, a: nat, d: string)
    requires a + |d| + 1 < |u|
    requires forall j :: 0 <= j < a ==> IsSpace(u[j])
    requires u[a] == '(' && u[a + 1..a + 1 + |d|] == d && u[a + 1 + |d|] == ')'
    ensures var s, n := q + u, |q|;
            && (forall j :: n <= j < n + a ==> IsSpace(s[j]))
            && s[n + a] == '(' && s[n + a + 1 + |d|] == ')'
            && s[n + a + 1..n + a + 1 + |d|] == d
  {
    var s, n := q + u, |q|;
    forall j | n <= j < n + a ensures IsSpace(s[j]) {
      assert s[j] == u[j - n];
    }
    assert s[n..] == u;
    assert s[n + a + 1..n + a + 1 + |d|] == u[a + 1..a + 1 + |d|];
  }

  /** Where the pieces of `v(d)t` sit. */
  lemma TailShape(v: string, d: string, t: string)
    ensures var u := v + "(" + d + ")" + t;
            && |u| == |v| + |d| + 2 + |t|
            && u[..|v|] == v && u[|v|] == '(' && u[|v| + 1..|v| + 1 + |d|] == d
            && u[|v| + 1 + |d|] == ')'
  {
    var u := v + "(" + d + ")" + t;
    var a := v + "(" + d;
    assert u == a + ")" + t;
    assert a[..|v|] == v && a[|v| + 1..] == d;
  }

  /** A name as the Hana page writes it for a currency quoted per unit. */
  lemma HanaNamePerUnit()
    ensures MatchHanaName("미국 USD") == Some(HanaLabel("USD", None))
  {
    var us := "미국 USD";
    assert MatchAfter(us, 1) == None;
    SpanUnique(us, 2, IsSpace, 3);
    SpanUnique(us, 6, IsSpace, 6);
    assert us[3..6] == "USD";
    assert UnitGroup(us, 6) == None;
  }

  /** A name as the Hana page writes it for a currency quoted per 100 units. */
  lemma HanaNamePerHundred()
    ensures MatchHanaName("일본 JPY (100)") == Some(HanaLabel("JPY", Some(100)))
  {
    var jp := "일본 JPY (100)";
    assert !IsSpace(jp[1]);
    assert MatchFrom(jp, 1) == MatchFrom(jp, 2);
    JpyAfterPrefix(jp);
  }

  lemma JpyAfterPrefix(jp: string)
    requires jp == "일본 JPY (100)"
    ensures MatchAfter(jp, 2) == Some(HanaLabel("JPY", Some(100)))
  {
    SpanUnique(jp, 2, IsSpace, 3);
    assert jp[3..6] == "JPY";
    ParenthesisedHundred(jp);
  }

  lemma ParenthesisedHundred(jp: string)
    requires jp == "일본 JPY (100)"
    ensures UnitGroup(jp, 6) == Some(100)
  {
    SpanUnique(jp, 6, IsSpace, 7);
    SpanUnique(jp, 8, IsDigit, 11);
    assert jp[8..11] == "100";
    assert "100"[..2] == "10" && "10"[..1] == "1" && "1"[..0] == "";
  }

  /** A bare code has no prefix before the white space the pattern needs. */
  lemma HanaNameNeedsPrefix()
    ensures MatchHanaName("USD") == None
  {
    var bare := "USD";
    assert MatchAfter(bare, 1) == None;
    assert MatchAfter(bare, 2) == None;
    assert MatchAfter(bare, 3) == None;
  }

  /** `getVal(cls)`: `parseFloat(text.replace(/,/g, '') || 0)`. */
  function SpanValue(text: string): Num {
    ParseOrZero(StripCommas(text))
  }

  /** One Hana item: the code and unit come from the name pattern (unit 1 without a
      parenthesised number), the customer's cash buying rate is the bank's selling rate
      `acmnSllRt` and the other way round. */
  function HanaRow(item: HanaItem): (r: Option<RateRecord>)
    ensures r.Some? <==> && MatchHanaName(Trim(item.name)).Some?
                         && MatchHanaName(Trim(item.name)).value.code in TARGET_CURRENCIES
                         && Truthy(SpanValue(item.dealBascRt))
    ensures r.Some? ==> && r.value.bankCode == "HANA" && Normalized(r.value)
                        && var found := MatchHanaName(Trim(item.name)).value;
                        && r.value.currencyCode == found.code
                        && r.value.unit == (if found.unit.Some? then found.unit.value else 1)
                        && r.value.baseRate == SpanValue(item.dealBascRt)
                        && r.value.cashBuy == SpanValue(item.acmnSllRt)
                        && r.value.cashSell == SpanValue(item.acmnBuyRt)
  {
    match MatchHanaName(Trim(item.name))
    case None => None
    case Some(found) =>
      var unit := if found.unit.Some? then found.unit.value else 1;
      if found.code !in TARGET_CURRENCIES then None
      else
        var baseRate := SpanValue(item.dealBascRt);
        if Truthy(baseRate) then
          Some(RateRecord("HANA", found.code, unit, SpanValue(item.acmnSllRt),
                          SpanValue(item.acmnBuyRt), baseRate,
                          Round2(Minus(SpanValue(item.acmnSllRt), baseRate))))
        else None
  }

  lemma HanaRecordsNormalized(items: seq<HanaItem>)
    ensures forall r :: r in FilterMap(items, HanaRow) ==> r.bankCode == "HANA" && Normalized(r)
  {
    FilterMapSound(items, HanaRow);
  }

  /** `crawlHana`: the records of the accepted items, in list order. */
  method CrawlHana(page: Option<seq<HanaItem>>) returns (results: seq<RateRecord>)
    ensures page.None? ==> results == []
    ensures page.Some? ==> results == FilterMap(page.value, HanaRow)
    ensures forall r :: r in results ==> r.bankCode == "HANA" && Normalized(r)
  {
    results := [];
    if page.None? {
      return;
    }
    var items := page.value;
    var i := 0;
    while i < |items|
      invariant 0 <= i <= |items|
      invariant results == FilterMap(items[..i], HanaRow)
    {
      var record := HanaRow(items[i]);
      if record.Some? {
        results := results + [record.value];
      }
      FilterMapStep(items, i, HanaRow);
      i := i + 1;
    }
    assert items[..i] == items;
    HanaRecordsNormalized(items);
  }

  // ---------------------------------------------------------------- Shinhan

  /** `p(t)`: `parseFloat(t.replace(/,/g, '')) || 0`. */
  function CellValue(text: string): (n: Num)
    ensures n.Fin?
  {
    OrZero(ParseAmount(text))
  }

  /** One `tr` of a Shinhan frame: name, code, base rate, ..., cash selling rate (sixth
      cell), ..., cash buying rate (eighth cell). */
  function ShinhanRow(tds: Row): (r: Option<RateRecord>)
    ensures r.Some? <==> |tds| > 8 && Trim(tds[1]) in TARGET_CURRENCIES && Positive(CellValue(tds[2]))
    ensures r.Some? ==> && r.value.bankCode == "SHINHAN" && Normalized(r.value)
                        && Positive(r.value.baseRate)
                        && r.value.currencyCode == Trim(tds[1])
                        && r.value.unit == UnitFromName(Trim(tds[0]))
                        && r.value.baseRate == CellValue(tds[2])
                        && r.value.cashSell == CellValue(tds[5])
                        && r.value.cashBuy == CellValue(tds[7])
  {
    if |tds| <= 8 then None
    else
      var name := Trim(tds[0]);
      var code := Trim(tds[1]);
      if code !in TARGET_CURRENCIES then None
      else
        var baseRate := CellValue(tds[2]);
        var cashSell := CellValue(tds[5]);
        var cashBuy := CellValue(tds[7]);
        if Positive(baseRate) then
          Some(RateRecord("SHINHAN", code, UnitFromName(name), cashBuy, cashSell, baseRate,
                          Round2(Minus(cashBuy, baseRate))))
        else None
  }

  /** A rendering context of the Shinhan page: the rows of its tables, or a failed
      `frame.evaluate`. */
  datatype Frame = Evaluated(rows: seq<Row>) | EvaluateFailed

  /** What the `frame.evaluate` callback returns: the frame's records, or null when it
      has none. */
  function FrameRates(rows: seq<Row>): (r: Option<seq<RateRecord>>)
    ensures r.Some? ==> r.value != [] && r.value == FilterMap(rows, ShinhanRow)
    ensures r.None? ==> FilterMap(rows, ShinhanRow) == []
  {
    var extracted := FilterMap(rows, ShinhanRow);
    if |extracted| > 0 then Some(extracted) else None
  }

  /** The records of the first frame that has any. A frame whose evaluation fails before
      that ends the crawl with nothing, as the exception leaves the loop. */
  function FirstFrameRates(frames: seq<Frame>): seq<RateRecord> {
    if frames == [] then []
    else match frames[0]
      case EvaluateFailed => []
      case Evaluated(rows) =>
        match FrameRates(rows)
        case Some(data) => data
        case None => FirstFrameRates(frames[1..])
  }

  /** The records a frame yields; none when its evaluation fails. */
  function FrameYield(f: Frame): seq<RateRecord> {
    if f.Evaluated? then FilterMap(f.rows, ShinhanRow) else []
  }

  /** A frame that evaluated and had no records. */
  predicate Barren(f: Frame) {
    f.Evaluated? && FrameYield(f) == []
  }

  /** The crawl takes the records of frame `k`, and every frame before it evaluated and
      had none. */
  predicate TakenFrom(frames: seq<Frame>, k: nat) {
    k < |frames| && FirstFrameRates(frames) == FrameYield(frames[k])
    && forall j :: 0 <= j < k ==> Barren(frames[j])
  }

  /** The records of a Shinhan page come from one single frame: the first one with any
      records, every frame before it evaluated and empty. */
  lemma {:induction false} ShinhanFromFirstFrame(frames: seq<Frame>)
    ensures FirstFrameRates(frames) != [] ==> exists k: nat :: TakenFrom(frames, k)
  {
    if frames != [] && frames[0].Evaluated? {
      if FrameYield(frames[0]) != [] {
        ProductiveTaken(frames);
        assert TakenFrom(frames, 0);
      } else {
        BarrenSkipped(frames);
        ShinhanFromFirstFrame(frames[1..]);
        if FirstFrameRates(frames[1..]) != [] {
          var k: nat :| TakenFrom(frames[1..], k);
          TakenFromStep(frames, k);
        }
      }
    }
  }

  /** Passing over a first frame without records moves the frame taken one further on. */
  lemma TakenFromStep(frames: seq<Frame>, k: nat)
    requires |frames| > 0 && Barren(frames[0]) && TakenFrom(frames[1..], k)
    ensures TakenFrom(frames, k + 1)
  {
    var rest := frames[1..];
    BarrenSkipped(frames);
    assert frames[k + 1] == rest[k];
    forall j | 0 <= j < k + 1 ensures Barren(frames[j]) {
      if j > 0 { assert frames[j] == rest[j - 1]; }
    }
  }

  /** The converse: a frame with records, preceded only by frames that evaluated and had
      none, is the frame whose records the crawl returns. */
  lemma {:induction false} FirstProductiveFrame(frames: seq<Frame>, k: nat)
    requires k < |frames| && FrameYield(frames[k]) != []
    requires forall j :: 0 <= j < k ==> Barren(frames[j])
    ensures FirstFrameRates(frames) == FrameYield(frames[k])
  {
    if k > 0 {
      var rest := frames[1..];
      BarrenSkipped(frames);
      assert rest[k - 1] == frames[k];
      forall j | 0 <= j < k - 1 ensures Barren(rest[j]) {
        assert rest[j] == frames[j + 1];
      }
      FirstProductiveFrame(rest, k - 1);
    } else {
      ProductiveTaken(frames);
    }
  }

  /** A frame with no records is passed over. */
  lemma BarrenSkipped(frames: seq<Frame>)
    requires |frames| > 0 && Barren(frames[0])
    ensures FirstFrameRates(frames) == FirstFrameRates(frames[1..])
  {
    assert FrameRates(frames[0].rows) == None;
  }

  /** A first frame with records is taken. */
  lemma ProductiveTaken(frames: seq<Frame>)
    requires |frames| > 0 && FrameYield(frames[0]) != []
    ensures FirstFrameRates(frames) == FrameYield(frames[0])
  {
    assert FrameRates(frames[0].rows) == Some(FrameYield(frames[0]));
  }

  /** Every record of a Shinhan page is normalised and has a positive base rate. */
  lemma {:induction false} ShinhanRecordsNormalized(frames: seq<Frame>)
    ensures forall r :: r in FirstFrameRates(frames) ==>
              r.bankCode == "SHINHAN" && Normalized(r) && Positive(r.baseRate)
  {
    if frames != [] && frames[0].Evaluated? {
      FilterMapSound(frames[0].rows, ShinhanRow);
      ShinhanRecordsNormalized(frames[1..]);
    }
  }

  /** The `frame.evaluate` callback: collect the accepted rows of one frame. */
  method EvaluateFrame(rows: seq<Row>) returns (data: Option<seq<RateRecord>>)
    ensures data == FrameRates(rows)
  {
    var rule := ShinhanRow;
    var extracted: seq<RateRecord> := [];
    var i := 0;
    while i < |rows|
      invariant 0 <= i <= |rows|
      invariant extracted == FilterMap(rows[..i], rule)
    {
      var record := rule(rows[i]);
      if record.Some? {
        extracted := extracted + [record.value];
      }
      FilterMapStep(rows, i, rule);
      i := i + 1;
    }
    assert extracted == FilterMap(rows, ShinhanRow) by { assert rows[..i] == rows; }
    data := if |extracted| > 0 then Some(extracted) else None;
  }

  /** `crawlShinhan`: walk the frames until one yields records. `None` stands for a
      browser that could not be launched or a page that could not be loaded. */
  method CrawlShinhan(page: Option<seq<Frame>>) returns (results: seq<RateRecord>)
    ensures page.None? ==> results == []
    ensures page.Some? ==> results == FirstFrameRates(page.value)
  {
    results := [];
    if page.None? {
      return;
    }
    var frames := page.value;
    var i := 0;
    while i < |frames|
      invariant 0 <= i <= |frames|
      invariant FirstFrameRates(frames[i..]) == FirstFrameRates(frames)
    {
      if frames[i].EvaluateFailed? {
        return;
      }
      var data := EvaluateFrame(frames[i].rows);
      if data.Some? {
        results := results + data.value;
        return;
      }
      assert frames[i..][1..] == frames[i + 1..];
      i := i + 1;
    }
  }

  // ---------------------------------------------------------------- KB Star FX

  /** One entry of `msg.servicedata.mergeList`: its currency code, its base-rate field
      (`None` when it is not a string) and its own timestamp. */
  datatype FxItem = FxItem(code: string, rate: Option<string>, stamp: string)

  /** The quotes of the feed: only the five FX currencies, JPY per 100 units and the rest
      per unit, with no test on the base rate. An entry of those currencies without a
      string rate makes `replace` throw; the quotes pushed before it are kept. */
  function FxQuotes(items: seq<FxItem>): seq<FxQuote> {
    if items == [] then []
    else
      var item := items[0];
      if item.code in FX_CURRENCIES then
        match item.rate
        case None => []
        case Some(text) =>
          [FxQuote(item.code, if item.code == "JPY" then 100 else 1, ParseAmount(text), item.stamp)]
          + FxQuotes(items[1..])
      else FxQuotes(items[1..])
  }

  lemma {:induction false} FxQuotesShape(items: seq<FxItem>)
    ensures |FxQuotes(items)| <= |items|
    ensures forall q :: q in FxQuotes(items) ==>
              && q.currencyCode in FX_CURRENCIES && q.currencyCode != "VND"
              && (q.unit == 100 <==> q.currencyCode == "JPY")
              && (q.unit == 1 || q.unit == 100)
  {
    if items != [] {
      FxQuotesShape(items[1..]);
    }
  }

  /** No base-rate filter: a feed of FX-currency entries with string rates yields one
      quote per entry, in order, at whatever rate the text parses to (NaN, 0 or negative
      included). */
  lemma {:induction false} FxQuotesUnfiltered(items: seq<FxItem>)
    requires forall i :: 0 <= i < |items| ==> items[i].code in FX_CURRENCIES && items[i].rate.Some?
    ensures |FxQuotes(items)| == |items|
    ensures forall i :: 0 <= i < |items| ==>
              FxQuotes(items)[i] == FxQuote(items[i].code, if items[i].code == "JPY" then 100 else 1,
                                            ParseAmount(items[i].rate.value), items[i].stamp)
  {
    if items != [] {
      var rest := items[1..];
      forall i | 0 <= i < |rest| ensures rest[i].code in FX_CURRENCIES && rest[i].rate.Some? {
        assert rest[i] == items[i + 1];
      }
      FxQuotesUnfiltered(rest);
      forall i | 1 <= i < |items|
        ensures FxQuotes(items)[i] == FxQuote(items[i].code, if items[i].code == "JPY" then 100 else 1,
                                              ParseAmount(items[i].rate.value), items[i].stamp)
      {
        assert rest[i - 1] == items[i];
      }
    }
  }

  /** `crawlKBStarFX`. `None` stands for a failed request; a missing `mergeList` is the
      empty list. */
  method CrawlKBStarFX(feed: Option<seq<FxItem>>) returns (results: seq<FxQuote>)
    ensures feed.None? ==> results == []
    ensures feed.Some? ==> results == FxQuotes(feed.value)
  {
    results := [];
    if feed.None? {
      return;
    }
    var items := feed.value;
    var i := 0;
    while i < |items|
      invariant 0 <= i <= |items|
      invariant results + FxQuotes(items[i..]) == FxQuotes(items)
    {
      var item := items[i];
      ghost var rest := FxQuotes(items[i + 1..]);
      assert items[i..][1..] == items[i + 1..];
      if item.code in FX_CURRENCIES {
        if item.rate.None? {
          assert FxQuotes(items[i..]) == [];
          assert results == FxQuotes(items);
          return;
        }
        var unit := if item.code == "JPY" then 100 else 1;
        var quote := FxQuote(item.code, unit, ParseAmount(item.rate.value), item.stamp);
        assert FxQuotes(items[i..]) == [quote] + rest;
        assert results + [quote] + rest == results + ([quote] + rest);
        results := results + [quote];
      } else {
        assert FxQuotes(items[i..]) == rest;
      }
      i := i + 1;
    }
    assert results == FxQuotes(items) by {
      assert items[i..] == [];
    }
  }
}
