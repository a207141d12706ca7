/** The Woori Bank source: a landing page that issues session cookies and an `__ID`
    token, then one form post per date, stepping back a day at a time for at most a week
    until a day's rates have been published (`makeWooriDate`, `getWooriSession`,
    `fetchWooriRates`, `crawlWoori`). The bank's server is a function from request to
    reply; `None` is a reply that failed. */
module Woori {
  import opened Options
  import opened JsText
  import opened JsNumber
  import opened Rates
  import opened BankPages

  // ---------------------------------------------------------------- calendar

  /** A local calendar date as `Date` reports it (`getMonth() + 1` is `month`). */
  datatype CivilDate = CivilDate(year: int, month: int, day: int)

  predicate LeapYear(y: int) {
    (y % 4 == 0 && y % 100 != 0) || y % 400 == 0
  }

  function DaysInMonth(y: int, m: int): (n: int)
    requires 1 <= m <= 12
    ensures 28 <= n <= 31
  {
    if m == 2 then (if LeapYear(y) then 29 else 28)
    else if m == 4 || m == 6 || m == 9 || m == 11 then 30
    else 31
  }

  predicate ValidDate(d: CivilDate) {
    1 <= d.month <= 12 && 1 <= d.day <= DaysInMonth(d.year, d.month)
  }

  /** `date.setDate(date.getDate() - 1)`: the previous calendar day. */
  function PrevDay(d: CivilDate): (r: CivilDate)
    requires ValidDate(d)
    ensures ValidDate(r)
  {
    if d.day > 1 then CivilDate(d.year, d.month, d.day - 1)
    else if d.month > 1 then CivilDate(d.year, d.month - 1, DaysInMonth(d.year, d.month - 1))
    else CivilDate(d.year - 1, 12, 31)
  }

  /** The following calendar day. */
  function NextDay(d: CivilDate): (r: CivilDate)
    requires ValidDate(d)
    ensures ValidDate(r)
  {
    if d.day < DaysInMonth(d.year, d.month) then CivilDate(d.year, d.month, d.day + 1)
    else if d.month < 12 then CivilDate(d.year, d.month + 1, 1)
    else CivilDate(d.year + 1, 1, 1)
  }

  /** Stepping back a day is undone by stepping forward one: no date is skipped. */
  lemma NextDayUndoesPrevDay(d: CivilDate)
    requires ValidDate(d)
    ensures NextDay(PrevDay(d)) == d
    ensures PrevDay(NextDay(d)) == d
  {
  }

  /** The fields `makeWooriDate` derives from a date. */
  datatype WooriDate = WooriDate(full: string, dot: string, y: string, m: string, d: string)

  /** `makeWooriDate`: the year in decimal, month and day padded to two digits. */
  function MakeWooriDate(date: CivilDate): (w: WooriDate)
    requires ValidDate(date)
    ensures |w.m| == 2 && AllDigits(w.m) && DigitsValue(w.m) == date.month
    ensures |w.d| == 2 && AllDigits(w.d) && DigitsValue(w.d) == date.day
    ensures w.y == IntToString(date.year)
    ensures w.full == w.y + w.m + w.d
    ensures w.dot == w.y + "." + w.m + "." + w.d
  {
    var yyyy := IntToString(date.year);
    var mm := PadStart(NatToString(date.month), 2, '0');
    var dd := PadStart(NatToString(date.day), 2, '0');
    PaddedValue(date.month);
    PaddedValue(date.day);
    WooriDate(yyyy + mm + dd, yyyy + "." + mm + "." + dd, yyyy, mm, dd)
  }

  /** Two-digit zero padding keeps the value of a number below 100. */
  lemma PaddedValue(n: nat)
    requires n < 100
    ensures var p := PadStart(NatToString(n), 2, '0');
            |p| == 2 && AllDigits(p) && DigitsValue(p) == n
  {
    var s := NatToString(n);
    if |s| < 2 {
      LeadingZeros(1, s);
      assert PadStart(s, 2, '0') == Repeat('0', 1) + s;
    }
  }

  /** The fields read back as the date they were made from. */
  lemma WooriDateDeterminesDate(a: CivilDate, b: CivilDate)
    requires ValidDate(a) && ValidDate(b)
    requires MakeWooriDate(a) == MakeWooriDate(b)
    ensures a == b
  {
    IntToStringInjective(a.year, b.year);
  }

  // ---------------------------------------------------------------- session

  /** `c.split(';')[0]`: the name=value pair at the front of a `Set-Cookie` header. */
  function CookiePair(c: string): (r: string)
    ensures |r| <= |c| && r == c[..|r|]
    ensures ';' !in r
    ensures r == c || c[|r|] == ';'
  {
    if c == [] || c[0] == ';' then "" else [c[0]] + CookiePair(c[1..])
  }

  /** The `Cookie` header sent with every rate query: the pairs joined with "; ". */
  function CookieHeader(setCookie: seq<string>): string {
    Join(seq(|setCookie|, i requires 0 <= i < |setCookie| => CookiePair(setCookie[i])), "; ")
  }

  /** How a server splits a `Cookie` header back into its pairs. */
  function SplitCookieHeader(h: string): seq<string>
    decreases |h|
  {
    if ';' !in h then [h]
    else
      var i := IndexOf(h, ';');
      [h[..i]] + SplitCookieHeader(h[if i + 2 <= |h| then i + 2 else |h|..])
  }

  function IndexOf(s: string, c: char): (i: nat)
    requires c in s
    ensures i < |s| && s[i] == c && c !in s[..i]
  {
    if s[0] == c then 0 else 1 + IndexOf(s[1..], c)
  }

  /** The first ';' of `p; rest` is the separator when `p` has none. */
  lemma FirstSeparator(p: string, rest: string)
    requires ';' !in p
    ensures var h := p + "; " + rest;
            ';' in h && IndexOf(h, ';') == |p| && h[..|p|] == p && h[|p| + 2..] == rest
  {
    var h := p + "; " + rest;
    assert h[|p|] == ';';
    assert h[..|p|] == p;
  }

  /** The pairs sent in the `Cookie` header are exactly the pairs the landing page set. */
  lemma {:induction false} CookieHeaderRoundTrip(pairs: seq<string>)
    requires |pairs| > 0
    requires forall i :: 0 <= i < |pairs| ==> ';' !in pairs[i]
    ensures SplitCookieHeader(Join(pairs, "; ")) == pairs
  {
    if |pairs| > 1 {
      var p, tail := pairs[0], pairs[1..];
      var rest := Join(tail, "; ");
      var h := Join(pairs, "; ");
      assert h == p + "; " + rest;
      FirstSeparator(p, rest);
      assert SplitCookieHeader(h) == [p] + SplitCookieHeader(rest);
      assert forall i :: 0 <= i < |tail| ==> ';' !in tail[i] by {
        forall i | 0 <= i < |tail| ensures ';' !in tail[i] { assert tail[i] == pairs[i + 1]; }
      }
      CookieHeaderRoundTrip(tail);
      assert pairs == [p] + tail;
    }
  }

  /** The server reads back, from the `Cookie` header, the pair at the front of each
      `set-cookie` header of the landing page, in order. */
  lemma CookieHeaderCarriesPairs(setCookie: seq<string>)
    requires |setCookie| > 0
    ensures SplitCookieHeader(CookieHeader(setCookie))
            == seq(|setCookie|, i requires 0 <= i < |setCookie| => CookiePair(setCookie[i]))
  {
    CookieHeaderRoundTrip(seq(|setCookie|, i requires 0 <= i < |setCookie| => CookiePair(setCookie[i])));
  }

  /** What the landing page returns: its `set-cookie` headers and its HTML. */
  datatype Landing = Landing(setCookie: seq<string>, html: string)

  datatype Session = Session(cookieHeader: string, id: string)

  /** The `__ID` patterns tried in order; the first that matches supplies the token. */
  function FirstMatch(matchers: seq<string -> Option<string>>, html: string): (r: Option<string>)
    ensures r.Some? ==> exists k :: 0 <= k < |matchers| && matchers[k](html) == r
                                    && forall j :: 0 <= j < k ==> matchers[j](html).None?
    ensures r.None? ==> forall k :: 0 <= k < |matchers| ==> matchers[k](html).None?
  {
    if matchers == [] then None
    else if matchers[0](html).Some? then matchers[0](html)
    else
      var r := FirstMatch(matchers[1..], html);
      assert r.Some? ==> exists k :: 0 < k < |matchers| && matchers[k](html) == r
                                     && forall j :: 0 <= j < k ==> matchers[j](html).None? by {
        if r.Some? {
          var k :| 0 <= k < |matchers[1..]| && matchers[1..][k](html) == r
                   && forall j :: 0 <= j < k ==> matchers[1..][j](html).None?;
          assert matchers[k + 1] == matchers[1..][k];
          forall j | 0 <= j < k + 1 ensures matchers[j](html).None? {
            if j > 0 { assert matchers[j] == matchers[1..][j - 1]; }
          }
        }
      }
      r
  }

  /** `getWooriSession`: no session when the landing page failed or no pattern matched. */
  function WooriSession(landing: Option<Landing>, matchers: seq<string -> Option<string>>): (s: Option<Session>)
    ensures s.Some? ==> landing.Some? && s.value.cookieHeader == CookieHeader(landing.value.setCookie)
                        && FirstMatch(matchers, landing.value.html) == Some(s.value.id)
    ensures s.None? ==> landing.None? || FirstMatch(matchers, landing.value.html).None?
  {
    match landing
    case None => None
    case Some(page) =>
      match FirstMatch(matchers, page.html)
      case None => None
      case Some(id) => Some(Session(CookieHeader(page.setCookie), id))
  }

  // ---------------------------------------------------------------- rate query

  const WOORI_POST_URL := "https://spot.wooribank.com/pot/jcc?withyou=CMCOM0184&__ID="

  /** The notice the bank shows for a day whose rates are not published yet. */
  const NOT_PUBLISHED := "고시되지 않았습니다"

  /** One form post: URL, form fields in order, and the cookie header. */
  datatype WooriRequest = WooriRequest(url: string, form: seq<(string, string)>, cookie: string)

  /** What the server answers: the raw body and the rows of `table.tbl-type-1`. */
  datatype WooriPage = WooriPage(body: string, rows: seq<Row>)

  function RateRequest(date: CivilDate, session: Session): (req: WooriRequest)
    requires ValidDate(date)
    ensures req.url == WOORI_POST_URL + session.id && req.cookie == session.cookieHeader
    ensures ("BAS_DT_601", MakeWooriDate(date).full) in req.form
  {
    var w := MakeWooriDate(date);
    WooriRequest(WOORI_POST_URL + session.id,
                 [("BAS_DT_601", w.full), ("NTC_DIS", "A"), ("SELECT_DATE_601", w.dot),
                  ("SELECT_DATE_601Y", w.y), ("SELECT_DATE_601M", w.m), ("SELECT_DATE_601D", w.d)],
                 session.cookieHeader)
  }

  /** One `tr` of the Woori table: code, name, ..., cash buying rate (fifth cell), ...,
      cash selling rate (seventh), ..., base rate (ninth). */
  function WooriRow(tds: Row): (r: Option<RateRecord>)
    ensures r.Some? <==> |tds| > 8 && Trim(tds[0]) in TARGET_CURRENCIES && Positive(ParseAmount(tds[8]))
    ensures r.Some? ==> && r.value.bankCode == "WOORI" && Normalized(r.value)
                        && Positive(r.value.baseRate)
                        && r.value.currencyCode == Trim(tds[0])
                        && r.value.unit == UnitFromName(Trim(tds[1]))
                        && r.value.cashBuy == ParseAmount(tds[4])
                        && r.value.cashSell == ParseAmount(tds[6])
                        && r.value.baseRate == ParseAmount(tds[8])
  {
    if |tds| <= 8 then None
    else
      var currency := Trim(tds[0]);
      var name := Trim(tds[1]);
      if currency !in TARGET_CURRENCIES then None
      else
        var cashBuy := ParseAmount(tds[4]);
        var cashSell := ParseAmount(tds[6]);
        var baseRate := ParseAmount(tds[8]);
        if Positive(baseRate) then
          Some(RateRecord("WOORI", currency, UnitFromName(name), cashBuy, cashSell, baseRate,
                          Round2(Minus(cashBuy, baseRate))))
        else None
  }

  /** The result of `fetchWooriRates` for a reply: null for a failed request, for the
      not-yet-published notice and for a table without accepted rows. */
  function WooriRates(reply: Option<WooriPage>): (r: Option<seq<RateRecord>>)
    ensures r.Some? ==> && reply.Some? && !Contains(reply.value.body, NOT_PUBLISHED)
                        && r.value == FilterMap(reply.value.rows, WooriRow) && r.value != []
    ensures r.None? ==> || reply.None? || Contains(reply.value.body, NOT_PUBLISHED)
                        || FilterMap(reply.value.rows, WooriRow) == []
  {
    match reply
    case None => None
    case Some(page) =>
      if Contains(page.body, NOT_PUBLISHED) then None
      else
        var results := FilterMap(page.rows, WooriRow);
        if |results| > 0 then Some(results) else None
  }

  lemma WooriRecordsNormalized(rows: seq<Row>)
    ensures forall r :: r in FilterMap(rows, WooriRow) ==>
              r.bankCode == "WOORI" && Normalized(r) && Positive(r.baseRate) && (r.unit == 1 || r.unit == 100)
  {
    FilterMapSound(rows, WooriRow);
  }

  /** The reply for one date of a session. */
  function Attempt(server: WooriRequest -> Option<WooriPage>, session: Session, date: CivilDate): Option<seq<RateRecord>>
    requires ValidDate(date)
  {
    WooriRates(server(RateRequest(date, session)))
  }

  /** The `.each` over the rows of the rate table: push every accepted row. */
  method CollectWooriRows(rows: seq<Row>) returns (results: seq<RateRecord>)
    ensures results == FilterMap(rows, WooriRow)
  {
    results := [];
    var i := 0;
    while i < |rows|
      invariant 0 <= i <= |rows|
      invariant results == FilterMap(rows[..i], WooriRow)
    {
      var record := WooriRow(rows[i]);
      if record.Some? {
        results := results + [record.value];
      }
      FilterMapStep(rows, i, WooriRow);
      i := i + 1;
    }
    assert rows[..i] == rows;
  }

  /** The part of `fetchWooriRates` after the post: refuse the not-yet-published
      notice, then collect the accepted rows; no rows is no result. */
  method ReadWooriReply(reply: Option<WooriPage>) returns (res: Option<seq<RateRecord>>)
    ensures res == WooriRates(reply)
  {
    if reply.None? || Contains(reply.value.body, NOT_PUBLISHED) {
      return None;
    }
    var results := CollectWooriRows(reply.value.rows);
    res := if |results| > 0 then Some(results) else None;
  }

  /** `fetchWooriRates`: post the query for `date`, then read the reply. */
  method FetchWooriRates(server: WooriRequest -> Option<WooriPage>, date: CivilDate, session: Session)
    returns (res: Option<seq<RateRecord>>)
    requires ValidDate(date)
    ensures res == Attempt(server, session, date)
  {
    var reply := server(RateRequest(date, session));
    res := ReadWooriReply(reply);
  }

  const MAX_ATTEMPTS := 7

  /** `asked` starts at `today` and each date is the day before the previous one. */
  ghost predicate DaysBack(asked: seq<CivilDate>, today: CivilDate) {
    && (forall j :: 0 <= j < |asked| ==> ValidDate(asked[j]))
    && (|asked| > 0 ==> asked[0] == today)
    && (forall j :: 0 < j < |asked| ==> asked[j] == PrevDay(asked[j - 1]))
  }

  /** The date queried after `asked`: `today` first, then the day before the last one. */
  function NextAsked(asked: seq<CivilDate>, today: CivilDate): (d: CivilDate)
    requires ValidDate(today) && DaysBack(asked, today)
    ensures ValidDate(d) && DaysBack(asked + [d], today)
  {
    var d := if |asked| == 0 then today else PrevDay(asked[|asked| - 1]);
    assert (asked + [d])[..|asked|] == asked;
    d
  }

  ghost predicate AllFailed(server: WooriRequest -> Option<WooriPage>, session: Session, asked: seq<CivilDate>) {
    forall j :: 0 <= j < |asked| ==> ValidDate(asked[j]) && Attempt(server, session, asked[j]).None?
  }

  lemma AllFailedExtend(server: WooriRequest -> Option<WooriPage>, session: Session, asked: seq<CivilDate>, date: CivilDate)
    requires AllFailed(server, session, asked) && ValidDate(date) && Attempt(server, session, date).None?
    ensures AllFailed(server, session, asked + [date])
  {
    assert forall j :: 0 <= j < |asked| ==> (asked + [date])[j] == asked[j];
  }


  /** `crawlWoori`: no query without a session; otherwise query `today`, then each
      previous day in turn, at most seven days, and return the first day's records that
      are not empty. `asked` lists the dates queried, in order. */
  method CrawlWoori(landing: Option<Landing>, matchers: seq<string -> Option<string>>,
                    server: WooriRequest -> Option<WooriPage>, today: CivilDate)
    returns (records: seq<RateRecord>, asked: seq<CivilDate>)
    requires ValidDate(today)
    ensures WooriSession(landing, matchers).None? ==> records == [] && asked == []
    ensures |asked| <= MAX_ATTEMPTS
    ensures forall j :: 0 <= j < |asked| ==> ValidDate(asked[j])
    ensures |asked| > 0 ==> asked[0] == today
    ensures forall j :: 0 < j < |asked| ==> asked[j] == PrevDay(asked[j - 1])
    ensures forall j :: 0 <= j < |asked| - 1 ==>
              Attempt(server, WooriSession(landing, matchers).value, asked[j]).None?
    ensures records != [] ==>
              |asked| > 0 && Attempt(server, WooriSession(landing, matchers).value, asked[|asked| - 1]) == Some(records)
    ensures records == [] && WooriSession(landing, matchers).Some? ==>
              |asked| == MAX_ATTEMPTS &&
              Attempt(server, WooriSession(landing, matchers).value, asked[|asked| - 1]).None?
  {
    var session := WooriSession(landing, matchers);
    if session.None? {
      return [], [];
    }
    records, asked := RetryDays(server, session.value, today);
  }

  /** The loop of `crawlWoori` once a session is held: the same promises with the
      session fixed. */
  method RetryDays(server: WooriRequest -> Option<WooriPage>, session: Session, today: CivilDate)
    returns (records: seq<RateRecord>, asked: seq<CivilDate>)
    requires ValidDate(today)
    ensures |asked| <= MAX_ATTEMPTS
    ensures forall j :: 0 <= j < |asked| ==> ValidDate(asked[j])
    ensures |asked| > 0 ==> asked[0] == today
    ensures forall j :: 0 < j < |asked| ==> asked[j] == PrevDay(asked[j - 1])
    ensures forall j :: 0 <= j < |asked| - 1 ==> Attempt(server, session, asked[j]).None?
    ensures records != [] ==> |asked| > 0 && Attempt(server, session, asked[|asked| - 1]) == Some(records)
    ensures records == [] ==> |asked| == MAX_ATTEMPTS && Attempt(server, session, asked[|asked| - 1]).None?
  {
    records, asked := [], [];
    var date := today;
    var i := 0;
    while i < MAX_ATTEMPTS
      invariant 0 <= i <= MAX_ATTEMPTS && |asked| == i && records == []
      invariant DaysBack(asked, today)
      invariant AllFailed(server, session, asked)
      invariant date == NextAsked(asked, today)
    {
      var res := FetchWooriRates(server, date, session);
      ghost var before := asked;
      asked := asked + [date];
      if res.Some? && |res.value| > 0 {
        records := res.value;
        assert asked[..i] == before;
        return;
      }
      AllFailedExtend(server, session, before, date);
      date := PrevDay(date);
      i := i + 1;
    }
  }
}
