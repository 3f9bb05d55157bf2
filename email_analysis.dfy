/**
 * The e-mail analyzer (`EmailAnalyzer`): deterministic daily statistics
 * of a list of e-mails, and the per-e-mail AI summary that tries the
 * enabled models in a preferred order.
 *
 * Parsing the `Date` header (section 3.3 of RFC 2822) and converting it
 * to local time is the parameter `parse`; the remote models are the
 * parameter `server` (generation call number, position of the model in
 * the try order, request), and `json.loads` is the parameter `loads`.
 */
module EmailAnalysis {
  import opened Wrappers
  import opened Text
  import opened Dicts
  import opened Sorting
  import opened AIProviders
  import opened ModelRegistry

  datatype Weekday = Mon | Tue | Wed | Thu | Fri | Sat | Sun

  /** The ranges of `datetime`'s year, month and day. */
  type Year = y: nat | 1 <= y <= 9999 witness 1
  type Month = m: nat | 1 <= m <= 12 witness 1
  type Day = d: nat | 1 <= d <= 31 witness 1

  /** A local calendar date as `datetime.fromtimestamp` gives it. */
  datatype Date = Date(year: Year, month: Month, day: Day, weekday: Weekday)

  datatype Attachment = Attachment(filename: string, contentType: string, content: Option<string>)

  /** One fetched e-mail; `None` is an absent key. */
  datatype Email = Email(
    id: string, subject: Option<string>, sender: Option<string>, date: Option<string>,
    isRead: bool, body: Option<string>, attachments: seq<Attachment>)

  function Min(a: nat, b: nat): nat { if a <= b then a else b }

  // ---------------------------------------------------------------------
  // Daily statistics (`calculate_stats`)
  // ---------------------------------------------------------------------

  /** `days_map`: the Spanish name of the weekday. */
  function DayName(w: Weekday): string {
    match w
    case Mon => "Lunes"
    case Tue => "Martes"
    case Wed => "Mi\U{00E9}rcoles"
    case Thu => "Jueves"
    case Fri => "Viernes"
    case Sat => "S\U{00E1}bado"
    case Sun => "Domingo"
  }

  /** `s` with zeros in front up to `n` characters. */
  function Pad(s: string, n: nat): (r: string)
    ensures |r| >= n && |r| >= |s|
    decreases n - |s|
  {
    if |s| >= n then s else Pad("0" + s, n)
  }

  /** `dt.strftime('%Y-%m-%d')`, the key of a day. */
  function DateKey(d: Date): string {
    Pad(NatToString(d.year), 4) + "-" + Pad(NatToString(d.month), 2) + "-" + Pad(NatToString(d.day), 2)
  }

  /** The position of a date in time; `KeyOrder` shows it orders dates as their keys do as text. */
  function Ordinal(d: Date): int { d.year * 10000 + d.month * 100 + d.day }

  /** Zero-padding a number's decimal text to a width it fits in gives its fixed-width digits. */
  lemma {:induction false} PadFixed(n: nat, k: nat, w: nat)
    requires n < Pow10(k) && k <= w
    ensures Pad(FixedDigits(n, k), w) == FixedDigits(n, w)
    decreases w - k
  {
    if k < w {
      FixedDigitsWiden(n, k);
      PadFixed(n, k + 1, w);
    }
  }

  /** Python's `str(n)` is `n` in as many fixed-width digits as it has characters. */
  lemma {:induction false} NatToStringFixed(n: nat)
    ensures NatToString(n) == FixedDigits(n, |NatToString(n)|)
    ensures n < Pow10(|NatToString(n)|)
  {
    if n >= 10 {
      NatToStringFixed(n / 10);
    }
  }

  /** A number below `10^w` has at most `w` digits. */
  lemma {:induction false} NatToStringLength(n: nat, w: nat)
    requires 1 <= w && n < Pow10(w)
    ensures |NatToString(n)| <= w
  {
    if n >= 10 {
      NatToStringLength(n / 10, w - 1);
    }
  }

  lemma PaddedIsFixed(n: nat, w: nat)
    requires 1 <= w && n < Pow10(w)
    ensures Pad(NatToString(n), w) == FixedDigits(n, w)
  {
    NatToStringFixed(n);
    NatToStringLength(n, w);
    PadFixed(n, |NatToString(n)|, w);
  }

  function KeyTail(d: Date): string { "-" + (FixedDigits(d.month, 2) + ("-" + FixedDigits(d.day, 2))) }

  lemma KeyParts(d: Date)
    ensures DateKey(d) == FixedDigits(d.year, 4) + KeyTail(d)
  {
    assert Pow10(2) == 100 && Pow10(4) == 10000;
    PaddedIsFixed(d.year, 4);
    PaddedIsFixed(d.month, 2);
    PaddedIsFixed(d.day, 2);
  }

  /**
   * `sorted(daily_stats.keys())` compares the "YYYY-MM-DD" keys as text:
   * that is the order of `Ordinal`, and equal keys are equal positions.
   */
  lemma KeyOrder(d1: Date, d2: Date)
    ensures Ordinal(d1) < Ordinal(d2) <==> TextLess(DateKey(d1), DateKey(d2))
    ensures Ordinal(d1) == Ordinal(d2) <==> DateKey(d1) == DateKey(d2)
  {
    assert Pow10(2) == 100 && Pow10(4) == 10000;
    KeyParts(d1);
    KeyParts(d2);
    var m1, m2 := FixedDigits(d1.month, 2), FixedDigits(d2.month, 2);
    var t1, t2 := "-" + FixedDigits(d1.day, 2), "-" + FixedDigits(d2.day, 2);
    FixedDigitsOrder(d1.year, d2.year, 4);
    FixedDigitsOrder(d1.month, d2.month, 2);
    FixedDigitsOrder(d1.day, d2.day, 2);
    TextLessConcat(FixedDigits(d1.year, 4), FixedDigits(d2.year, 4), KeyTail(d1), KeyTail(d2));
    TextLessConcat("-", "-", m1 + t1, m2 + t2);
    TextLessConcat(m1, m2, t1, t2);
    TextLessConcat("-", "-", FixedDigits(d1.day, 2), FixedDigits(d2.day, 2));
  }

  /** `e.get('date', '')` as text. */
  function DateText(e: Email): string { e.date.GetOr("") }

  /** The sender reduced to the address of a `Name <address>` form (section 3.4 of RFC 2822). */
  function SenderOf(e: Email): string {
    var s := e.sender.GetOr("Desconocido");
    if Contains(s, "<") && Contains(s, ">") then Before(Piece1(s, "<"), ">") else s
  }

  lemma NoChar(s: string, c: char)
    requires !Contains(s, [c])
    ensures forall j :: 0 <= j < |s| ==> s[j] != c
  {
    forall j | 0 <= j < |s| ensures s[j] != c {
      assert !OccursAt(s, [c], j);
      assert s[j..j + 1] == [s[j]];
    }
  }

  /** For `Name <address>` with no angle brackets inside, the sender is the address. */
  lemma SenderAddress(e: Email, name: string, address: string)
    requires e.sender == Some(name + "<" + address + ">")
    requires !Contains(name, "<") && !Contains(address, "<") && !Contains(address, ">")
    ensures SenderOf(e) == address
  {
    var s := name + "<" + address + ">";
    NoChar(name, '<');
    NoChar(address, '<');
    NoChar(address, '>');
    assert s[|name|..|name| + 1] == "<";
    IndexOfAt(s, "<", |name|);
    assert s[|s| - 1..|s|] == ">";
    ContainsIff(s, ">");
    var after := After(s, "<");
    assert after == address + ">";
    assert forall j :: 0 <= j < |after| ==> after[j] != '<';
    IndexOfNotBefore(after, "<", |after|);
    assert IndexOf(after, "<").None?;
    assert Piece1(s, "<") == after;
    assert after[|address|..|address| + 1] == ">";
    IndexOfAt(after, ">", |address|);
    assert after[..|address|] == address;
    assert Before(Piece1(s, "<"), ">") == address;
    assert Contains(s, ">") by { assert OccursAt(s, ">", |s| - 1); }
  }

  /** The counters of one day, created by the first e-mail of that day. */
  datatype DayStats = DayStats(date: Date, total: nat, unread: nat, read: nat, senders: seq<string>)

  /** One iteration of the loop over the e-mails: only an e-mail with a parsed date counts. */
  function AddEmail(daily: Dict<DayStats>, e: Email, parse: string -> Option<Date>): Dict<DayStats> {
    match parse(DateText(e))
    case None => daily
    case Some(d) =>
      Put(daily, DateKey(d), Bumped(daily, e, d))
  }

  /** `daily_stats` after the loop over `es`. */
  function Daily(daily: Dict<DayStats>, es: seq<Email>, parse: string -> Option<Date>): Dict<DayStats>
    decreases |es|
  {
    if |es| == 0 then daily else Daily(AddEmail(daily, es[0], parse), es[1..], parse)
  }

  /** Every day's counters agree: read plus unread is the total, one sender per e-mail, filed under its own key. */
  predicate Consistent(daily: Dict<DayStats>) {
    forall e :: e in daily ==>
      e.1.total == e.1.read + e.1.unread && |e.1.senders| == e.1.total && e.0 == DateKey(e.1.date)
  }

  lemma {:induction false} DailyConsistent(daily: Dict<DayStats>, es: seq<Email>, parse: string -> Option<Date>)
    requires Consistent(daily)
    ensures Consistent(Daily(daily, es, parse))
    decreases |es|
  {
    if |es| > 0 {
      var next := AddEmail(daily, es[0], parse);
      var parsed := parse(DateText(es[0]));
      if parsed.Some? {
        var g := Get(daily, DateKey(parsed.value));
        if g.Some? {
          assert (DateKey(parsed.value), g.value) in daily;
        }
      }
      DailyConsistent(next, es[1..], parse);
    }
  }

  /** The e-mails of `es` whose date parses to a day with key `k`. */
  function CountOn(es: seq<Email>, parse: string -> Option<Date>, k: string): nat
    decreases |es|
  {
    if |es| == 0 then 0
    else (if parse(DateText(es[0])).Some? && DateKey(parse(DateText(es[0])).value) == k then 1 else 0)
         + CountOn(es[1..], parse, k)
  }

  /** The e-mails of `es` whose date parses. */
  function Parsed(es: seq<Email>, parse: string -> Option<Date>): nat
    decreases |es|
  {
    if |es| == 0 then 0 else (if parse(DateText(es[0])).Some? then 1 else 0) + Parsed(es[1..], parse)
  }

  function TotalOn(daily: Dict<DayStats>, k: string): nat {
    match Get(daily, k)
    case None => 0
    case Some(st) => st.total
  }

  function SumTotals(daily: Dict<DayStats>): nat
    decreases |daily|
  {
    if |daily| == 0 then 0 else daily[0].1.total + SumTotals(daily[1..])
  }

  lemma {:induction false} SumTotalsPut(d: Dict<DayStats>, k: string, v: DayStats)
    ensures SumTotals(Put(d, k, v)) == SumTotals(d) - TotalOn(d, k) + v.total
    ensures TotalOn(d, k) <= SumTotals(d)
    decreases |d|
  {
    if |d| > 0 {
      if d[0].0 == k {
        assert Put(d, k, v)[1..] == d[1..];
      } else {
        SumTotalsPut(d[1..], k, v);
        assert Put(d, k, v)[1..] == Put(d[1..], k, v);
        assert Put(d, k, v)[0] == d[0];
      }
    }
  }

  /** The counters one e-mail with a parsed date leaves for its day. */
  function Bumped(daily: Dict<DayStats>, e: Email, d: Date): DayStats {
    var st := Get(daily, DateKey(d)).GetOr(DayStats(d, 0, 0, 0, []));
    DayStats(st.date, st.total + 1,
             if e.isRead then st.unread else st.unread + 1,
             if e.isRead then st.read + 1 else st.read,
             st.senders + [SenderOf(e)])
  }

  lemma AddEmailTotals(daily: Dict<DayStats>, e: Email, parse: string -> Option<Date>)
    ensures forall k :: TotalOn(AddEmail(daily, e, parse), k)
                        == TotalOn(daily, k) + (if parse(DateText(e)).Some? && DateKey(parse(DateText(e)).value) == k then 1 else 0)
    ensures SumTotals(AddEmail(daily, e, parse)) == SumTotals(daily) + (if parse(DateText(e)).Some? then 1 else 0)
  {
    var parsed := parse(DateText(e));
    if parsed.Some? {
      var k := DateKey(parsed.value);
      var v := Bumped(daily, e, parsed.value);
      assert AddEmail(daily, e, parse) == Put(daily, k, v);
      SumTotalsPut(daily, k, v);
      PutGet(daily, k, v);
    }
  }

  /** Each day's total is the number of e-mails dated that day. */
  lemma {:induction false} DailyTotalOn(daily: Dict<DayStats>, es: seq<Email>, parse: string -> Option<Date>, k: string)
    ensures TotalOn(Daily(daily, es, parse), k) == TotalOn(daily, k) + CountOn(es, parse, k)
    decreases |es|
  {
    if |es| > 0 {
      AddEmailTotals(daily, es[0], parse);
      DailyTotalOn(AddEmail(daily, es[0], parse), es[1..], parse, k);
    }
  }

  /** All totals together are the e-mails whose date parses: an unparseable date drops the e-mail from the breakdown. */
  lemma {:induction false} DailySum(daily: Dict<DayStats>, es: seq<Email>, parse: string -> Option<Date>)
    ensures SumTotals(Daily(daily, es, parse)) == SumTotals(daily) + Parsed(es, parse)
    decreases |es|
  {
    if |es| > 0 {
      AddEmailTotals(daily, es[0], parse);
      DailySum(AddEmail(daily, es[0], parse), es[1..], parse);
    }
  }

  lemma DailyStep(daily: Dict<DayStats>, es: seq<Email>, i: nat, parse: string -> Option<Date>)
    requires i < |es|
    ensures Daily(daily, es[i..], parse) == Daily(AddEmail(daily, es[i], parse), es[i + 1..], parse)
  {
    assert es[i..][1..] == es[i + 1..];
  }

  /** The loop of `calculate_stats` that fills `daily_stats`. */
  method CollectDaily(emails: seq<Email>, parse: string -> Option<Date>) returns (daily: Dict<DayStats>)
    ensures daily == Daily([], emails, parse)
  {
    daily := [];
    var i := 0;
    while i < |emails|
      invariant 0 <= i <= |emails|
      invariant Daily(daily, emails[i..], parse) == Daily([], emails, parse)
    {
      var e := emails[i];
      DailyStep(daily, emails, i, parse);
      var parsed := parse(DateText(e));
      if parsed.Some? {
        var key := DateKey(parsed.value);
        var st := Get(daily, key).GetOr(DayStats(parsed.value, 0, 0, 0, []));
        if e.isRead {
          st := st.(total := st.total + 1, read := st.read + 1);
        } else {
          st := st.(total := st.total + 1, unread := st.unread + 1);
        }
        st := st.(senders := st.senders + [SenderOf(e)]);
        assert st == Bumped(daily, e, parsed.value);
        daily := Put(daily, key, st);
      }
      i := i + 1;
    }
  }

  // ---- senders: `Counter(senders).most_common(5)` ----

  function CountOf(counts: Dict<nat>, x: string): nat { Get<nat>(counts, x).GetOr(0) }

  /** `Counter(xs)`: one entry per distinct item, in order of first occurrence. */
  function Tally(counts: Dict<nat>, xs: seq<string>): Dict<nat>
    decreases |xs|
  {
    if |xs| == 0 then counts else Tally(Put<nat>(counts, xs[0], CountOf(counts, xs[0]) + 1), xs[1..])
  }

  function Occurrences(xs: seq<string>, x: string): nat
    decreases |xs|
  {
    if |xs| == 0 then 0 else (if xs[0] == x then 1 else 0) + Occurrences(xs[1..], x)
  }

  lemma TallySpec(counts: Dict<nat>, xs: seq<string>)
    ensures forall x :: CountOf(Tally(counts, xs), x) == CountOf(counts, x) + Occurrences(xs, x)
    ensures forall x :: x in xs ==> x in Keys(Tally(counts, xs))
    ensures DistinctKeys(counts) ==> DistinctKeys(Tally(counts, xs))
  {
    TallyCounts(counts, xs);
    TallyKeys(counts, xs);
    if DistinctKeys(counts) {
      TallyDistinct(counts, xs);
    }
  }

  lemma {:induction false} TallyCounts(counts: Dict<nat>, xs: seq<string>)
    ensures forall x :: CountOf(Tally(counts, xs), x) == CountOf(counts, x) + Occurrences(xs, x)
    decreases |xs|
  {
    if |xs| > 0 {
      var next := Put<nat>(counts, xs[0], CountOf(counts, xs[0]) + 1);
      PutGet<nat>(counts, xs[0], CountOf(counts, xs[0]) + 1);
      TallyCounts(next, xs[1..]);
      forall x ensures CountOf(Tally(counts, xs), x) == CountOf(counts, x) + Occurrences(xs, x) {
        assert Occurrences(xs, x) == (if xs[0] == x then 1 else 0) + Occurrences(xs[1..], x);
      }
    } else {
      forall x ensures CountOf(Tally(counts, xs), x) == CountOf(counts, x) + Occurrences(xs, x) {
        assert Occurrences(xs, x) == 0;
      }
    }
  }

  lemma {:induction false} TallyKeys(counts: Dict<nat>, xs: seq<string>)
    ensures Keys(Tally(counts, xs)) == Keys(counts) + set x | x in xs
    decreases |xs|
  {
    if |xs| > 0 {
      var next := Put<nat>(counts, xs[0], CountOf(counts, xs[0]) + 1);
      TallyKeys(next, xs[1..]);
      assert (set x | x in xs) == {xs[0]} + set x | x in xs[1..];
    } else {
      assert (set x | x in xs) == {};
    }
  }

  lemma {:induction false} TallyDistinct(counts: Dict<nat>, xs: seq<string>)
    requires DistinctKeys(counts)
    ensures DistinctKeys(Tally(counts, xs))
    decreases |xs|
  {
    if |xs| > 0 {
      PutDistinct<nat>(counts, xs[0], CountOf(counts, xs[0]) + 1);
      TallyDistinct(Put<nat>(counts, xs[0], CountOf(counts, xs[0]) + 1), xs[1..]);
    }
  }

  function CountKey(p: (string, nat)): int { p.1 }

  /** `most_common(5)`: the counts largest first, ties in order of first occurrence, at most five. */
  function TopSenders(senders: seq<string>): seq<(string, nat)> {
    var ranked := SortDesc(Tally([], senders), CountKey);
    if |ranked| <= 5 then ranked else ranked[..5]
  }

  /** The tally ranked by count: largest first, every sender once with its true count. */
  lemma RankedSpec(senders: seq<string>)
    ensures var ranked := SortDesc(Tally([], senders), CountKey);
      && SortedDesc(ranked, CountKey)
      && (forall e :: e in ranked ==> e.1 == Occurrences(senders, e.0))
      && (forall x :: x in senders ==> x in Keys(ranked))
  {
    var c := Tally([], senders);
    var ranked := SortDesc(c, CountKey);
    TallySpec([], senders);
    SortDescSorted(c, CountKey);
    SortDescPermutation(c, CountKey);
    forall e | e in ranked ensures e.1 == Occurrences(senders, e.0) {
      assert e in multiset(ranked);
      GetOfEntry<nat>(c, e.0, e.1);
      assert CountOf([], e.0) == 0;
    }
    forall x | x in senders ensures x in Keys(ranked) {
      var e :| e in c && e.0 == x;
      assert e in multiset(c);
    }
  }

  /** At most five senders, each with its true count, largest first. */
  lemma TopSendersCounts(senders: seq<string>)
    ensures |TopSenders(senders)| <= 5
    ensures SortedDesc(TopSenders(senders), CountKey)
    ensures forall i :: 0 <= i < |TopSenders(senders)| ==>
              TopSenders(senders)[i].1 == Occurrences(senders, TopSenders(senders)[i].0)
  {
    var ranked := SortDesc(Tally([], senders), CountKey);
    var t := TopSenders(senders);
    RankedSpec(senders);
    assert t == ranked[..|t|];
    forall i | 0 <= i < |t| ensures t[i].1 == Occurrences(senders, t[i].0) && t[i] == ranked[i] {
      assert ranked[i] in ranked;
    }
  }

  /** A sender left out means five were shown, none with a smaller count. */
  lemma TopSendersExcluded(senders: seq<string>, x: string)
    requires x in senders
    requires forall i :: 0 <= i < |TopSenders(senders)| ==> TopSenders(senders)[i].0 != x
    ensures |TopSenders(senders)| == 5 && Occurrences(senders, x) <= TopSenders(senders)[4].1
  {
    var ranked := SortDesc(Tally([], senders), CountKey);
    var t := TopSenders(senders);
    RankedSpec(senders);
    assert t == ranked[..|t|];
    var e :| e in ranked && e.0 == x;
    var p :| 0 <= p < |ranked| && ranked[p] == e;
    forall i | 0 <= i < |t| ensures ranked[i].0 != x {
      assert ranked[i] == t[i];
    }
    assert p >= |t|;
    assert ranked[4].1 >= ranked[p].1;
  }

  /** `"name (n)"` when the sender wrote more than once, else the name alone. */
  function SenderLabel(p: (string, nat)): string {
    if p.1 > 1 then p.0 + " (" + NatToString(p.1) + ")" else p.0
  }

  function SenderLabels(ps: seq<(string, nat)>): (r: seq<string>)
    ensures |r| == |ps| && forall i :: 0 <= i < |ps| ==> r[i] == SenderLabel(ps[i])
  {
    seq(|ps|, i requires 0 <= i < |ps| => SenderLabel(ps[i]))
  }

  function SendersText(senders: seq<string>): string {
    Join(SenderLabels(TopSenders(senders)), ", ")
  }

  // ---- the breakdown and the result ----

  /** One line of `daily_breakdown`. */
  datatype DayEntry = DayEntry(dayName: string, fullDate: string, counts: string, senders: string)

  function EntryOf(st: DayStats): DayEntry {
    DayEntry(DayName(st.date.weekday), DateKey(st.date),
             NatToString(st.unread) + " sin leer, " + NatToString(st.read) + " le\U{00ED}dos",
             SendersText(st.senders))
  }

  function DayOrder(e: (string, DayStats)): int { Ordinal(e.1.date) }

  /** The days newest first, one line each. */
  function Timeline(daily: Dict<DayStats>): (r: seq<DayEntry>)
    ensures |r| == |daily|
  {
    var sorted := SortDesc(daily, DayOrder);
    SortDescPermutation(daily, DayOrder);
    seq(|sorted|, i requires 0 <= i < |sorted| => EntryOf(sorted[i].1))
  }

  /** The breakdown lists every day once, newest first. */
  lemma TimelineSpec(daily: Dict<DayStats>)
    ensures forall i, j :: 0 <= i < j < |Timeline(daily)| ==>
              Ordinal(SortDesc(daily, DayOrder)[i].1.date) >= Ordinal(SortDesc(daily, DayOrder)[j].1.date)
    ensures forall i :: 0 <= i < |Timeline(daily)| ==>
              SortDesc(daily, DayOrder)[i] in daily && Timeline(daily)[i] == EntryOf(SortDesc(daily, DayOrder)[i].1)
    ensures forall e :: e in daily ==> e in SortDesc(daily, DayOrder)
  {
    var sorted := SortDesc(daily, DayOrder);
    SortDescSorted(daily, DayOrder);
    SortDescPermutation(daily, DayOrder);
    forall i | 0 <= i < |sorted| ensures sorted[i] in daily {
      assert sorted[i] in multiset(sorted);
    }
    forall e | e in daily ensures e in sorted {
      assert e in multiset(daily);
    }
  }

  /** As the source's `sorted(..., reverse=True)` on the keys: no line's date sorts as text after an earlier line's. */
  lemma TimelineKeyOrder(daily: Dict<DayStats>)
    ensures forall i, j :: 0 <= i < j < |Timeline(daily)| ==>
              !TextLess(Timeline(daily)[i].fullDate, Timeline(daily)[j].fullDate)
  {
    TimelineSpec(daily);
    var sorted := SortDesc(daily, DayOrder);
    forall i, j | 0 <= i < j < |Timeline(daily)|
      ensures !TextLess(Timeline(daily)[i].fullDate, Timeline(daily)[j].fullDate)
    {
      KeyOrder(sorted[i].1.date, sorted[j].1.date);
    }
  }

  datatype Stats = Stats(totalAnalyzed: nat, unreadTotal: int, breakdown: seq<DayEntry>, withAttachments: nat)

  function WithAttachments(es: seq<Email>): nat
    decreases |es|
  {
    if |es| == 0 then 0 else (if |es[0].attachments| > 0 then 1 else 0) + WithAttachments(es[1..])
  }

  function StatsOf(emails: seq<Email>, totalUnread: int, parse: string -> Option<Date>): Stats {
    Stats(|emails|, totalUnread, Timeline(Daily([], emails, parse)), WithAttachments(emails))
  }

  /** `calculate_stats(emails, total_unread)`. */
  method CalculateStats(emails: seq<Email>, totalUnread: int, parse: string -> Option<Date>) returns (st: Stats)
    ensures st == StatsOf(emails, totalUnread, parse)
    ensures emails == [] ==> st == Stats(0, totalUnread, [], 0)
    ensures st.totalAnalyzed == |emails| && st.unreadTotal == totalUnread
  {
    if |emails| == 0 {
      return Stats(0, totalUnread, [], 0);
    }
    var daily := CollectDaily(emails, parse);
    st := Stats(|emails|, totalUnread, Timeline(daily), WithAttachments(emails));
  }

  /**
   * The breakdown has one line per distinct day among the parsed dates,
   * the day totals add up to the e-mails whose date parses, and every
   * day's counters agree with each other.
   */
  lemma StatsSpec(emails: seq<Email>, totalUnread: int, parse: string -> Option<Date>)
    ensures var daily := Daily([], emails, parse);
      && |StatsOf(emails, totalUnread, parse).breakdown| == |daily|
      && DistinctKeys(daily)
      && Consistent(daily)
      && SumTotals(daily) == Parsed(emails, parse)
      && (forall k :: TotalOn(daily, k) == CountOn(emails, parse, k))
  {
    DailyConsistent([], emails, parse);
    DailySum([], emails, parse);
    forall k ensures TotalOn(Daily([], emails, parse), k) == CountOn(emails, parse, k) {
      DailyTotalOn([], emails, parse, k);
    }
    DailyDistinct([], emails, parse);
  }

  lemma {:induction false} DailyDistinct(daily: Dict<DayStats>, es: seq<Email>, parse: string -> Option<Date>)
    requires DistinctKeys(daily)
    ensures DistinctKeys(Daily(daily, es, parse))
    decreases |es|
  {
    if |es| > 0 {
      var parsed := parse(DateText(es[0]));
      if parsed.Some? {
        PutDistinct(daily, DateKey(parsed.value), Bumped(daily, es[0], parsed.value));
      }
      DailyDistinct(AddEmail(daily, es[0], parse), es[1..], parse);
    }
  }

  // ---------------------------------------------------------------------
  // Generation (`_try_generate`)
  // ---------------------------------------------------------------------

  const NoModelsMessage := "No AI models enabled in configuration."
  /** What `raise None` raises when every model was skipped. */
  const RaiseNoneMessage := "exceptions must derive from BaseException"
  const SystemText :=
    "Eres un asistente ejecutivo de IA. Tu misi\U{00F3}n es leer correos y extraer res\U{00FA}menes precisos y \U{00FA}tiles. S\U{00E9} breve y directo."

  function AnalysisPrompt(context: string): string {
    "Analiza este correo y extrae informaci\U{00F3}n estructurada:\n" + context
  }

  /** `sort_key`: flash before gemini before gpt before the rest, by the lower-cased id. */
  function Rank(m: ModelConfig): int {
    var id := Lower(m.id);
    if Contains(id, "flash") then 0
    else if Contains(id, "gemini") then 1
    else if Contains(id, "gpt") then 2
    else 3
  }

  function NegRank(m: ModelConfig): int { -Rank(m) }

  /** `sorted(enabled_models, key=sort_key)`: ascending rank, stable. */
  function TryOrder(ms: seq<ModelConfig>): seq<ModelConfig> {
    SortDesc(ms, NegRank)
  }

  /** The try order holds the same models, by rank, and models of equal rank keep their order. */
  lemma TryOrderSpec(ms: seq<ModelConfig>)
    ensures multiset(TryOrder(ms)) == multiset(ms)
    ensures forall i, j :: 0 <= i < j < |TryOrder(ms)| ==> Rank(TryOrder(ms)[i]) <= Rank(TryOrder(ms)[j])
    ensures forall k :: WithKey(TryOrder(ms), NegRank, k) == WithKey(ms, NegRank, k)
  {
    SortDescPermutation(ms, NegRank);
    SortDescSorted(ms, NegRank);
    forall k ensures WithKey(TryOrder(ms), NegRank, k) == WithKey(ms, NegRank, k) {
      SortDescStable(ms, NegRank, k);
    }
  }

  /** What one model's turn gives: skipped for lack of a key, an exception, or the parsed reply. */
  datatype Step = Skipped | Raised(error: string) | Answered(data: string)

  /**
   * One model's turn on generation call `c`: the factory runs before the
   * key test, so an unknown provider raises even without a key.
   */
  function TryModel(m: ModelConfig, c: nat, j: nat, context: string, schemaJson: string,
                    server: (nat, nat, Request) -> Outcome, loads: string -> Result<string>): (r: Step)
    ensures r.Answered? ==> Truthy(m.apiKey) && ProviderKind(Some(m.provider)).Ok?
    ensures ProviderKind(Some(m.provider)).Err? ==> r == Raised(ProviderKind(Some(m.provider)).error)
    ensures ProviderKind(Some(m.provider)).Ok? && !Truthy(m.apiKey) ==> r == Skipped
  {
    match ProviderKind(Some(m.provider))
    case Err(e) => Raised(e)
    case Ok(k) =>
      if !Truthy(m.apiKey) then Skipped
      else
        match server(c, j, JsonRequestOf(k, m.modelId, AnalysisPrompt(context), schemaJson, Some(SystemText)))
        case Failure(e) => Raised(e)
        case Success(t) =>
          match loads(CleanJsonText(t))
          case Err(e) => Raised(e)
          case Ok(v) => Answered(v)
  }

  /** The models from position `j` on, with the error of the last one that raised so far. */
  function TryFrom(ms: seq<ModelConfig>, j: nat, c: nat, last: Option<string>, context: string, schemaJson: string,
                   server: (nat, nat, Request) -> Outcome, loads: string -> Result<string>): Result<string>
    requires j <= |ms|
    decreases |ms| - j
  {
    if j == |ms| then Err(last.GetOr(RaiseNoneMessage))
    else match TryModel(ms[j], c, j, context, schemaJson, server, loads)
      case Skipped => TryFrom(ms, j + 1, c, last, context, schemaJson, server, loads)
      case Raised(e) => TryFrom(ms, j + 1, c, Some(e), context, schemaJson, server, loads)
      case Answered(v) => Ok(v)
  }

  /** `_try_generate(context, schema)` as generation call `c`. */
  function Generated(registry: seq<ModelConfig>, c: nat, context: string, schemaJson: string,
                     server: (nat, nat, Request) -> Outcome, loads: string -> Result<string>): Result<string>
  {
    var enabled := EnabledByDefault(registry);
    if |enabled| == 0 then Err(NoModelsMessage)
    else TryFrom(TryOrder(enabled), 0, c, None, context, schemaJson, server, loads)
  }

  /** The first model, in try order, that answers gives the result. */
  lemma {:induction false} TryFromFirst(ms: seq<ModelConfig>, j: nat, k: nat, c: nat, last: Option<string>,
                                        context: string, schemaJson: string,
                                        server: (nat, nat, Request) -> Outcome, loads: string -> Result<string>)
    requires j <= k < |ms|
    requires forall i :: j <= i < k ==> !TryModel(ms[i], c, i, context, schemaJson, server, loads).Answered?
    requires TryModel(ms[k], c, k, context, schemaJson, server, loads).Answered?
    ensures TryFrom(ms, j, c, last, context, schemaJson, server, loads)
            == Ok(TryModel(ms[k], c, k, context, schemaJson, server, loads).data)
    decreases k - j
  {
    var s := TryModel(ms[j], c, j, context, schemaJson, server, loads);
    if j < k {
      assert !s.Answered?;
      if s.Skipped? {
        assert TryFrom(ms, j, c, last, context, schemaJson, server, loads)
               == TryFrom(ms, j + 1, c, last, context, schemaJson, server, loads);
        TryFromFirst(ms, j + 1, k, c, last, context, schemaJson, server, loads);
      } else {
        assert TryFrom(ms, j, c, last, context, schemaJson, server, loads)
               == TryFrom(ms, j + 1, c, Some(s.error), context, schemaJson, server, loads);
        TryFromFirst(ms, j + 1, k, c, Some(s.error), context, schemaJson, server, loads);
      }
    } else {
      assert TryFrom(ms, j, c, last, context, schemaJson, server, loads) == Ok(s.data);
    }
  }

  /** With no answer the result is an error: the last exception, or the `raise None` error when all were skipped. */
  lemma {:induction false} TryFromNoAnswer(ms: seq<ModelConfig>, j: nat, c: nat, last: Option<string>,
                                           context: string, schemaJson: string,
                                           server: (nat, nat, Request) -> Outcome, loads: string -> Result<string>)
    requires j <= |ms|
    requires forall i :: j <= i < |ms| ==> !TryModel(ms[i], c, i, context, schemaJson, server, loads).Answered?
    ensures TryFrom(ms, j, c, last, context, schemaJson, server, loads).Err?
    ensures (forall i :: j <= i < |ms| ==> TryModel(ms[i], c, i, context, schemaJson, server, loads).Skipped?) ==>
              TryFrom(ms, j, c, last, context, schemaJson, server, loads) == Err(last.GetOr(RaiseNoneMessage))
    decreases |ms| - j
  {
    if j < |ms| {
      var s := TryModel(ms[j], c, j, context, schemaJson, server, loads);
      var last' := if s.Raised? then Some(s.error) else last;
      assert TryFrom(ms, j, c, last, context, schemaJson, server, loads)
             == TryFrom(ms, j + 1, c, last', context, schemaJson, server, loads);
      TryFromNoAnswer(ms, j + 1, c, last', context, schemaJson, server, loads);
    }
  }

  /** When every enabled model lacks a key, nothing is called and `raise None` fails. */
  lemma KeylessModelsRaiseNone(registry: seq<ModelConfig>, c: nat, context: string, schemaJson: string,
                               server: (nat, nat, Request) -> Outcome, loads: string -> Result<string>)
    requires |EnabledByDefault(registry)| > 0
    requires forall m :: m in registry ==> !Truthy(m.apiKey) && ProviderKind(Some(m.provider)).Ok?
    ensures Generated(registry, c, context, schemaJson, server, loads) == Err(RaiseNoneMessage)
  {
    var ms := TryOrder(EnabledByDefault(registry));
    TryOrderSpec(EnabledByDefault(registry));
    forall i | 0 <= i < |ms| ensures TryModel(ms[i], c, i, context, schemaJson, server, loads).Skipped? {
      assert ms[i] in multiset(ms);
      assert ms[i] in EnabledByDefault(registry);
    }
    TryFromNoAnswer(ms, 0, c, None, context, schemaJson, server, loads);
  }

  /** The body of the loop of `_try_generate` for model `m` at position `j`. */
  method TryOne(m: ModelConfig, c: nat, j: nat, context: string, schemaJson: string,
                server: (nat, nat, Request) -> Outcome, loads: string -> Result<string>) returns (s: Step)
    ensures s == TryModel(m, c, j, context, schemaJson, server, loads)
  {
    var p := GetProvider(Some(m.provider));
    if p.Err? {
      return Raised(p.error);
    }
    if !Truthy(m.apiKey) {
      return Skipped;
    }
    var provider := p.value;
    provider.Configure(m.apiKey.value, m.modelId, if Truthy(m.baseUrl) then m.baseUrl else None);
    var reply := provider.GenerateJsonText(AnalysisPrompt(context), schemaJson, Some(SystemText), req => server(c, j, req));
    if reply.Err? {
      return Raised(reply.error);
    }
    var parsed := loads(reply.value);
    if parsed.Err? {
      return Raised(parsed.error);
    }
    s := Answered(parsed.value);
  }

  /** The loop of `_try_generate`, with `last_error` updated on every exception. */
  method TryGenerate(registry: seq<ModelConfig>, c: nat, context: string, schemaJson: string,
                     server: (nat, nat, Request) -> Outcome, loads: string -> Result<string>) returns (r: Result<string>)
    ensures r == Generated(registry, c, context, schemaJson, server, loads)
  {
    var enabled := EnabledByDefault(registry);
    if |enabled| == 0 {
      return Err(NoModelsMessage);
    }
    var models := TryOrder(enabled);
    var lastError: Option<string> := None;
    for j := 0 to |models|
      invariant TryFrom(models, j, c, lastError, context, schemaJson, server, loads)
                == TryFrom(models, 0, c, None, context, schemaJson, server, loads)
    {
      var s := TryOne(models[j], c, j, context, schemaJson, server, loads);
      match s
      case Skipped =>
      case Raised(e) => lastError := Some(e);
      case Answered(v) => return Ok(v);
    }
    r := Err(lastError.GetOr(RaiseNoneMessage));
  }

  // ---------------------------------------------------------------------
  // Per-e-mail summaries (the effective `analyze_content`)
  // ---------------------------------------------------------------------

  /** What `ai_data` holds: the parsed model reply, or the fixed error record. */
  datatype AiData =
    | ModelData(json: string)
    | ErrorData(summary: string, category: string, priority: string, attachmentsAnalysis: string)

  datatype Item = Item(id: string, subject: string, sender: string, date: string, aiData: AiData)

  /** Python `str()` of an optional text. */
  function PyStr(o: Option<string>): string { o.GetOr("None") }

  /** The context line of one attachment: at most 1000 characters of its text, if it has any. */
  function AttachmentLines(a: Attachment): string {
    "\n- " + a.filename + " (" + a.contentType + ")"
    + if a.content.Some? && a.content.value != "" then "\n  Contenido: " + a.content.value[..Min(1000, |a.content.value|)]
      else "\n  (Binario o sin texto extra\U{00ED}ble)"
  }

  function AllAttachmentLines(atts: seq<Attachment>): string
    decreases |atts|
  {
    if |atts| == 0 then "" else AttachmentLines(atts[0]) + AllAttachmentLines(atts[1..])
  }

  const NoneNotSubscriptable := "'NoneType' object is not subscriptable"

  /** The context sent to the models; a missing body makes the slice raise. */
  function Context(e: Email): Result<string> {
    match e.body
    case None => Err(NoneNotSubscriptable)
    case Some(b) =>
      Ok("Asunto: " + PyStr(e.subject) + "\nRemitente: " + PyStr(e.sender) + "\nCuerpo: " + b[..Min(3000, |b|)]
         + (if |e.attachments| > 0 then "\nADJUNTOS:" + AllAttachmentLines(e.attachments) else ""))
  }

  /** The error record: the message cut to 100 characters. */
  function ErrorRecord(message: string): (r: AiData)
    ensures r.ErrorData? && r.category == "Error" && r.priority == "Baja" && r.attachmentsAnalysis == "Error"
    ensures |r.summary| <= |"no se pudo analizar: "| + 100
    ensures StartsWith(r.summary, "no se pudo analizar: ")
  {
    ErrorData("no se pudo analizar: " + message[..Min(100, |message|)], "Error", "Baja", "Error")
  }

  /** The result for e-mail `e`, analysed as generation call `c`. */
  function ItemFor(e: Email, c: nat, registry: seq<ModelConfig>, schemaJson: string,
                   server: (nat, nat, Request) -> Outcome, loads: string -> Result<string>): (r: Item)
    ensures r.id == e.id
    ensures r.subject == e.subject.GetOr("(Sin Asunto)") && r.sender == e.sender.GetOr("Desconocido")
    ensures r.date == e.date.GetOr("")
  {
    var data :=
      match Context(e)
      case Err(m) => ErrorRecord(m)
      case Ok(ctx) =>
        match Generated(registry, c, ctx, schemaJson, server, loads)
        case Ok(v) => ModelData(v)
        case Err(m) => ErrorRecord(m);
    Item(e.id, e.subject.GetOr("(Sin Asunto)"), e.sender.GetOr("Desconocido"), e.date.GetOr(""), data)
  }

  /** An e-mail whose analysis fails carries the error record, never an exception. */
  lemma FailedItemShape(e: Email, c: nat, registry: seq<ModelConfig>, schemaJson: string,
                        server: (nat, nat, Request) -> Outcome, loads: string -> Result<string>)
    requires Context(e).Err? || Generated(registry, c, Context(e).value, schemaJson, server, loads).Err?
    ensures var d := ItemFor(e, c, registry, schemaJson, server, loads).aiData;
      d.ErrorData? && d.category == "Error" && d.priority == "Baja" && d.attachmentsAnalysis == "Error"
  {}

  /** An empty registry fails every e-mail with the no-model message. */
  lemma NoModelsItem(e: Email, c: nat, registry: seq<ModelConfig>, schemaJson: string,
                     server: (nat, nat, Request) -> Outcome, loads: string -> Result<string>)
    requires e.body.Some? && |EnabledByDefault(registry)| == 0
    ensures ItemFor(e, c, registry, schemaJson, server, loads).aiData == ErrorRecord(NoModelsMessage)
  {}

  /** The `context += …` loop over the attachments. */
  method BuildContext(e: Email) returns (r: Result<string>)
    ensures r == Context(e)
  {
    if e.body.None? {
      return Err(NoneNotSubscriptable);
    }
    var b := e.body.value;
    var base := "Asunto: " + PyStr(e.subject) + "\nRemitente: " + PyStr(e.sender) + "\nCuerpo: " + b[..Min(3000, |b|)];
    var context := base;
    var atts := e.attachments;
    if |atts| > 0 {
      context := context + "\nADJUNTOS:";
      var head := context;
      for i := 0 to |atts|
        invariant context + AllAttachmentLines(atts[i..]) == head + AllAttachmentLines(atts)
      {
        assert atts[i..][1..] == atts[i + 1..];
        AppendAssoc(context, AttachmentLines(atts[i]), AllAttachmentLines(atts[i + 1..]));
        context := context + AttachmentLines(atts[i]);
      }
      assert atts[|atts|..] == [];
      assert context == head + AllAttachmentLines(atts);
      AppendAssoc(base, "\nADJUNTOS:", AllAttachmentLines(atts));
      assert Context(e) == Ok(base + ("\nADJUNTOS:" + AllAttachmentLines(atts)));
    } else {
      assert Context(e) == Ok(base + "");
      assert base + "" == base;
    }
    r := Ok(context);
  }

  lemma AppendAssoc(a: string, b: string, c: string)
    ensures (a + b) + c == a + (b + c)
  {}

  /** `analyze_content(emails)`: one result per e-mail, in order, e-mail `i` being generation call `i`. */
  method AnalyzeContent(emails: seq<Email>, registry: seq<ModelConfig>, schemaJson: string,
                        server: (nat, nat, Request) -> Outcome, loads: string -> Result<string>)
    returns (results: seq<Item>)
    ensures |results| == |emails|
    ensures forall i :: 0 <= i < |emails| ==> results[i] == ItemFor(emails[i], i, registry, schemaJson, server, loads)
  {
    results := [];
    for i := 0 to |emails|
      invariant |results| == i
      invariant forall j :: 0 <= j < i ==> results[j] == ItemFor(emails[j], j, registry, schemaJson, server, loads)
    {
      var e := emails[i];
      var context := BuildContext(e);
      var data: AiData;
      if context.Err? {
        data := ErrorRecord(context.error);
      } else {
        var reply := TryGenerate(registry, i, context.value, schemaJson, server, loads);
        data := if reply.Ok? then ModelData(reply.value) else ErrorRecord(reply.error);
      }
      results := results + [Item(e.id, e.subject.GetOr("(Sin Asunto)"), e.sender.GetOr("Desconocido"),
                                 e.date.GetOr(""), data)];
    }
  }
}
