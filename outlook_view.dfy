/**
 * The mail view of the web client (`OutlookModule` in `outlook.js`):
 * HTML escaping of the texts it renders, the "read since Monday" figure
 * summed from the analysis breakdown, the Date / Status / Category /
 * Subcategory tree tallied from the analysed e-mails, and the list of
 * e-mails with the id of the latest one, which polling and fetching
 * update.
 *
 * The DOM, notifications, timers and the HTTP calls are left out: the
 * replies of `/api/outlook/messages` are parameters.
 */
module OutlookView {
  import opened Wrappers
  import opened Text
  import opened Dicts
  import EmailAnalysis

  // ---------------------------------------------------------------------
  // escapeHtml
  // ---------------------------------------------------------------------

  /** `s.replace(/c/g, rep)`: every occurrence of the character `c` replaced. */
  function ReplaceChar(s: string, c: char, rep: string): string
    decreases |s|
  {
    if |s| == 0 then ""
    else (if s[0] == c then rep else [s[0]]) + ReplaceChar(s[1..], c, rep)
  }

  lemma {:induction false} ReplaceCharConcat(a: string, b: string, c: char, rep: string)
    ensures ReplaceChar(a + b, c, rep) == ReplaceChar(a, c, rep) + ReplaceChar(b, c, rep)
    decreases |a|
  {
    if |a| == 0 {
      assert a + b == b;
    } else {
      assert (a + b)[1..] == a[1..] + b;
      ReplaceCharConcat(a[1..], b, c, rep);
    }
  }

  /** The five replacements in the order the view applies them, `&` first. */
  function ReplaceChain(s: string): string {
    ReplaceChar(ReplaceChar(ReplaceChar(ReplaceChar(ReplaceChar(s, '&', "&amp;"), '<', "&lt;"), '>', "&gt;"),
                            '"', "&quot;"), '\'', "&#039;")
  }

  /** `escapeHtml(text)`: `''` for a falsy text. */
  function EscapeHtml(text: Option<string>): string {
    if !Truthy(text) then "" else ReplaceChain(text.value)
  }

  /** The entity one character is written as. */
  function EscapeChar(c: char): string {
    match c
    case '&' => "&amp;"
    case '<' => "&lt;"
    case '>' => "&gt;"
    case '"' => "&quot;"
    case '\'' => "&#039;"
    case _ => [c]
  }

  predicate Special(c: char) { c == '&' || c == '<' || c == '>' || c == '"' || c == '\'' }

  /** Each character escaped once, independently of the others. */
  function Escaped(s: string): (r: string)
    ensures forall j :: 0 <= j < |r| ==> r[j] != '<' && r[j] != '>' && r[j] != '"' && r[j] != '\''
    ensures (forall j :: 0 <= j < |s| ==> !Special(s[j])) ==> r == s
    decreases |s|
  {
    if |s| == 0 then "" else EscapeChar(s[0]) + Escaped(s[1..])
  }

  lemma ReplaceChainConcat(a: string, b: string)
    ensures ReplaceChain(a + b) == ReplaceChain(a) + ReplaceChain(b)
  {
    var a1, b1 := ReplaceChar(a, '&', "&amp;"), ReplaceChar(b, '&', "&amp;");
    ReplaceCharConcat(a, b, '&', "&amp;");
    var a2, b2 := ReplaceChar(a1, '<', "&lt;"), ReplaceChar(b1, '<', "&lt;");
    ReplaceCharConcat(a1, b1, '<', "&lt;");
    var a3, b3 := ReplaceChar(a2, '>', "&gt;"), ReplaceChar(b2, '>', "&gt;");
    ReplaceCharConcat(a2, b2, '>', "&gt;");
    var a4, b4 := ReplaceChar(a3, '"', "&quot;"), ReplaceChar(b3, '"', "&quot;");
    ReplaceCharConcat(a3, b3, '"', "&quot;");
    ReplaceCharConcat(a4, b4, '\'', "&#039;");
  }

  lemma ReplaceSingle(c: char, x: char, rep: string)
    ensures ReplaceChar([c], x, rep) == if c == x then rep else [c]
  {
    assert [c][1..] == [];
  }

  // The entities are left alone by the replacements that come after theirs.

  lemma AmpKept()
    ensures ReplaceChar("&amp;", '<', "&lt;") == "&amp;"
    ensures ReplaceChar("&amp;", '>', "&gt;") == "&amp;"
    ensures ReplaceChar("&amp;", '"', "&quot;") == "&amp;"
    ensures ReplaceChar("&amp;", '\'', "&#039;") == "&amp;"
  {}

  lemma LtKept()
    ensures ReplaceChar("&lt;", '>', "&gt;") == "&lt;"
    ensures ReplaceChar("&lt;", '"', "&quot;") == "&lt;"
    ensures ReplaceChar("&lt;", '\'', "&#039;") == "&lt;"
  {}

  lemma GtKept()
    ensures ReplaceChar("&gt;", '"', "&quot;") == "&gt;"
    ensures ReplaceChar("&gt;", '\'', "&#039;") == "&gt;"
  {}

  lemma QuotKept()
    ensures ReplaceChar("&quot;", '\'', "&#039;") == "&quot;"
  {}

  lemma ChainOfSpecial(c: char)
    requires Special(c)
    ensures ReplaceChain([c]) == EscapeChar(c)
  {
    ReplaceSingle(c, '&', "&amp;");
    ReplaceSingle(c, '<', "&lt;");
    ReplaceSingle(c, '>', "&gt;");
    ReplaceSingle(c, '"', "&quot;");
    ReplaceSingle(c, '\'', "&#039;");
    if c == '&' {
      AmpKept();
    } else if c == '<' {
      LtKept();
    } else if c == '>' {
      GtKept();
    } else if c == '"' {
      QuotKept();
    }
  }

  lemma ChainOfPlain(c: char)
    requires !Special(c)
    ensures ReplaceChain([c]) == [c]
  {
    ReplaceSingle(c, '&', "&amp;");
    ReplaceSingle(c, '<', "&lt;");
    ReplaceSingle(c, '>', "&gt;");
    ReplaceSingle(c, '"', "&quot;");
    ReplaceSingle(c, '\'', "&#039;");
  }

  lemma ReplaceChainChar(c: char)
    ensures ReplaceChain([c]) == EscapeChar(c)
  {
    if Special(c) {
      ChainOfSpecial(c);
    } else {
      ChainOfPlain(c);
    }
  }

  /**
   * The chain of replacements escapes every character exactly once:
   * because `&` goes first, the `&` of an entity introduced later is not
   * escaped again.
   */
  lemma {:induction false} ReplaceChainEscapes(s: string)
    ensures ReplaceChain(s) == Escaped(s)
    decreases |s|
  {
    if |s| > 0 {
      assert s == [s[0]] + s[1..];
      ReplaceChainConcat([s[0]], s[1..]);
      ReplaceChainChar(s[0]);
      ReplaceChainEscapes(s[1..]);
    }
  }

  /** What a browser reads back from the five entities. */
  function Unescape(t: string): string
    decreases |t|
  {
    if |t| == 0 then ""
    else if t[0] != '&' then [t[0]] + Unescape(t[1..])
    else if StartsWith(t, "&amp;") then "&" + Unescape(t[5..])
    else if StartsWith(t, "&lt;") then "<" + Unescape(t[4..])
    else if StartsWith(t, "&gt;") then ">" + Unescape(t[4..])
    else if StartsWith(t, "&quot;") then "\"" + Unescape(t[6..])
    else if StartsWith(t, "&#039;") then "'" + Unescape(t[6..])
    else [t[0]] + Unescape(t[1..])
  }

  /** An entity followed by anything reads back as its character followed by the rest read back. */
  lemma UnescapeEntity(c: char, rest: string)
    requires Special(c)
    ensures Unescape(EscapeChar(c) + rest) == [c] + Unescape(rest)
  {
    var e := EscapeChar(c);
    var t := e + rest;
    assert t[..|e|] == e && t[|e|..] == rest;
    assert t[0] == '&';
    if c != '&' {
      assert t[1] == e[1] && e[1] != 'a';
      assert !StartsWith(t, "&amp;");
    }
    if c != '<' {
      assert t[1] == e[1] && e[1] != 'l';
      assert !StartsWith(t, "&lt;");
    }
    if c != '>' {
      assert t[1] == e[1] && e[1] != 'g';
      assert !StartsWith(t, "&gt;");
    }
    if c != '"' {
      assert t[1] == e[1] && e[1] != 'q';
      assert !StartsWith(t, "&quot;");
    }
  }

  lemma {:induction false} UnescapeEscaped(s: string)
    ensures Unescape(Escaped(s)) == s
    decreases |s|
  {
    if |s| > 0 {
      var e, rest := EscapeChar(s[0]), Escaped(s[1..]);
      UnescapeEscaped(s[1..]);
      if Special(s[0]) {
        UnescapeEntity(s[0], rest);
      } else {
        assert e == [s[0]];
        assert (e + rest)[1..] == rest;
      }
      assert s == [s[0]] + s[1..];
    }
  }

  /**
   * `escapeHtml`: a falsy text gives `''`; otherwise no raw `<`, `>`, `"`
   * or `'` is left, a text without any of the five special characters
   * comes back unchanged, and the escaped text reads back as the original.
   */
  lemma EscapeHtmlSpec(text: Option<string>)
    ensures !Truthy(text) ==> EscapeHtml(text) == ""
    ensures Truthy(text) ==> EscapeHtml(text) == Escaped(text.value)
    ensures var r := EscapeHtml(text);
            forall j :: 0 <= j < |r| ==> r[j] != '<' && r[j] != '>' && r[j] != '"' && r[j] != '\''
    ensures Truthy(text) && (forall j :: 0 <= j < |text.value| ==> !Special(text.value[j])) ==>
              EscapeHtml(text) == text.value
    ensures Truthy(text) ==> Unescape(EscapeHtml(text)) == text.value
  {
    if Truthy(text) {
      ReplaceChainEscapes(text.value);
      UnescapeEscaped(text.value);
    }
  }

  // ---------------------------------------------------------------------
  // Read since Monday
  // ---------------------------------------------------------------------

  /** An entry of the breakdown: the object form with its `counts` text, or the older plain-text form. */
  datatype BreakdownItem = DayObject(counts: string) | DayText(text: string)

  /** `data.stats.daily_breakdown || data.stats.timeline || []`: an array is truthy even when empty. */
  function BreakdownOf(dailyBreakdown: Option<seq<BreakdownItem>>, timeline: Option<seq<BreakdownItem>>): (r: seq<BreakdownItem>)
    ensures dailyBreakdown.Some? ==> r == dailyBreakdown.value
    ensures dailyBreakdown.None? && timeline.Some? ==> r == timeline.value
    ensures dailyBreakdown.None? && timeline.None? ==> r == []
  {
    if dailyBreakdown.Some? then dailyBreakdown.value else timeline.GetOr([])
  }

  /** The end of the run of digits starting at `i`. */
  function DigitRunEnd(s: string, i: nat): (e: nat)
    requires i <= |s|
    ensures i <= e <= |s| && (forall k :: i <= k < e ==> IsDigit(s[k])) && (e < |s| ==> !IsDigit(s[e]))
    decreases |s| - i
  {
    if i < |s| && IsDigit(s[i]) then DigitRunEnd(s, i + 1) else i
  }

  /** The end of the run of `\s` characters starting at `i`. */
  function SpaceRunEnd(s: string, i: nat): (e: nat)
    requires i <= |s|
    ensures i <= e <= |s| && (forall k :: i <= k < e ==> IsJsSpace(s[k])) && (e < |s| ==> !IsJsSpace(s[e]))
    decreases |s| - i
  {
    if i < |s| && IsJsSpace(s[i]) then SpaceRunEnd(s, i + 1) else i
  }

  const ReadWord := "le\U{00ED}dos"

  /**
   * The number `/(\d+)\s+leídos/` captures at position `p`, if it matches
   * there.  Digits and spaces are disjoint and the word starts with
   * neither, so backtracking never helps: `\d+` and `\s+` take their
   * whole runs.
   */
  function MatchAt(s: string, p: nat): Option<nat>
    requires p <= |s|
  {
    if p < |s| && IsDigit(s[p]) then
      var q := DigitRunEnd(s, p);
      var r := SpaceRunEnd(s, q);
      if q < r && StartsWith(s[r..], ReadWord) then Some(DigitsValue(s[p..q])) else None
    else None
  }

  /** The leftmost match at or after `p`. */
  function FirstMatchFrom(s: string, p: nat): (r: Option<nat>)
    requires p <= |s|
    decreases |s| - p
  {
    if p == |s| then None
    else match MatchAt(s, p)
      case Some(n) => Some(n)
      case None => FirstMatchFrom(s, p + 1)
  }

  /** `countsStr.match(/(\d+)\s+leídos/)` and `parseInt(match[1])`. */
  function ReadCount(counts: string): Option<nat> { FirstMatchFrom(counts, 0) }

  /** The figure: the read counts of the object entries; plain-text entries are skipped. */
  function ReadSum(items: seq<BreakdownItem>): (total: nat)
    ensures (forall i :: 0 <= i < |items| ==> items[i].DayText?) ==> total == 0
    decreases |items|
  {
    if |items| == 0 then 0
    else
      var last := items[|items| - 1];
      ReadSum(items[..|items| - 1])
      + (if last.DayObject? && ReadCount(last.counts).Some? then ReadCount(last.counts).value else 0)
  }

  /** The sum over two runs of entries is the sum of their sums. */
  lemma {:induction false} ReadSumAppend(a: seq<BreakdownItem>, b: seq<BreakdownItem>)
    ensures ReadSum(a + b) == ReadSum(a) + ReadSum(b)
    decreases |b|
  {
    if |b| == 0 {
      assert a + b == a;
    } else {
      assert (a + b)[..|a + b| - 1] == a + b[..|b| - 1];
      ReadSumAppend(a, b[..|b| - 1]);
    }
  }

  /** The `forEach` that accumulates `readSinceMonday`. */
  method ReadSinceMonday(items: seq<BreakdownItem>) returns (total: nat)
    ensures total == ReadSum(items)
  {
    total := 0;
    var i := 0;
    while i < |items|
      invariant 0 <= i <= |items|
      invariant total == ReadSum(items[..i])
    {
      assert items[..i + 1][..i] == items[..i];
      var item := items[i];
      if item.DayObject? {
        var m := ReadCount(item.counts);
        if m.Some? {
          total := total + m.value;
        }
      }
      i := i + 1;
    }
    assert items[..i] == items;
  }

  lemma {:induction false} DigitRunEndAt(s: string, i: nat, e: nat)
    requires i <= e <= |s| && (forall k :: i <= k < e ==> IsDigit(s[k])) && (e < |s| ==> !IsDigit(s[e]))
    ensures DigitRunEnd(s, i) == e
    decreases e - i
  {
    if i < e {
      DigitRunEndAt(s, i + 1, e);
    }
  }

  lemma {:induction false} SpaceRunEndAt(s: string, i: nat, e: nat)
    requires i <= e <= |s| && (forall k :: i <= k < e ==> IsJsSpace(s[k])) && (e < |s| ==> !IsJsSpace(s[e]))
    ensures SpaceRunEnd(s, i) == e
    decreases e - i
  {
    if i < e {
      SpaceRunEndAt(s, i + 1, e);
    }
  }

  /** Positions where nothing matches are skipped by the search. */
  lemma {:induction false} FirstMatchSkips(s: string, p: nat, p': nat)
    requires p <= p' <= |s| && forall k :: p <= k < p' ==> MatchAt(s, k).None?
    ensures FirstMatchFrom(s, p) == FirstMatchFrom(s, p')
    decreases p' - p
  {
    if p < p' {
      FirstMatchSkips(s, p + 1, p');
    }
  }

  /**
   * The `counts` text the analysis service writes for a day,
   * `"<unread> sin leer, <read> leídos"`, reads back as that day's read
   * count: the unread number is followed by `sin`, not by the word.
   */
  const CountsMid := " sin leer, "

  /** No match starts in the unread number or in the text after it. */
  lemma NoMatchBeforeRead(s: string, u: nat)
    requires 0 < u && u + |CountsMid| <= |s|
    requires forall k :: 0 <= k < u ==> IsDigit(s[k])
    requires s[u..u + |CountsMid|] == CountsMid
    ensures forall k :: 0 <= k < u + |CountsMid| ==> MatchAt(s, k).None?
  {
    assert s[u] == CountsMid[0] && s[u + 1] == CountsMid[1];
    forall k | 0 <= k < u + |CountsMid| ensures MatchAt(s, k).None? {
      if k < u {
        DigitRunEndAt(s, k, u);
        SpaceRunEndAt(s, u, u + 1);
        assert s[u + 1..][0] == 's';
      } else {
        assert s[k] == CountsMid[k - u];
      }
    }
  }

  /** A text shaped `<digits> sin leer, <digits> leídos` captures its second number. */
  lemma CountsShape(s: string, u: nat, q: nat)
    requires 0 < u && u + |CountsMid| < q && q + 1 + |ReadWord| == |s|
    requires forall k :: 0 <= k < u ==> IsDigit(s[k])
    requires s[u..u + |CountsMid|] == CountsMid
    requires forall k :: u + |CountsMid| <= k < q ==> IsDigit(s[k])
    requires s[q] == ' ' && s[q + 1..] == ReadWord
    ensures FirstMatchFrom(s, 0) == Some(DigitsValue(s[u + |CountsMid|..q]))
  {
    var p := u + |CountsMid|;
    NoMatchBeforeRead(s, u);
    FirstMatchSkips(s, 0, p);
    DigitRunEndAt(s, p, q);
    assert s[q + 1] == ReadWord[0];
    SpaceRunEndAt(s, q, q + 1);
  }

  /**
   * The `counts` text the analysis service writes for a day,
   * `"<unread> sin leer, <read> leídos"`, reads back as that day's read
   * count: the unread number is followed by `sin`, not by the word.
   */
  lemma BackendCountsRead(st: EmailAnalysis.DayStats)
    ensures ReadCount(EmailAnalysis.EntryOf(st).counts) == Some(st.read)
  {
    var u, r := NatToString(st.unread), NatToString(st.read);
    var s := u + CountsMid + r + " " + ReadWord;
    assert EmailAnalysis.EntryOf(st).counts == s;
    var p := |u| + |CountsMid|;
    var q := p + |r|;
    assert s[|u|..p] == CountsMid;
    assert s[p..q] == r;
    assert s[q + 1..] == ReadWord;
    forall k | 0 <= k < |u| ensures IsDigit(s[k]) {
      assert s[k] == u[k];
    }
    forall k | p <= k < q ensures IsDigit(s[k]) {
      assert s[k] == r[k - p];
    }
    CountsShape(s, |u|, q);
    NatToStringRoundTrip(st.read);
  }

  // ---------------------------------------------------------------------
  // The analysis tree
  // ---------------------------------------------------------------------

  /** The `ai_data` fields the tree reads. */
  datatype AiFields = AiFields(category: Option<string>, subcategory: Option<string>, priority: Option<string>)

  /** One analysed e-mail as the view receives it. */
  datatype AnalysisEntry = AnalysisEntry(
    date: Option<string>, isRead: bool, aiData: Option<AiFields>, subject: Option<string>, sender: Option<string>)

  /** The subject and sender listed under a subcategory. */
  datatype Mention = Mention(subject: Option<string>, sender: Option<string>)

  datatype SubNode = SubNode(count: nat, items: seq<Mention>)
  /** The `{ 'Alta': 0, 'Media': 0, 'Baja': 0 }` counters of a category. */
  datatype PriorityCounts = PriorityCounts(alta: nat, media: nat, baja: nat)

  datatype CatNode = CatNode(total: nat, subs: Dict<SubNode>, priorities: PriorityCounts)
  datatype StatusNode = StatusNode(total: nat, cats: Dict<CatNode>)
  datatype DateNode = DateNode(total: nat, statuses: Dict<StatusNode>)

  /** Date, then status, then category, then subcategory. */
  type Tree = Dict<DateNode>

  const UnknownDate := "Fecha Desconocida"
  const ReadStatus := "Le\U{00ED}dos"
  const UnreadStatus := "No Le\U{00ED}dos"

  /** `x || d` on an optional text. */
  function OrElse(x: Option<string>, d: string): string { if Truthy(x) then x.value else d }

  /** `item.date.split(',')[0].trim()`, or the unknown-date key for a falsy date. */
  function DateKey(e: AnalysisEntry): string {
    if Truthy(e.date) then JsTrim(Split(e.date.value, ",")[0]) else UnknownDate
  }

  function StatusKey(e: AnalysisEntry): string { if e.isRead then ReadStatus else UnreadStatus }

  function Ai(e: AnalysisEntry): AiFields { e.aiData.GetOr(AiFields(None, None, None)) }
  function CategoryKey(e: AnalysisEntry): string { OrElse(Ai(e).category, "Otros") }
  function SubcategoryKey(e: AnalysisEntry): string { OrElse(Ai(e).subcategory, "General") }
  function PriorityKey(e: AnalysisEntry): string { OrElse(Ai(e).priority, "Baja") }

  /**
   * The date key is the unknown-date key for a falsy date; otherwise it
   * holds no comma and has no surrounding whitespace.
   */
  lemma DateKeySpec(e: AnalysisEntry)
    ensures !Truthy(e.date) ==> DateKey(e) == UnknownDate
    ensures Truthy(e.date) ==> var k := DateKey(e);
              (forall j :: 0 <= j < |k| ==> k[j] != ',')
              && (|k| > 0 ==> !IsJsSpace(k[0]) && !IsJsSpace(k[|k| - 1]))
  {
    if Truthy(e.date) {
      var b := Split(e.date.value, ",")[0];
      EmailAnalysis.NoChar(b, ',');
      var l := TrimLeftBy(b, IsJsSpace);
      var k := TrimRightBy(l, IsJsSpace);
      assert DateKey(e) == k;
      forall j | 0 <= j < |k| ensures k[j] != ',' {
        assert k[j] == l[j];
        assert l[j] == b[|b| - |l| + j];
      }
      if |k| > 0 {
        assert k[0] == l[0];
      }
    }
  }

  function PrioritySum(p: PriorityCounts): nat { p.alta + p.media + p.baja }

  /**
   * `priorities[prio]++` when `priorities[prio] !== undefined`: only the
   * three keys the counters start with are counted.
   */
  function Bumped(p: PriorityCounts, prio: string): (r: PriorityCounts)
    ensures PrioritySum(r) == PrioritySum(p) + (if prio == "Alta" || prio == "Media" || prio == "Baja" then 1 else 0)
  {
    if prio == "Alta" then p.(alta := p.alta + 1)
    else if prio == "Media" then p.(media := p.media + 1)
    else if prio == "Baja" then p.(baja := p.baja + 1)
    else p
  }

  function SubCount(n: SubNode): nat { n.count }
  function CatTotal(n: CatNode): nat { n.total }
  function StatusTotal(n: StatusNode): nat { n.total }
  function DateTotal(n: DateNode): nat { n.total }

  function AddToSub(n: SubNode, m: Mention): SubNode { SubNode(n.count + 1, n.items + [m]) }

  /** The category node after one e-mail: its subcategory and, when it is one of the three, its priority bumped. */
  function AddToCat(n: CatNode, sub: string, prio: string, m: Mention): CatNode {
    var s := Get(n.subs, sub).GetOr(SubNode(0, []));
    CatNode(n.total + 1, Put(n.subs, sub, AddToSub(s, m)), Bumped(n.priorities, prio))
  }

  function AddToStatus(n: StatusNode, e: AnalysisEntry): StatusNode {
    var c := Get(n.cats, CategoryKey(e)).GetOr(CatNode(0, [], PriorityCounts(0, 0, 0)));
    StatusNode(n.total + 1,
               Put(n.cats, CategoryKey(e),
                   AddToCat(c, SubcategoryKey(e), PriorityKey(e), Mention(e.subject, e.sender))))
  }

  function AddToDate(n: DateNode, e: AnalysisEntry): DateNode {
    var s := Get(n.statuses, StatusKey(e)).GetOr(StatusNode(0, []));
    DateNode(n.total + 1, Put(n.statuses, StatusKey(e), AddToStatus(s, e)))
  }

  /** One iteration of the `forEach` over the analysed e-mails. */
  function Tally(t: Tree, e: AnalysisEntry): Tree {
    Put(t, DateKey(e), AddToDate(Get(t, DateKey(e)).GetOr(DateNode(0, [])), e))
  }

  /** The tree after the e-mails, in order. */
  function TreeOf(items: seq<AnalysisEntry>): Tree
    decreases |items|
  {
    if |items| == 0 then [] else Tally(TreeOf(items[..|items| - 1]), items[|items| - 1])
  }

  /** The loop that builds the tree. */
  method BuildTree(items: seq<AnalysisEntry>) returns (t: Tree)
    ensures t == TreeOf(items)
  {
    t := [];
    for i := 0 to |items|
      invariant t == TreeOf(items[..i])
    {
      assert items[..i + 1][..i] == items[..i];
      t := Tally(t, items[i]);
    }
    assert items[..|items|] == items;
  }

  // The counts every level of the tree keeps consistent.

  predicate SubOk(n: SubNode) { n.count == |n.items| }

  /** The subcategories of a category of `total` e-mails. */
  predicate SubsOk(subs: Dict<SubNode>, total: nat) {
    DistinctKeys(subs) && All(subs, SubOk) && total == SumOf(subs, SubCount)
  }

  predicate CatOk(n: CatNode) {
    SubsOk(n.subs, n.total) && PrioritySum(n.priorities) <= n.total
  }

  predicate StatusOk(n: StatusNode) {
    DistinctKeys(n.cats) && All(n.cats, CatOk) && n.total == SumOf(n.cats, CatTotal)
  }

  predicate DateOk(n: DateNode) {
    DistinctKeys(n.statuses) && All(n.statuses, StatusOk)
    && n.total == SumOf(n.statuses, StatusTotal)
  }

  predicate TreeOk(t: Tree) {
    DistinctKeys(t) && All(t, DateOk)
  }

  lemma AddToCatOk(n: CatNode, sub: string, prio: string, m: Mention)
    requires CatOk(n)
    ensures CatOk(AddToCat(n, sub, prio, m))
  {
    SubBump(n.subs, n.total, sub, m);
  }

  lemma SubBump(subs: Dict<SubNode>, total: nat, sub: string, m: Mention)
    requires SubsOk(subs, total)
    ensures SubsOk(Put(subs, sub, AddToSub(Get(subs, sub).GetOr(SubNode(0, [])), m)), total + 1)
  {
    var s := Get(subs, sub).GetOr(SubNode(0, []));
    PutAll(subs, sub, s, SubOk);
    assert SubOk(AddToSub(s, m));
    PutAll(subs, sub, AddToSub(s, m), SubOk);
    PutSum(subs, sub, AddToSub(s, m), SubCount);
    PutDistinct(subs, sub, AddToSub(s, m));
  }

  lemma AddToStatusOk(n: StatusNode, e: AnalysisEntry)
    requires StatusOk(n)
    ensures StatusOk(AddToStatus(n, e))
  {
    var c := Get(n.cats, CategoryKey(e)).GetOr(CatNode(0, [], PriorityCounts(0, 0, 0)));
    PutAll(n.cats, CategoryKey(e), c, CatOk);
    AddToCatOk(c, SubcategoryKey(e), PriorityKey(e), Mention(e.subject, e.sender));
    var c' := AddToCat(c, SubcategoryKey(e), PriorityKey(e), Mention(e.subject, e.sender));
    PutAll(n.cats, CategoryKey(e), c', CatOk);
    PutSum(n.cats, CategoryKey(e), c', CatTotal);
    PutDistinct(n.cats, CategoryKey(e), c');
  }

  lemma AddToDateOk(n: DateNode, e: AnalysisEntry)
    requires DateOk(n)
    ensures DateOk(AddToDate(n, e))
  {
    var s := Get(n.statuses, StatusKey(e)).GetOr(StatusNode(0, []));
    PutAll(n.statuses, StatusKey(e), s, StatusOk);
    AddToStatusOk(s, e);
    PutAll(n.statuses, StatusKey(e), AddToStatus(s, e), StatusOk);
    PutSum(n.statuses, StatusKey(e), AddToStatus(s, e), StatusTotal);
    PutDistinct(n.statuses, StatusKey(e), AddToStatus(s, e));
  }

  /** How many of the e-mails fall on the date key `k`. */
  function CountDate(items: seq<AnalysisEntry>, k: string): nat
    decreases |items|
  {
    if |items| == 0 then 0
    else CountDate(items[..|items| - 1], k) + (if DateKey(items[|items| - 1]) == k then 1 else 0)
  }

  /** The total shown for date key `k`; 0 when the key is not in the tree. */
  function TotalOn(t: Tree, k: string): nat {
    match Get(t, k)
    case Some(n) => n.total
    case None => 0
  }

  /**
   * Every level of the tree is consistent: a date's total is the sum of
   * its status totals, a status total the sum of its category totals, a
   * category total the sum of its subcategory counts and at least the sum
   * of its three priority counts, and a subcategory's count the length of
   * its list.  The date totals add up to the number of e-mails, and each
   * date's total is the number of e-mails with that date key.
   */
  lemma {:induction false} TreeSpec(items: seq<AnalysisEntry>)
    ensures TreeOk(TreeOf(items))
    ensures SumOf(TreeOf(items), DateTotal) == |items|
    ensures forall k :: TotalOn(TreeOf(items), k) == CountDate(items, k)
    decreases |items|
  {
    if |items| > 0 {
      var init := items[..|items| - 1];
      var e := items[|items| - 1];
      TreeSpec(init);
      TallyOk(TreeOf(init), e);
      TallyTotals(TreeOf(init), e);
    }
  }

  /** One e-mail keeps the tree consistent. */
  lemma TallyOk(t: Tree, e: AnalysisEntry)
    requires TreeOk(t)
    ensures TreeOk(Tally(t, e))
  {
    var n := Get(t, DateKey(e)).GetOr(DateNode(0, []));
    PutAll(t, DateKey(e), n, DateOk);
    AddToDateOk(n, e);
    PutAll(t, DateKey(e), AddToDate(n, e), DateOk);
    PutDistinct(t, DateKey(e), AddToDate(n, e));
  }

  /** One e-mail adds one to its own date's total and to no other. */
  lemma TallyTotals(t: Tree, e: AnalysisEntry)
    ensures SumOf(Tally(t, e), DateTotal) == SumOf(t, DateTotal) + 1
    ensures forall k :: TotalOn(Tally(t, e), k) == TotalOn(t, k) + (if DateKey(e) == k then 1 else 0)
  {
    var n := Get(t, DateKey(e)).GetOr(DateNode(0, []));
    PutSum(t, DateKey(e), AddToDate(n, e), DateTotal);
    PutGet(t, DateKey(e), AddToDate(n, e));
  }

  // ---------------------------------------------------------------------
  // The e-mail list
  // ---------------------------------------------------------------------

  datatype Message = Message(id: string, subject: string, sender: string)

  /** The JSON of a poll (`limit: 1`), or `None` when the request or its parsing threw. */
  datatype PollReply = PollReply(success: bool, messages: seq<Message>)

  /** A fetch (`limit: 10`): the reply's status and JSON, or a request that threw. */
  datatype FetchReply = FetchOk(ok: bool, messages: seq<Message>, source: Option<string>) | FetchThrew

  /** The view's list state. */
  datatype Inbox = Inbox(emails: seq<Message>, lastEmailId: Option<string>, currentSource: Option<string>)

  /** Whether a poll reports a new latest e-mail (and notifies). */
  predicate NewLatest(b: Inbox, reply: Option<PollReply>) {
    reply.Some? && reply.value.success && |reply.value.messages| > 0
    && Truthy(b.lastEmailId) && reply.value.messages[0].id != b.lastEmailId.value
  }

  /** `checkNewEmails` on the state `b`. */
  function Polled(b: Inbox, reply: Option<PollReply>): Inbox {
    if reply.Some? && reply.value.success && |reply.value.messages| > 0 then
      var latest := reply.value.messages[0];
      Inbox(if NewLatest(b, reply) then [latest] + b.emails else b.emails, Some(latest.id), b.currentSource)
    else b
  }

  /** `fetchEmails` on the state `b`; `email` and `password` are the form's fields. */
  function Fetched(b: Inbox, configured: bool, email: string, password: string, reply: FetchReply): Inbox {
    if !configured && (email == "" || password == "") then b
    else if reply.FetchThrew? || !reply.ok then b
    else Inbox(reply.messages, if |reply.messages| > 0 then Some(reply.messages[0].id) else b.lastEmailId, reply.source)
  }

  /**
   * A poll prepends its latest e-mail exactly when a latest id is known
   * and differs from it; a successful non-empty poll always records the
   * latest id; anything else changes nothing.
   */
  lemma PolledSpec(b: Inbox, reply: Option<PollReply>)
    ensures NewLatest(b, reply) ==> Polled(b, reply).emails == [reply.value.messages[0]] + b.emails
    ensures !NewLatest(b, reply) ==> Polled(b, reply).emails == b.emails
    ensures reply.Some? && reply.value.success && |reply.value.messages| > 0 ==>
              Polled(b, reply).lastEmailId == Some(reply.value.messages[0].id)
    ensures !(reply.Some? && reply.value.success && |reply.value.messages| > 0) ==> Polled(b, reply) == b
  {}

  /** The first poll after loading only records the latest id. */
  lemma FirstPollRecordsOnly(reply: Option<PollReply>)
    ensures Polled(Inbox([], None, None), reply).emails == []
  {}

  /** Polling twice with the same reply is polling once. */
  lemma PollIdempotent(b: Inbox, reply: Option<PollReply>)
    ensures Polled(Polled(b, reply), reply) == Polled(b, reply)
  {
    if reply.Some? && reply.value.success && |reply.value.messages| > 0 {
      assert !NewLatest(Polled(b, reply), reply);
    }
  }

  /** After a successful fetch, a poll that sees the same latest e-mail adds nothing. */
  lemma FetchThenPoll(b: Inbox, configured: bool, email: string, password: string,
                      msgs: seq<Message>, source: Option<string>, reply: PollReply)
    requires configured || (email != "" && password != "")
    requires |msgs| > 0 && reply.success && |reply.messages| > 0 && reply.messages[0].id == msgs[0].id
    ensures Polled(Fetched(b, configured, email, password, FetchOk(true, msgs, source)), Some(reply)).emails == msgs
  {
    assert !NewLatest(Fetched(b, configured, email, password, FetchOk(true, msgs, source)), Some(reply));
  }

  /** A failed fetch, or one stopped for missing credentials, leaves the list as it was. */
  lemma FetchFailureKeepsState(b: Inbox, configured: bool, email: string, password: string, reply: FetchReply)
    requires (!configured && (email == "" || password == "")) || reply.FetchThrew? || !reply.ok
    ensures Fetched(b, configured, email, password, reply) == b
  {}

  /** The view object's list, the latest id it has seen and the source of the last fetch. */
  class EmailList {
    var emails: seq<Message>
    var lastEmailId: Option<string>
    var currentSource: Option<string>

    function State(): Inbox
      reads this
    {
      Inbox(emails, lastEmailId, currentSource)
    }

    constructor()
      ensures State() == Inbox([], None, None)
    {
      emails := [];
      lastEmailId := None;
      currentSource := None;
    }

    /** `checkNewEmails`: `notified` says whether a notification is sent. */
    method CheckNewEmails(reply: Option<PollReply>) returns (notified: bool)
      modifies this
      ensures State() == Polled(old(State()), reply)
      ensures notified <==> NewLatest(old(State()), reply)
    {
      notified := false;
      if reply.Some? && reply.value.success && |reply.value.messages| > 0 {
        var latest := reply.value.messages[0];
        if Truthy(lastEmailId) && latest.id != lastEmailId.value {
          notified := true;
          emails := [latest] + emails;
        }
        lastEmailId := Some(latest.id);
      }
    }

    /** `fetchEmails` with the form's `email` and `password` fields. */
    method FetchEmails(configured: bool, email: string, password: string, reply: FetchReply)
      modifies this
      ensures State() == Fetched(old(State()), configured, email, password, reply)
    {
      if !configured && (email == "" || password == "") {
        return;
      }
      if reply.FetchThrew? || !reply.ok {
        return;
      }
      emails := reply.messages;
      currentSource := reply.source;
      if |emails| > 0 {
        lastEmailId := Some(emails[0].id);
      }
    }
  }
}
