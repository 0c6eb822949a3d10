/** The weekly-report helpers of `services/analytics/utils.py`: the count
    maps built from query rows, the conversation-metric totals, the status
    labels, the table-row formatters and the markdown sections. */
module AnalyticsUtils {
  import opened Results
  import opened Strings

  // ---------------------------------------------------------------------------
  // Count maps

  /** A query row reduced to what the count builders read: its key column
      (`status`, `label_name` or `name`) and its `count` column. */
  datatype Row = Row(key: string, count: int)

  /** The count of the last row whose key is `k`, or 0 when no row has it. */
  function LastCount(rows: seq<Row>, k: string): int {
    if rows == [] then 0
    else if rows[|rows| - 1].key == k then rows[|rows| - 1].count
    else LastCount(rows[..|rows| - 1], k)
  }

  /** The shared loop of the `process_*` count builders: start every known key
      at 0, then let each row whose key is known overwrite that key's count.
      Unknown keys are ignored and a repeated key keeps its last row's count. */
  method ProcessCounts(keys: seq<string>, rows: seq<Row>) returns (counts: map<string, int>)
    ensures counts.Keys == set k | k in keys
    ensures forall k :: k in counts ==> counts[k] == LastCount(rows, k)
  {
    counts := map k | k in keys :: 0;
    var i := 0;
    while i < |rows|
      invariant 0 <= i <= |rows|
      invariant counts.Keys == set k | k in keys
      invariant forall k :: k in counts ==> counts[k] == LastCount(rows[..i], k)
    {
      assert rows[..i + 1][..i] == rows[..i];
      if rows[i].key in counts {
        counts := counts[rows[i].key := rows[i].count];
      }
      i := i + 1;
    }
    assert rows[..i] == rows;
  }

  /** `LastCount` by position: 0 when no row carries the key, and otherwise
      the count of the row at the last position that does. */
  lemma {:induction false} LastCountAt(rows: seq<Row>, k: string, i: nat)
    requires i < |rows| && rows[i].key == k
    requires forall j :: i < j < |rows| ==> rows[j].key != k
    ensures LastCount(rows, k) == rows[i].count
    decreases |rows|
  {
    if i != |rows| - 1 {
      var init := rows[..|rows| - 1];
      assert init[i] == rows[i];
      LastCountAt(init, k, i);
    }
  }

  lemma {:induction false} LastCountAbsent(rows: seq<Row>, k: string)
    requires forall j :: 0 <= j < |rows| ==> rows[j].key != k
    ensures LastCount(rows, k) == 0
    decreases |rows|
  {
    if rows != [] {
      LastCountAbsent(rows[..|rows| - 1], k);
    }
  }

  /** A row for another key, wherever it is inserted, leaves `k`'s count
      unchanged; in particular rows with unknown keys never matter. */
  lemma {:induction false} LastCountIgnoresOthers(rows: seq<Row>, i: nat, other: Row, k: string)
    requires i <= |rows| && other.key != k
    ensures LastCount(rows[..i] + [other] + rows[i..], k) == LastCount(rows, k)
    decreases |rows|
  {
    var s := rows[..i] + [other] + rows[i..];
    if i == |rows| {
      assert s[..|s| - 1] == rows;
    } else {
      var init := rows[..|rows| - 1];
      assert s[|s| - 1] == rows[|rows| - 1];
      assert s[..|s| - 1] == init[..i] + [other] + init[i..];
      LastCountIgnoresOthers(init, i, other, k);
    }
  }

  /** The six property statuses of `process_lookup_history`. */
  const LookupStatuses: seq<string> :=
    ["REGISTERED", "UNREGISTERED", "TAX_DEBT", "NO_TAX_DEBT", "COMPLIANT", "FORECLOSED"]

  /** The seven conversation labels of `process_conversation_outcomes`. */
  const OutcomeLabels: seq<string> :=
    ["user satisfaction", "problem addressed", "unsatisfied", "accountability gap",
     "crisis averted", "future keyword", "source"]

  /** The five audience segments of `process_audience_segment_related_data`. */
  const Segments: seq<string> := ["Proactive", "Receptive", "Connected", "Passive", "Inactive"]

  /** `process_lookup_history`: rows keyed by `status`. */
  method ProcessLookupHistory(rows: seq<Row>) returns (counts: map<string, int>)
    ensures counts.Keys == {"REGISTERED", "UNREGISTERED", "TAX_DEBT", "NO_TAX_DEBT", "COMPLIANT", "FORECLOSED"}
    ensures forall k :: k in counts ==> counts[k] == LastCount(rows, k)
  {
    counts := ProcessCounts(LookupStatuses, rows);
  }

  /** `process_conversation_outcomes`: rows keyed by `label_name`. */
  method ProcessConversationOutcomes(rows: seq<Row>) returns (counts: map<string, int>)
    ensures counts.Keys == {"user satisfaction", "problem addressed", "unsatisfied", "accountability gap",
                            "crisis averted", "future keyword", "source"}
    ensures forall k :: k in counts ==> counts[k] == LastCount(rows, k)
  {
    counts := ProcessCounts(OutcomeLabels, rows);
  }

  /** `process_audience_segment_related_data`: rows keyed by `name`. */
  method ProcessAudienceSegment(rows: seq<Row>) returns (counts: map<string, int>)
    ensures counts.Keys == {"Proactive", "Receptive", "Connected", "Passive", "Inactive"}
    ensures forall k :: k in counts ==> counts[k] == LastCount(rows, k)
  {
    counts := ProcessCounts(Segments, rows);
  }

  // ---------------------------------------------------------------------------
  // Conversation metrics

  /** A single-row query result as `process_conversation_metrics` inspects it:
      a row that behaves as a dictionary, or anything else. */
  datatype Cell = DictCell(fields: map<string, int>) | OtherCell

  /** The query results `process_conversation_metrics` reads. Each multi-row
      result is a list of rows, each row a dictionary. */
  datatype FetchData = FetchData(
    broadcasts: Cell,
    textIns: Cell,
    failedDeliveries: Cell,
    unsubscribedMessages: seq<map<string, int>>,
    replies: seq<map<string, int>>,
    reportConversations: seq<map<string, int>>)

  /** The exception a missing `count` column raises. */
  const MissingCount: string := "KeyError: 'count'"

  /** The `count` of a non-empty dictionary row, and 0 for an empty one or a
      non-dictionary. */
  function CellCount(c: Cell): (r: Result<int, string>)
    ensures r.Err? <==> c.DictCell? && c.fields != map[] && "count" !in c.fields
    ensures r.Ok? && c.DictCell? && "count" in c.fields ==> r.value == c.fields["count"]
    ensures r.Ok? && !(c.DictCell? && "count" in c.fields) ==> r.value == 0
  {
    if c.DictCell? && c.fields != map[] then
      if "count" in c.fields then Ok(c.fields["count"]) else Err(MissingCount)
    else Ok(0)
  }

  /** Whether every row carries a `count` column. */
  predicate AllCounted(rows: seq<map<string, int>>) {
    forall i :: 0 <= i < |rows| ==> "count" in rows[i]
  }

  /** `sum(int(row["count"]) for row in rows)`, 0 for no rows. */
  function SumCounts(rows: seq<map<string, int>>): (r: Result<int, string>)
    ensures r.Ok? <==> AllCounted(rows)
  {
    if rows == [] then Ok(0)
    else if "count" !in rows[0] then Err(MissingCount)
    else
      var rest := SumCounts(rows[1..]);
      if rest.Err? then rest else Ok(rows[0]["count"] + rest.value)
  }

  /** The sum distributes over concatenation: it is the sum of the rows'
      counts, independent of how the rows are grouped. */
  lemma {:induction false} SumCountsAppend(a: seq<map<string, int>>, b: seq<map<string, int>>)
    requires AllCounted(a) && AllCounted(b)
    ensures SumCounts(a + b).Ok?
    ensures SumCounts(a + b).value == SumCounts(a).value + SumCounts(b).value
    decreases |a|
  {
    assert AllCounted(a + b);
    if a != [] {
      assert (a + b)[1..] == a[1..] + b;
      assert AllCounted(a[1..]);
      SumCountsAppend(a[1..], b);
    } else {
      assert a + b == b;
    }
  }

  /** The six keys of the conversation metrics. */
  const MetricKeys: set<string> :=
    {"conversation_starters_sent", "broadcast_replies", "text_ins",
     "reporter_conversations", "unsubscribes", "failed_deliveries"}

  /** `process_conversation_metrics`: the six totals of the week, keyed as the
      report and the weekly-report record read them. */
  function ProcessConversationMetrics(data: FetchData): (r: Result<map<string, int>, string>)
    ensures r.Ok? <==>
              CellCount(data.broadcasts).Ok? && CellCount(data.textIns).Ok?
              && CellCount(data.failedDeliveries).Ok?
              && AllCounted(data.unsubscribedMessages) && AllCounted(data.replies)
              && AllCounted(data.reportConversations)
    ensures r.Ok? ==> r.value.Keys == MetricKeys
    ensures r.Ok? ==>
              r.value["conversation_starters_sent"] == CellCount(data.broadcasts).value
              && r.value["text_ins"] == CellCount(data.textIns).value
              && r.value["failed_deliveries"] == CellCount(data.failedDeliveries).value
              && r.value["unsubscribes"] == SumCounts(data.unsubscribedMessages).value
              && r.value["broadcast_replies"] == SumCounts(data.replies).value
              && r.value["reporter_conversations"] == SumCounts(data.reportConversations).value
  {
    var broadcasts := CellCount(data.broadcasts);
    var textIns := CellCount(data.textIns);
    var failed := CellCount(data.failedDeliveries);
    var unsubscribes := SumCounts(data.unsubscribedMessages);
    var replies := SumCounts(data.replies);
    var reports := SumCounts(data.reportConversations);
    if broadcasts.Err? then Err(broadcasts.error)
    else if textIns.Err? then Err(textIns.error)
    else if failed.Err? then Err(failed.error)
    else if unsubscribes.Err? then Err(unsubscribes.error)
    else if replies.Err? then Err(replies.error)
    else if reports.Err? then Err(reports.error)
    else
      Ok(map[
        "conversation_starters_sent" := broadcasts.value,
        "broadcast_replies" := replies.value,
        "text_ins" := textIns.value,
        "reporter_conversations" := reports.value,
        "unsubscribes" := unsubscribes.value,
        "failed_deliveries" := failed.value])
  }

  /** With no rows and no dictionary results, every metric is 0. */
  lemma QuietWeek(data: FetchData)
    requires !data.broadcasts.DictCell? && !data.textIns.DictCell? && !data.failedDeliveries.DictCell?
    requires data.unsubscribedMessages == [] && data.replies == [] && data.reportConversations == []
    ensures ProcessConversationMetrics(data).Ok?
    ensures forall k :: k in ProcessConversationMetrics(data).value ==> ProcessConversationMetrics(data).value[k] == 0
  {
  }

  // ---------------------------------------------------------------------------
  // Status labels

  /** `str.capitalize()`: the first character upper-case, the rest lower-case. */
  function Capitalize(w: string): string {
    if w == [] then [] else [Upper(w[0])] + LowerStr(w[1..])
  }

  function CapitalizeAll(ws: seq<string>): (r: seq<string>)
    ensures |r| == |ws|
    ensures forall i :: 0 <= i < |ws| ==> r[i] == Capitalize(ws[i])
  {
    if ws == [] then [] else [Capitalize(ws[0])] + CapitalizeAll(ws[1..])
  }

  /** `to_pascal_case`: lower-case, split on `_`, capitalise each piece, and
      join the pieces with single spaces. */
  function ToPascalCase(s: string): string {
    JoinWith(" ", CapitalizeAll(SplitOn(LowerStr(s), '_')))
  }

  /** A character-by-character reading of `to_pascal_case`: every `_` becomes
      a space, a character at the start of a piece is upper-cased and every
      other character is lower-cased. `atStart` says whether `s` begins a piece. */
  function PascalFrom(s: string, atStart: bool): (r: string)
    ensures |r| == |s|
    ensures forall i :: 0 <= i < |s| && s[i] == '_' ==> r[i] == ' '
    ensures '_' !in r
  {
    if s == [] then []
    else if s[0] == '_' then [' '] + PascalFrom(s[1..], true)
    else [if atStart then Upper(s[0]) else Lower(s[0])] + PascalFrom(s[1..], false)
  }

  /** The case of each non-underscore character: upper at the start of the
      text and right after an underscore, lower everywhere else. */
  lemma {:induction false} PascalFromAt(s: string, atStart: bool, i: nat)
    requires i < |s| && s[i] != '_'
    ensures PascalFrom(s, atStart)[i] ==
              if (if i == 0 then atStart else s[i - 1] == '_') then Upper(s[i]) else Lower(s[i])
  {
    if i > 0 {
      PascalFromAt(s[1..], s[0] == '_', i - 1);
    }
  }

  /** The first piece of a split, capitalised when it starts the text and only
      lower-cased when it continues a piece. */
  function Head(p: string, atStart: bool): string {
    if atStart then Capitalize(p) else LowerStr(p)
  }

  lemma JoinWithConsChar(sep: string, c: char, p: string, qs: seq<string>)
    ensures JoinWith(sep, [[c] + p] + qs) == [c] + JoinWith(sep, [p] + qs)
  {
    assert ([[c] + p] + qs)[1..] == qs;
    assert ([p] + qs)[1..] == qs;
  }

  lemma LowerStrCons(c: char, t: string)
    ensures LowerStr([c] + t) == [Lower(c)] + LowerStr(t)
  {
  }

  /** The lower/split/capitalize/join reading of `to_pascal_case`, started in
      either state, agrees with the character-by-character one. */
  predicate PiecesAgree(s: string, atStart: bool) {
    var ps := SplitOn(LowerStr(s), '_');
    JoinWith(" ", [Head(ps[0], atStart)] + CapitalizeAll(ps[1..])) == PascalFrom(s, atStart)
  }

  lemma {:induction false} PascalPieces(s: string, atStart: bool)
    ensures PiecesAgree(s, atStart)
    decreases |s|
  {
    if s == [] {
      assert SplitOn(LowerStr(s), '_') == [""];
    } else {
      PascalPieces(s[1..], s[0] == '_');
      if s[0] == '_' {
        PiecesAfterSeparator(s, atStart);
      } else {
        PiecesAfterLetter(s, atStart);
      }
    }
  }

  lemma PiecesAfterSeparator(s: string, atStart: bool)
    requires s != [] && s[0] == '_' && PiecesAgree(s[1..], true)
    ensures PiecesAgree(s, atStart)
  {
    var t := LowerStr(s);
    var ps := SplitOn(t, '_');
    assert LowerStr(s[1..]) == t[1..];
    var rest := SplitOn(t[1..], '_');
    assert ps == [""] + rest;
    var caps := CapitalizeAll(rest);
    assert caps == [Head(rest[0], true)] + CapitalizeAll(rest[1..]);
    assert ([Head(ps[0], atStart)] + CapitalizeAll(ps[1..]))[1..] == caps;
  }

  lemma PiecesAfterLetter(s: string, atStart: bool)
    requires s != [] && s[0] != '_' && PiecesAgree(s[1..], false)
    ensures PiecesAgree(s, atStart)
  {
    var t := LowerStr(s);
    var ps := SplitOn(t, '_');
    assert LowerStr(s[1..]) == t[1..];
    var rest := SplitOn(t[1..], '_');
    assert ps == [[t[0]] + rest[0]] + rest[1..];
    var c := if atStart then Upper(s[0]) else Lower(s[0]);
    LowerStrCons(t[0], rest[0]);
    assert ([t[0]] + rest[0])[1..] == rest[0];
    assert Head(ps[0], atStart) == [c] + Head(rest[0], false);
    JoinWithConsChar(" ", c, Head(rest[0], false), CapitalizeAll(rest[1..]));
  }


  /** `to_pascal_case` agrees with the character-by-character reading, so it
      keeps the length, turns every `_` into a space and leaves no `_`. */
  lemma ToPascalCaseByChar(s: string)
    ensures ToPascalCase(s) == PascalFrom(s, true)
  {
    var ps := SplitOn(LowerStr(s), '_');
    assert CapitalizeAll(ps) == [Head(ps[0], true)] + CapitalizeAll(ps[1..]);
    PascalPieces(s, true);
  }

  /** `map_status`: `OK` reads as "No Tax Debt", any other status in title case. */
  function MapStatus(raw: string): (r: string)
    ensures raw == "OK" ==> r == "No Tax Debt"
    ensures raw != "OK" ==> r == PascalFrom(raw, true) && |r| == |raw|
  {
    if raw == "OK" then "No Tax Debt"
    else
      ToPascalCaseByChar(raw);
      ToPascalCase(raw)
  }

  // ---------------------------------------------------------------------------
  // Table-row formatters

  /** A counted label as the `format_*` helpers read a row: the label column
      and the count column (`metric[1]`/`metric[2]` for audience segments,
      `row[0]`/`row[1]` elsewhere). */
  datatype Tally = Tally(name: string, count: int)

  /** The shape of one `format_*` table: the text after the opening `"| "`
      and the widths the label and count cells are left-justified to. */
  datatype Layout = Layout(lead: string, nameWidth: nat, countWidth: nat)

  const SegmentLayout: Layout := Layout("- ", 28, 4)
  const ConversationLayout: Layout := Layout("- ", 28, 4)
  const LookupLayout: Layout := Layout("", 28, 5)
  const GeographicLayout: Layout := Layout("", 28, 4)

  function Max(a: nat, b: nat): nat {
    if a < b then b else a
  }

  /** One table row without its line break. */
  function RowText(layout: Layout, t: Tally): (r: string)
    ensures r != [] && r[0] == '|' && r[|r| - 1] == '|'
  {
    "| " + layout.lead + LJust(t.name, layout.nameWidth) + " | " + LJust(IntToString(t.count), layout.countWidth) + " |"
  }

  /** A row holds its name and count whole, each padded to at least its
      column's width and never truncated, between the cell separators. */
  lemma RowTextCells(layout: Layout, t: Tally)
    ensures var r := RowText(layout, t);
            var cnt := IntToString(t.count);
            var at := 2 + |layout.lead| + Max(|t.name|, layout.nameWidth) + 3;
            |r| == at + Max(|cnt|, layout.countWidth) + 2
            && r[2 + |layout.lead|..2 + |layout.lead| + |t.name|] == t.name
            && r[at..at + |cnt|] == cnt
  {
    RowTextName(layout, t);
    RowTextCount(layout, t);
  }

  lemma RowTextName(layout: Layout, t: Tally)
    ensures RowText(layout, t)[2 + |layout.lead|..2 + |layout.lead| + |t.name|] == t.name
  {
    var left := LJust(t.name, layout.nameWidth);
    var p := "| " + layout.lead;
    var q := " | " + LJust(IntToString(t.count), layout.countWidth) + " |";
    assert RowText(layout, t) == p + left + q;
    PrefixInside(p, left, q, t.name);
  }

  lemma RowTextCount(layout: Layout, t: Tally)
    ensures var r := RowText(layout, t);
            var cnt := IntToString(t.count);
            var at := 2 + |layout.lead| + Max(|t.name|, layout.nameWidth) + 3;
            |r| == at + Max(|cnt|, layout.countWidth) + 2
            && r[at..at + |cnt|] == cnt
  {
    var cnt := IntToString(t.count);
    var right := LJust(cnt, layout.countWidth);
    var pl := "| " + layout.lead + LJust(t.name, layout.nameWidth) + " | ";
    assert RowText(layout, t) == pl + right + " |";
    PrefixInside(pl, right, " |", cnt);
  }

  /** A prefix of the middle part sits right after the first part. */
  lemma PrefixInside(a: string, b: string, c: string, x: string)
    requires |x| <= |b| && b[..|x|] == x
    ensures (a + b + c)[|a|..|a| + |x|] == x
  {
    assert (a + b + c)[|a|..|a| + |b|] == b;
  }

  /** A row breaks a line only where its lead or its name does. */
  lemma RowTextOneLine(layout: Layout, t: Tally)
    requires '\n' !in layout.lead && '\n' !in t.name
    ensures '\n' !in RowText(layout, t)
  {
    IntToStringOneLine(t.count);
    var left := LJust(t.name, layout.nameWidth);
    var right := LJust(IntToString(t.count), layout.countWidth);
    forall k | 0 <= k < |left| ensures left[k] != '\n' {
      if k < |t.name| { assert left[k] == left[..|t.name|][k]; }
    }
    forall k | 0 <= k < |right| ensures right[k] != '\n' {
      if k < |IntToString(t.count)| { assert right[k] == right[..|IntToString(t.count)|][k]; }
    }
  }

  lemma IntToStringOneLine(n: int)
    ensures '\n' !in IntToString(n)
  {
    var s := IntToString(n);
    forall k | 0 <= k < |s| ensures s[k] != '\n' {
      assert IsDigit(s[k]) || s[k] == '-';
    }
  }

  function RowTexts(layout: Layout, ts: seq<Tally>): seq<string> {
    seq(|ts|, i requires 0 <= i < |ts| => RowText(layout, ts[i]))
  }

  /** The common ending of the `format_*` helpers: strip the accumulated rows
      and put back one line break, or give "" when there were no rows. */
  function FinishTable(acc: string): string {
    if acc == "" then "" else Strip(acc) + "\n"
  }

  lemma {:induction false} UnlinesSnoc(lines: seq<string>, x: string)
    ensures Unlines(lines + [x]) == Unlines(lines) + x + "\n"
    decreases |lines|
  {
    if lines == [] {
      assert Unlines([x]) == x + "\n" + Unlines([]);
    } else {
      assert (lines + [x])[1..] == lines[1..] + [x];
      UnlinesSnoc(lines[1..], x);
    }
  }

  /** Rows that begin and end with a non-space character survive the strip
      untouched: only the final line break is removed and put back. */
  lemma FinishRows(texts: seq<string>)
    requires forall i :: 0 <= i < |texts| ==> texts[i] != [] && texts[i][0] == '|'
    requires texts != [] ==> texts[|texts| - 1][|texts[|texts| - 1]| - 1] == '|'
    ensures FinishTable(Unlines(texts)) == Unlines(texts)
    ensures texts != [] ==> Strip(Unlines(texts)) != ""
  {
    if texts != [] {
      var n := |texts|;
      var init := texts[..n - 1];
      var core := Unlines(init) + texts[n - 1];
      assert texts == init + [texts[n - 1]];
      UnlinesSnoc(init, texts[n - 1]);
      assert core[|core| - 1] == '|';
      assert core[0] == '|' by {
        if n > 1 {
          assert Unlines(init)[0] == init[0][0];
        }
      }
      StripFramed(core, "\n");
    }
  }

  /** The shared body of the `format_*` helpers: one row per tally, each row
      `"| "` + lead + label cell + `" | "` + count cell + `" |"` and a line
      break, for tallies in input order, and "" for no tallies. */
  function FormatRows(layout: Layout, ts: seq<Tally>): (r: string)
    ensures r == Unlines(RowTexts(layout, ts))
    ensures r == "" <==> ts == []
  {
    var texts := RowTexts(layout, ts);
    FinishRows(texts);
    FinishTable(Unlines(texts))
  }

  /** Without line breaks in the labels, the table splits back into exactly
      its rows, one per tally. */
  lemma FormatRowsLines(layout: Layout, ts: seq<Tally>)
    requires '\n' !in layout.lead
    requires forall i :: 0 <= i < |ts| ==> '\n' !in ts[i].name
    ensures SplitOn(FormatRows(layout, ts), '\n') == RowTexts(layout, ts) + [""]
  {
    forall i | 0 <= i < |ts| ensures '\n' !in RowTexts(layout, ts)[i] {
      RowTextOneLine(layout, ts[i]);
    }
    SplitOfUnlines(RowTexts(layout, ts));
  }

  /** `format_metric_by_audience_segment`. */
  function FormatMetricByAudienceSegment(metrics: seq<Tally>): (r: string)
    ensures r == Unlines(RowTexts(SegmentLayout, metrics))
    ensures r == "" <==> metrics == []
  {
    FormatRows(SegmentLayout, metrics)
  }

  /** `format_conversation_for_report`. */
  function FormatConversationForReport(conversations: seq<Tally>): (r: string)
    ensures r == Unlines(RowTexts(ConversationLayout, conversations))
    ensures r == "" <==> conversations == []
  {
    FormatRows(ConversationLayout, conversations)
  }

  /** The status column of `format_lookup_history` after `map_status`. */
  function MapStatuses(metrics: seq<Tally>): (r: seq<Tally>)
    ensures |r| == |metrics|
    ensures forall i :: 0 <= i < |metrics| ==> r[i] == Tally(MapStatus(metrics[i].name), metrics[i].count)
  {
    if metrics == [] then []
    else [Tally(MapStatus(metrics[0].name), metrics[0].count)] + MapStatuses(metrics[1..])
  }

  /** `format_lookup_history`: statuses are shown through `map_status`. */
  function FormatLookupHistory(metrics: seq<Tally>): (r: string)
    ensures r == Unlines(RowTexts(LookupLayout, MapStatuses(metrics)))
    ensures r == "" <==> metrics == []
  {
    FormatRows(LookupLayout, MapStatuses(metrics))
  }

  /** `format_geographic_regions`. */
  function FormatGeographicRegions(zipcodes: seq<Tally>): (r: string)
    ensures r == Unlines(RowTexts(GeographicLayout, zipcodes))
    ensures r == "" <==> zipcodes == []
  {
    FormatRows(GeographicLayout, zipcodes)
  }

  const GeographicHeader: seq<string> :=
    ["### Data Lookups by Geographic Regions (Top 5 ZIP Codes)",
     "| **ZIP Code** | **Count** |",
     "|--------------|-------|"]

  /** The ZIP table is blank exactly when there are no ZIP codes. */
  lemma GeographicBlank(zipcodes: seq<Tally>)
    ensures Strip(FormatGeographicRegions(zipcodes)) != "" <==> zipcodes != []
  {
    FinishRows(RowTexts(GeographicLayout, zipcodes));
    if zipcodes == [] {
      assert FormatGeographicRegions(zipcodes) == "";
    }
  }

  /** `generate_geographic_region_markdown`: the fixed three-line header and
      the ZIP-code rows, or "" when there are no ZIP codes. */
  function GenerateGeographicRegionMarkdown(zipcodes: seq<Tally>): (r: string)
    ensures r == "" <==> zipcodes == []
    ensures zipcodes != [] ==> r == Unlines(GeographicHeader) + Unlines(RowTexts(GeographicLayout, zipcodes))
  {
    var section := FormatGeographicRegions(zipcodes);
    GeographicBlank(zipcodes);
    if Strip(section) != "" then Unlines(GeographicHeader) + section else ""
  }

  // ---------------------------------------------------------------------------
  // Fixed-shape sections

  /** A data row of a fixed section: the text before the count, the key the
      count is read from, and the text after it. */
  datatype FixedRow = FixedRow(prefix: string, key: string, suffix: string)

  /** The rows of a fixed section, or the `KeyError` of a missing key. */
  function RenderRows(rows: seq<FixedRow>, counts: map<string, int>): (r: Result<seq<string>, string>)
    ensures r.Ok? <==> forall i :: 0 <= i < |rows| ==> rows[i].key in counts
    ensures r.Ok? ==> |r.value| == |rows|
    ensures r.Ok? ==> forall i :: 0 <= i < |rows| ==>
              r.value[i] == rows[i].prefix + IntToString(counts[rows[i].key]) + rows[i].suffix
  {
    if rows == [] then Ok([])
    else if rows[0].key !in counts then Err("KeyError: " + rows[0].key)
    else
      var rest := RenderRows(rows[1..], counts);
      if rest.Err? then rest
      else Ok([rows[0].prefix + IntToString(counts[rows[0].key]) + rows[0].suffix] + rest.value)
  }

  /** Every row's count filled in between its prefix and suffix. */
  function Filled(rows: seq<FixedRow>, counts: map<string, int>): (lines: seq<string>)
    requires forall i :: 0 <= i < |rows| ==> rows[i].key in counts
  {
    seq(|rows|, i requires 0 <= i < |rows| => rows[i].prefix + IntToString(counts[rows[i].key]) + rows[i].suffix)
  }

  /** A fixed section: its header lines, then one line per row, or the
      `KeyError` of a missing key. */
  function FixedSection(header: seq<string>, rows: seq<FixedRow>, counts: map<string, int>): (r: Result<string, string>)
    ensures r.Ok? <==> forall i :: 0 <= i < |rows| ==> rows[i].key in counts
    ensures r.Ok? ==> r.value == Unlines(header + Filled(rows, counts))
  {
    var lines := RenderRows(rows, counts);
    if lines.Err? then Err(lines.error)
    else
      assert lines.value == Filled(rows, counts);
      Ok(Unlines(header + lines.value))
  }

  predicate NoLineBreaks(lines: seq<string>) {
    forall i :: 0 <= i < |lines| ==> '\n' !in lines[i]
  }

  predicate RowsWithoutLineBreaks(rows: seq<FixedRow>) {
    forall i :: 0 <= i < |rows| ==> '\n' !in rows[i].prefix && '\n' !in rows[i].suffix
  }

  /** A fixed section splits back into its header and one line per row, in
      the listed order, when its text carries no line breaks of its own. */
  lemma FixedSectionLines(header: seq<string>, rows: seq<FixedRow>, counts: map<string, int>)
    requires NoLineBreaks(header) && RowsWithoutLineBreaks(rows)
    ensures FixedSection(header, rows, counts).Ok? <==> forall i :: 0 <= i < |rows| ==> rows[i].key in counts
    ensures FixedSection(header, rows, counts).Ok? ==>
              var lines := SplitOn(FixedSection(header, rows, counts).value, '\n');
              |lines| == |header| + |rows| + 1
              && lines[..|header|] == header
              && lines[|lines| - 1] == ""
              && forall i :: 0 <= i < |rows| ==>
                   lines[|header| + i] == rows[i].prefix + IntToString(counts[rows[i].key]) + rows[i].suffix
  {
    if forall i :: 0 <= i < |rows| ==> rows[i].key in counts {
      var filled := Filled(rows, counts);
      FilledOneLine(header, rows, counts);
      SplitOfUnlines(header + filled);
      var lines := (header + filled) + [""];
      assert lines[..|header|] == header;
      forall i | 0 <= i < |rows|
        ensures lines[|header| + i] == rows[i].prefix + IntToString(counts[rows[i].key]) + rows[i].suffix
      {
        assert lines[|header| + i] == filled[i];
      }
    }
  }

  lemma FilledOneLine(header: seq<string>, rows: seq<FixedRow>, counts: map<string, int>)
    requires NoLineBreaks(header) && RowsWithoutLineBreaks(rows)
    requires forall i :: 0 <= i < |rows| ==> rows[i].key in counts
    ensures forall i :: 0 <= i < |header + Filled(rows, counts)| ==> '\n' !in (header + Filled(rows, counts))[i]
  {
    var all := header + Filled(rows, counts);
    forall i | 0 <= i < |all|
      ensures '\n' !in all[i]
    {
      if i >= |header| {
        assert all[i] == Filled(rows, counts)[i - |header|];
        IntToStringOneLine(counts[rows[i - |header|].key]);
      } else {
        assert all[i] == header[i];
      }
    }
  }

  const LookupHeader: seq<string> :=
    ["### Data Lookups by Property Status",
     "| Status                         | Count |",
     "|------------------------------- |-------|"]

  const LookupRows: seq<FixedRow> :=
    [FixedRow("| Registered             | ", "REGISTERED", " |"),
     FixedRow("| Unregistered            | ", "UNREGISTERED", "  |"),
     FixedRow("| Tax Debt                | ", "TAX_DEBT", " |"),
     FixedRow("| No Tax Debt            | ", "NO_TAX_DEBT", " |"),
     FixedRow("| Compliant               | ", "COMPLIANT", " |"),
     FixedRow("| Foreclosed              | ", "FORECLOSED", " |")]

  /** `generate_lookup_history_markdown`: the three header lines, then one line per status in the
      listed order, or the `KeyError` of a missing key. */
  function GenerateLookupHistoryMarkdown(counts: map<string, int>): (r: Result<string, string>)
    ensures r.Ok? <==> forall i :: 0 <= i < |LookupRows| ==> LookupRows[i].key in counts
    ensures counts.Keys == (set k | k in LookupStatuses) ==> r.Ok?
    ensures r.Ok? ==> r.value == Unlines(LookupHeader + Filled(LookupRows, counts))
  {
    FixedSection(LookupHeader, LookupRows, counts)
  }

  const OutcomesHeader: seq<string> :=
    ["### Conversation Outcomes",
     "| Outcome                         | Count |",
     "|-------------------------------  |-------|"]

  const OutcomesRows: seq<FixedRow> :=
    [FixedRow("| User Satisfaction             | ", "user satisfaction", " |"),
     FixedRow("| Problem Addressed             | ", "problem addressed", "  |"),
     FixedRow("| Crisis Averted                | ", "crisis averted", " |"),
     FixedRow("| Accountability Gap            | ", "accountability gap", " |"),
     FixedRow("| Source                        | ", "source", " |"),
     FixedRow("| Unsatisfied                    | ", "unsatisfied", " |"),
     FixedRow("| Future Keyword                | ", "future keyword", " |")]

  /** `generate_conversation_outcomes_markdown`: the three header lines, then one line per outcome in the
      listed order, or the `KeyError` of a missing key. */
  function GenerateConversationOutcomesMarkdown(counts: map<string, int>): (r: Result<string, string>)
    ensures r.Ok? <==> forall i :: 0 <= i < |OutcomesRows| ==> OutcomesRows[i].key in counts
    ensures counts.Keys == (set k | k in OutcomeLabels) ==> r.Ok?
    ensures r.Ok? ==> r.value == Unlines(OutcomesHeader + Filled(OutcomesRows, counts))
  {
    FixedSection(OutcomesHeader, OutcomesRows, counts)
  }

  const SegmentHeader: seq<string> :=
    ["### Broadcast Replies by Audience Segment",
     "| Segment                         | Count |",
     "|-------------------------------  |-------|"]

  const SegmentRows: seq<FixedRow> :=
    [FixedRow("| Proactive              | ", "Proactive", " |"),
     FixedRow("| Receptive             | ", "Receptive", "  |"),
     FixedRow("| Connected                | ", "Connected", " |"),
     FixedRow("| Passive            | ", "Passive", " |"),
     FixedRow("| Inactive                        | ", "Inactive", " |")]

  /** `generate_data_by_audience_segment_markdown`: the three header lines, then one line per segment in the
      listed order, or the `KeyError` of a missing key. */
  function GenerateDataByAudienceSegmentMarkdown(counts: map<string, int>): (r: Result<string, string>)
    ensures r.Ok? <==> forall i :: 0 <= i < |SegmentRows| ==> SegmentRows[i].key in counts
    ensures counts.Keys == (set k | k in Segments) ==> r.Ok?
    ensures r.Ok? ==> r.value == Unlines(SegmentHeader + Filled(SegmentRows, counts))
  {
    FixedSection(SegmentHeader, SegmentRows, counts)
  }

  const MetricsHeader: seq<string> :=
    ["### Conversation Metrics",
     "| Metric                         | Count |",
     "|------------------------------- |-------|"]

  const MetricsRows: seq<FixedRow> :=
    [FixedRow("| Conversation Starters Sent     | ", "conversation_starters_sent", " |"),
     FixedRow("| Broadcast replies              | ", "broadcast_replies", "  |"),
     FixedRow("| Text-ins                       | ", "text_ins", " |"),
     FixedRow("| Reporter conversations         | ", "reporter_conversations", " |"),
     FixedRow("| Failed Deliveries              | ", "failed_deliveries", " |"),
     FixedRow("| Unsubscribes                   | ", "unsubscribes", " |")]

  /** `generate_conversation_metrics_section`: the three header lines, then one line per metric in the
      listed order, or the `KeyError` of a missing key. */
  function GenerateConversationMetricsSection(counts: map<string, int>): (r: Result<string, string>)
    ensures r.Ok? <==> forall i :: 0 <= i < |MetricsRows| ==> MetricsRows[i].key in counts
    ensures counts.Keys == MetricKeys ==> r.Ok?
    ensures r.Ok? ==> r.value == Unlines(MetricsHeader + Filled(MetricsRows, counts))
  {
    FixedSection(MetricsHeader, MetricsRows, counts)
  }

  const ThemeLines: seq<string> :=
    ["## Summary of Major Themes/Topics",
     "- **User Satisfaction**: Significant number of users expressed satisfaction with the resources provided.",
     "- **Problem Addressed**: Numerous reports of problems addressed successfully.",
     "- **Crisis Averted**: Notable increase in crisis averted scenarios.",
     "- **Property Status Inquiries**: Frequent inquiries about property status, particularly regarding tax debt and compliance issues.",
     "- **Accountability Initiatives**: Positive feedback on accountability initiatives, with some users highlighting persistent issues."]

  /** `generate_major_themes_section`: a fixed text of a heading and five themes. */
  const MajorThemesSection: string := Unlines(ThemeLines)

  const IntroPrefix: string := "# Weekly Summary Report ("

  /** `generate_intro_section` for the formatted date of the report, which is
      a parameter here: the title with the date in parentheses and no line
      break. */
  function GenerateIntroSection(reportDate: string): (r: string)
    ensures StartsWith(r, IntroPrefix) && r[|r| - 1] == ')'
    ensures r[|IntroPrefix|..|r| - 1] == reportDate
    ensures '\n' !in reportDate ==> '\n' !in r
  {
    IntroPrefix + reportDate + ")"
  }
}
