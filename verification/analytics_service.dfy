/** The pure fragments of `services/analytics/service.py`: the bind
    parameters and grouping of `get_weekly_messages_history`, the section
    order of `send_weekly_report`, and the totals of `insert_weekly_report`. */
module AnalyticsService {
  import opened Results
  import opened Strings
  import AnalyticsUtils

  // ---------------------------------------------------------------------------
  // Weekly messages history: bind parameters

  /** A sent broadcast as the history query reads it. */
  datatype Broadcast = Broadcast(firstMessage: string, secondMessage: string)

  /** Both messages of every broadcast, the first before the second,
      broadcasts in order. */
  function BroadcastMessages(broadcasts: seq<Broadcast>): (ms: seq<string>)
    ensures |ms| == 2 * |broadcasts|
    ensures forall i :: 0 <= i < |broadcasts| ==>
              ms[2 * i] == broadcasts[i].firstMessage && ms[2 * i + 1] == broadcasts[i].secondMessage
  {
    if broadcasts == [] then []
    else [broadcasts[0].firstMessage, broadcasts[0].secondMessage] + BroadcastMessages(broadcasts[1..])
  }

  /** The bind-parameter names `$1` … `$n`. */
  function PlaceholderNames(n: nat): (names: seq<string>)
    ensures |names| == n
  {
    seq(n, i requires 0 <= i < n => "$" + NatToString(i + 1))
  }

  /** The placeholder list of the `NOT IN (...)` clause: the names joined by
      `", "`. */
  function Placeholders(n: nat): (r: string)
    ensures r == "" <==> n == 0
  {
    JoinWith(", ", PlaceholderNames(n))
  }

  /** Whether `key` is the decimal text of a number. */
  predicate IsNumeral(key: string) {
    forall k :: 0 <= k < |key| ==> IsDigit(key[k])
  }

  /** The bind parameters: the key `str(k)` holds the k-th message. */
  function Params(messages: seq<string>): (params: map<string, string>)
    ensures forall k: nat :: 1 <= k <= |messages| ==>
              NatToString(k) in params && params[NatToString(k)] == messages[k - 1]
    ensures forall key :: key in params ==>
              IsNumeral(key) && 1 <= ParseNat(key) <= |messages| && key == NatToString(ParseNat(key))
  {
    NumeralsDecode();
    map k: nat | 1 <= k <= |messages| :: NatToString(k) := messages[k - 1]
  }

  /** The placeholder list and the bind parameters built from the week's
      broadcasts. */
  function HistoryBindings(broadcasts: seq<Broadcast>): (r: (string, map<string, string>))
    ensures r.0 == "" <==> broadcasts == []
    ensures forall i :: 0 <= i < |broadcasts| ==>
              NatToString(2 * i + 1) in r.1 && r.1[NatToString(2 * i + 1)] == broadcasts[i].firstMessage
              && NatToString(2 * i + 2) in r.1 && r.1[NatToString(2 * i + 2)] == broadcasts[i].secondMessage
  {
    var messages := BroadcastMessages(broadcasts);
    (Placeholders(|messages|), Params(messages))
  }

  /** A string-level correspondence between the two structures the query is
      built from: the k-th placeholder is `$k`, the key "k" of the parameter map
      holds the k-th message, and every key has its placeholder. Whether the
      database driver actually binds `$k` to the key "k" is outside this model. */
  lemma PlaceholdersBindParams(messages: seq<string>)
    ensures var names := PlaceholderNames(|messages|);
            var params := Params(messages);
            (forall i :: 0 <= i < |messages| ==>
               names[i][0] == '$' && names[i][1..] in params && params[names[i][1..]] == messages[i])
            && (forall key :: key in params ==> names[ParseNat(key) - 1] == "$" + key)
  {
    var names := PlaceholderNames(|messages|);
    forall i | 0 <= i < |messages|
      ensures names[i][1..] == NatToString(i + 1)
    {
      assert names[i] == "$" + NatToString(i + 1);
    }
  }

  /** `", ".join(names)` read as a comma-separated list: after a first
      piece, each further piece is the name behind one space. */
  lemma {:induction false} JoinCommaSpace(names: seq<string>)
    requires |names| >= 1
    ensures JoinWith(", ", names) == JoinWith(",", CommaPieces(names))
    decreases |names|
  {
    if |names| > 1 {
      JoinCommaSpace(names[1..]);
      var tail := SpaceEach(names[2..]);
      assert SpaceEach(names[1..]) == [" " + names[1]] + tail;
      assert ([names[0]] + SpaceEach(names[1..]))[1..] == [" " + names[1]] + tail;
      assert ([" " + names[1]] + tail)[1..] == tail;
      assert names[1..][1..] == names[2..];
      if tail == [] {
        assert JoinWith(",", [" " + names[1]] + tail) == " " + names[1];
      } else {
        assert JoinWith(",", [" " + names[1]] + tail) == " " + names[1] + "," + JoinWith(",", tail);
      }
    }
  }

  function SpaceEach(names: seq<string>): (r: seq<string>)
    ensures |r| == |names|
    ensures forall i :: 0 <= i < |names| ==> r[i] == " " + names[i]
  {
    if names == [] then [] else [" " + names[0]] + SpaceEach(names[1..])
  }

  /** The placeholder list splits on its commas into `$1`, ` $2`, …, ` $n`. */
  lemma PlaceholdersSplit(n: nat)
    requires n > 0
    ensures var pieces := SplitOn(Placeholders(n), ',');
            |pieces| == n && pieces[0] == "$1"
            && forall i :: 1 <= i < n ==> pieces[i] == " $" + NatToString(i + 1)
  {
    var names := PlaceholderNames(n);
    var parts := CommaPieces(names);
    PlaceholderPieces(n);
    assert parts[0] == "$" + NatToString(1);
    forall i | 1 <= i < n
      ensures parts[i] == " $" + NatToString(i + 1)
    {
      assert parts[i] == " " + names[i];
      assert names[i] == "$" + NatToString(i + 1);
    }
  }

  /** The pieces a comma split of `", ".join(names)` should give. */
  function CommaPieces(names: seq<string>): (parts: seq<string>)
    requires |names| >= 1
    ensures |parts| == |names|
  {
    [names[0]] + SpaceEach(names[1..])
  }

  lemma PlaceholderPieces(n: nat)
    requires n > 0
    ensures SplitOn(Placeholders(n), ',') == CommaPieces(PlaceholderNames(n))
  {
    var names := PlaceholderNames(n);
    JoinCommaSpace(names);
    var parts := CommaPieces(names);
    forall i | 0 <= i < |parts|
      ensures ',' !in parts[i]
    {
      NameWithoutComma(i + 1);
      assert names[i] == "$" + NatToString(i + 1);
      if i > 0 {
        assert parts[i] == " " + names[i];
        assert " " + ("$" + NatToString(i + 1)) == " $" + NatToString(i + 1);
      }
    }
    SplitOfJoin(parts, ',');
  }

  lemma NameWithoutComma(k: nat)
    ensures ',' !in "$" + NatToString(k) && ',' !in " $" + NatToString(k)
  {
    var digits := NatToString(k);
    forall j | 0 <= j < |digits|
      ensures digits[j] != ','
    {
      assert IsDigit(digits[j]);
    }
  }

  // ---------------------------------------------------------------------------
  // Weekly messages history: grouping

  /** A fetched message as the grouping reads it. */
  datatype Message = Message(references: string, preview: string)

  /** `grouped_messages[refs].append(preview)` for every message in order,
      starting from an empty `defaultdict(list)`. */
  function GroupByReferences(messages: seq<Message>): (groups: map<string, seq<string>>)
    ensures groups.Keys == set i | 0 <= i < |messages| :: messages[i].references
  {
    if messages == [] then map[]
    else
      var groups := GroupByReferences(messages[..|messages| - 1]);
      var m := messages[|messages| - 1];
      var before := if m.references in groups then groups[m.references] else [];
      assert forall i :: 0 <= i < |messages| - 1 ==> messages[..|messages| - 1][i] == messages[i];
      groups[m.references := before + [m.preview]]
  }

  /** The previews of the messages with references `refs`, in message order. */
  function PreviewsOf(messages: seq<Message>, refs: string): (ps: seq<string>)
    ensures |ps| <= |messages|
  {
    if messages == [] then []
    else (if messages[0].references == refs then [messages[0].preview] else []) + PreviewsOf(messages[1..], refs)
  }

  lemma {:induction false} PreviewsOfSnoc(messages: seq<Message>, m: Message, refs: string)
    ensures PreviewsOf(messages + [m], refs)
            == PreviewsOf(messages, refs) + (if m.references == refs then [m.preview] else [])
    decreases |messages|
  {
    if messages == [] {
      assert [m][1..] == [];
    } else {
      var x, rest := messages[0], messages[1..];
      assert messages == [x] + rest;
      assert messages + [m] == [x] + (rest + [m]);
      PreviewsOfCons(x, rest + [m], refs);
      PreviewsOfCons(x, rest, refs);
      PreviewsOfSnoc(rest, m, refs);
    }
  }

  lemma PreviewsOfCons(x: Message, rest: seq<Message>, refs: string)
    ensures PreviewsOf([x] + rest, refs) == (if x.references == refs then [x.preview] else []) + PreviewsOf(rest, refs)
  {
    assert ([x] + rest)[1..] == rest;
  }

  /** Each group holds exactly the previews of its messages, in the order the
      messages arrived. */
  lemma {:induction false} GroupsArePreviews(messages: seq<Message>, refs: string)
    requires refs in GroupByReferences(messages)
    ensures GroupByReferences(messages)[refs] == PreviewsOf(messages, refs)
    decreases |messages|
  {
    var n := |messages|;
    var init := messages[..n - 1];
    var m := messages[n - 1];
    assert messages == init + [m];
    PreviewsOfSnoc(init, m, refs);
    if refs in GroupByReferences(init) {
      GroupsArePreviews(init, refs);
    } else {
      PreviewsAbsent(init, refs);
    }
  }

  lemma {:induction false} PreviewsAbsent(messages: seq<Message>, refs: string)
    requires refs !in GroupByReferences(messages)
    ensures PreviewsOf(messages, refs) == []
    decreases |messages|
  {
    if messages != [] {
      assert messages[0].references != refs by {
        assert messages[0].references in GroupByReferences(messages);
      }
      forall i | 0 <= i < |messages| - 1
        ensures messages[1..][i].references != refs
      {
        assert messages[1..][i] == messages[i + 1];
        assert messages[i + 1].references in GroupByReferences(messages);
      }
      PreviewsAbsent(messages[1..], refs);
    }
  }

  /** The number of previews filed under each of `keys`. */
  function TotalPreviews(messages: seq<Message>, keys: seq<string>): nat {
    if keys == [] then 0 else |PreviewsOf(messages, keys[0])| + TotalPreviews(messages, keys[1..])
  }

  /** How many of `keys` equal `refs`. */
  function Occurrences(keys: seq<string>, refs: string): nat {
    if keys == [] then 0 else (if keys[0] == refs then 1 else 0) + Occurrences(keys[1..], refs)
  }

  lemma {:induction false} TotalPreviewsCons(m: Message, rest: seq<Message>, keys: seq<string>)
    ensures TotalPreviews([m] + rest, keys) == Occurrences(keys, m.references) + TotalPreviews(rest, keys)
    decreases |keys|
  {
    assert ([m] + rest)[1..] == rest;
    if keys != [] {
      TotalPreviewsCons(m, rest, keys[1..]);
    }
  }

  lemma {:induction false} OccursOnce(keys: seq<string>, refs: string, k: nat)
    requires k < |keys| && keys[k] == refs
    requires forall i, j :: 0 <= i < j < |keys| ==> keys[i] != keys[j]
    ensures Occurrences(keys, refs) == 1
    decreases |keys|
  {
    if k == 0 {
      NeverOccurs(keys[1..], refs);
    } else {
      OccursOnce(keys[1..], refs, k - 1);
    }
  }

  lemma {:induction false} NeverOccurs(keys: seq<string>, refs: string)
    requires forall i :: 0 <= i < |keys| ==> keys[i] != refs
    ensures Occurrences(keys, refs) == 0
    decreases |keys|
  {
    if keys != [] {
      NeverOccurs(keys[1..], refs);
    }
  }

  /** Listing every reference once, the previews filed under them add up to
      one per message: grouping neither drops nor duplicates a message. */
  lemma {:induction false} GroupingKeepsEveryMessage(messages: seq<Message>, keys: seq<string>)
    requires forall i, j :: 0 <= i < j < |keys| ==> keys[i] != keys[j]
    requires forall i :: 0 <= i < |messages| ==> messages[i].references in keys
    ensures TotalPreviews(messages, keys) == |messages|
    decreases |messages|
  {
    if messages == [] {
      EmptyTotal(keys);
    } else {
      var m := messages[0];
      assert messages == [m] + messages[1..];
      TotalPreviewsCons(m, messages[1..], keys);
      var k :| 0 <= k < |keys| && keys[k] == m.references;
      OccursOnce(keys, m.references, k);
      forall i | 0 <= i < |messages| - 1
        ensures messages[1..][i].references in keys
      {
        assert messages[1..][i] == messages[i + 1];
      }
      GroupingKeepsEveryMessage(messages[1..], keys);
    }
  }

  lemma {:induction false} EmptyTotal(keys: seq<string>)
    ensures TotalPreviews([], keys) == 0
    decreases |keys|
  {
    if keys != [] {
      EmptyTotal(keys[1..]);
    }
  }

  /** The sizes of the groups, summed over `keys`. */
  function GroupSizes(groups: map<string, seq<string>>, keys: seq<string>): nat {
    if keys == [] then 0
    else (if keys[0] in groups then |groups[keys[0]]| else 0) + GroupSizes(groups, keys[1..])
  }

  /** Listing every group once, the group sizes add up to the number of
      messages. */
  lemma GroupTotal(messages: seq<Message>, keys: seq<string>)
    requires forall i, j :: 0 <= i < j < |keys| ==> keys[i] != keys[j]
    requires forall i :: 0 <= i < |messages| ==> messages[i].references in keys
    ensures GroupSizes(GroupByReferences(messages), keys) == |messages|
  {
    SizesArePreviews(messages, keys);
    GroupingKeepsEveryMessage(messages, keys);
  }

  lemma {:induction false} SizesArePreviews(messages: seq<Message>, keys: seq<string>)
    ensures GroupSizes(GroupByReferences(messages), keys) == TotalPreviews(messages, keys)
    decreases |keys|
  {
    if keys != [] {
      if keys[0] in GroupByReferences(messages) {
        GroupsArePreviews(messages, keys[0]);
      } else {
        PreviewsAbsent(messages, keys[0]);
      }
      SizesArePreviews(messages, keys[1..]);
    }
  }

  // ---------------------------------------------------------------------------
  // Report assembly

  /** The non-empty sections among `sections`, in their order. */
  function NonEmpty(sections: seq<string>): (r: seq<string>)
    ensures |r| <= |sections|
    ensures forall i :: 0 <= i < |r| ==> r[i] != ""
  {
    if sections == [] then []
    else Optional(sections[0]) + NonEmpty(sections[1..])
  }

  /** A section to append: nothing when it is empty. */
  function Optional(section: string): seq<string> {
    if section != "" then [section] else []
  }

  /** `if section: report.append(section)` for each section in turn. */
  function AppendPresent(report: seq<string>, sections: seq<string>): seq<string>
    decreases |sections|
  {
    if sections == [] then report
    else
      var next := if sections[0] != "" then report + [sections[0]] else report;
      AppendPresent(next, sections[1..])
  }

  /** Appending section by section keeps what was there and adds the
      non-empty sections in their order. */
  lemma {:induction false} AppendPresentKeeps(report: seq<string>, sections: seq<string>)
    ensures AppendPresent(report, sections) == report + NonEmpty(sections)
    decreases |sections|
  {
    if sections != [] {
      var next := if sections[0] != "" then report + [sections[0]] else report;
      assert next == report + Optional(sections[0]);
      AppendPresentKeeps(next, sections[1..]);
      assert report + Optional(sections[0]) + NonEmpty(sections[1..])
             == report + (Optional(sections[0]) + NonEmpty(sections[1..]));
    }
  }

  /** The section list of `send_weekly_report`: the title, the themes and the
      conversation metrics always, then each optional section that is not
      empty, appended one after the other. */
  function AssembleReport(
    intro: string, majorThemes: string, conversationMetrics: string,
    lookupHistory: string, zipCodes: string, conversationOutcomes: string,
    repliesBySegment: string, unsubscribesBySegment: string
  ): (report: seq<string>)
    ensures |report| >= 3 && report[..3] == [intro, majorThemes, conversationMetrics]
    ensures report[3..] == NonEmpty([lookupHistory, zipCodes, conversationOutcomes,
                                     repliesBySegment, unsubscribesBySegment])
  {
    var optional := [lookupHistory, zipCodes, conversationOutcomes, repliesBySegment, unsubscribesBySegment];
    AppendPresentKeeps([intro, majorThemes, conversationMetrics], optional);
    AppendPresent([intro, majorThemes, conversationMetrics], optional)
  }

  /** The report holds between three and eight sections: one more for each
      optional section that is not empty. */
  lemma ReportSize(
    intro: string, majorThemes: string, conversationMetrics: string,
    lookupHistory: string, zipCodes: string, conversationOutcomes: string,
    repliesBySegment: string, unsubscribesBySegment: string)
    ensures var report := AssembleReport(intro, majorThemes, conversationMetrics, lookupHistory, zipCodes,
                                         conversationOutcomes, repliesBySegment, unsubscribesBySegment);
            |report| == 3 + Presence([lookupHistory, zipCodes, conversationOutcomes,
                                      repliesBySegment, unsubscribesBySegment])
            && 3 <= |report| <= 8
  {
    NonEmptyCount([lookupHistory, zipCodes, conversationOutcomes, repliesBySegment, unsubscribesBySegment]);
  }

  /** The number of non-empty sections. */
  function Presence(sections: seq<string>): nat {
    if sections == [] then 0 else |Optional(sections[0])| + Presence(sections[1..])
  }

  lemma {:induction false} NonEmptyCount(sections: seq<string>)
    ensures |NonEmpty(sections)| == Presence(sections)
    decreases |sections|
  {
    if sections != [] {
      NonEmptyCount(sections[1..]);
    }
  }

  // ---------------------------------------------------------------------------
  // Weekly report record

  /** The stored weekly report: one column per metric, outcome, status and
      segment, and a total per segment table. */
  datatype WeeklyReport = WeeklyReport(
    createdAt: string,
    conversationStartersSent: int,
    broadcastReplies: int,
    textIns: int,
    reporterConversations: int,
    failedDeliveries: int,
    unsubscribes: int,
    userSatisfaction: int,
    problemAddressed: int,
    crisisAverted: int,
    accountabilityGap: int,
    source: int,
    unsatisfied: int,
    futureKeyword: int,
    statusRegistered: int,
    statusUnregistered: int,
    statusTaxDebt: int,
    statusNoTaxDebt: int,
    statusCompliant: int,
    statusForeclosed: int,
    repliesTotal: int,
    repliesProactive: int,
    repliesReceptive: int,
    repliesConnected: int,
    repliesPassive: int,
    repliesInactive: int,
    unsubscribesTotal: int,
    unsubscribesProactive: int,
    unsubscribesReceptive: int,
    unsubscribesConnected: int,
    unsubscribesPassive: int,
    unsubscribesInactive: int)

  /** `sum(d.values())`, summed along `order`, the dictionary's key order. */
  function SumValues(d: map<string, int>, order: seq<string>): int
    requires forall i :: 0 <= i < |order| ==> order[i] in d
  {
    if order == [] then 0 else d[order[0]] + SumValues(d, order[1..])
  }

  /** Whether every key of `keys` is present in `d`. */
  predicate HasAll(d: map<string, int>, keys: seq<string>) {
    forall i :: 0 <= i < |keys| ==> keys[i] in d
  }

  /** The keys `insert_weekly_report` reads from the conversation metrics. */
  const MetricColumns: seq<string> :=
    ["conversation_starters_sent", "broadcast_replies", "text_ins",
     "reporter_conversations", "failed_deliveries", "unsubscribes"]

  /** `insert_weekly_report` without the session: the record it adds, or the
      `KeyError` of a missing key. The segment tables are the dictionaries
      `process_audience_segment_related_data` builds, whose keys are the five
      segments in their fixed order; a total is the sum of all of a table's
      values. */
  function InsertWeeklyReport(
    currentDate: string,
    conversationMetrics: map<string, int>,
    conversationOutcomes: map<string, int>,
    propertyStatuses: map<string, int>,
    broadcastReplies: map<string, int>,
    unsubscribes: map<string, int>
  ): (r: Result<WeeklyReport, string>)
    requires broadcastReplies.Keys == set k | k in AnalyticsUtils.Segments
    requires unsubscribes.Keys == set k | k in AnalyticsUtils.Segments
    ensures r.Ok? <==>
              HasAll(conversationMetrics, MetricColumns)
              && HasAll(conversationOutcomes, AnalyticsUtils.OutcomeLabels)
              && HasAll(propertyStatuses, AnalyticsUtils.LookupStatuses)
    ensures r.Ok? ==>
              r.value.repliesTotal == r.value.repliesProactive + r.value.repliesReceptive
                                      + r.value.repliesConnected + r.value.repliesPassive
                                      + r.value.repliesInactive
    ensures r.Ok? ==>
              r.value.unsubscribesTotal == r.value.unsubscribesProactive + r.value.unsubscribesReceptive
                                           + r.value.unsubscribesConnected + r.value.unsubscribesPassive
                                           + r.value.unsubscribesInactive
  {
    var segments := AnalyticsUtils.Segments;
    if !HasAll(conversationMetrics, MetricColumns) then Err("KeyError: conversation metric")
    else if !HasAll(conversationOutcomes, AnalyticsUtils.OutcomeLabels) then Err("KeyError: conversation outcome")
    else if !HasAll(propertyStatuses, AnalyticsUtils.LookupStatuses) then Err("KeyError: property status")
    else
      SegmentTable(broadcastReplies);
      SegmentTable(unsubscribes);
      SumOfSegments(broadcastReplies);
      SumOfSegments(unsubscribes);
      assert MetricColumns[0] in conversationMetrics && MetricColumns[1] in conversationMetrics
             && MetricColumns[2] in conversationMetrics && MetricColumns[3] in conversationMetrics
             && MetricColumns[4] in conversationMetrics && MetricColumns[5] in conversationMetrics;
      assert AnalyticsUtils.OutcomeLabels[0] in conversationOutcomes && AnalyticsUtils.OutcomeLabels[1] in conversationOutcomes
             && AnalyticsUtils.OutcomeLabels[2] in conversationOutcomes && AnalyticsUtils.OutcomeLabels[3] in conversationOutcomes
             && AnalyticsUtils.OutcomeLabels[4] in conversationOutcomes && AnalyticsUtils.OutcomeLabels[5] in conversationOutcomes
             && AnalyticsUtils.OutcomeLabels[6] in conversationOutcomes;
      assert AnalyticsUtils.LookupStatuses[0] in propertyStatuses && AnalyticsUtils.LookupStatuses[1] in propertyStatuses
             && AnalyticsUtils.LookupStatuses[2] in propertyStatuses && AnalyticsUtils.LookupStatuses[3] in propertyStatuses
             && AnalyticsUtils.LookupStatuses[4] in propertyStatuses && AnalyticsUtils.LookupStatuses[5] in propertyStatuses;
      Ok(WeeklyReport(
        currentDate,
        conversationMetrics["conversation_starters_sent"],
        conversationMetrics["broadcast_replies"],
        conversationMetrics["text_ins"],
        conversationMetrics["reporter_conversations"],
        conversationMetrics["failed_deliveries"],
        conversationMetrics["unsubscribes"],
        conversationOutcomes["user satisfaction"],
        conversationOutcomes["problem addressed"],
        conversationOutcomes["crisis averted"],
        conversationOutcomes["accountability gap"],
        conversationOutcomes["source"],
        conversationOutcomes["unsatisfied"],
        conversationOutcomes["future keyword"],
        propertyStatuses["REGISTERED"],
        propertyStatuses["UNREGISTERED"],
        propertyStatuses["TAX_DEBT"],
        propertyStatuses["NO_TAX_DEBT"],
        propertyStatuses["COMPLIANT"],
        propertyStatuses["FORECLOSED"],
        SumValues(broadcastReplies, segments),
        broadcastReplies["Proactive"],
        broadcastReplies["Receptive"],
        broadcastReplies["Connected"],
        broadcastReplies["Passive"],
        broadcastReplies["Inactive"],
        SumValues(unsubscribes, segments),
        unsubscribes["Proactive"],
        unsubscribes["Receptive"],
        unsubscribes["Connected"],
        unsubscribes["Passive"],
        unsubscribes["Inactive"]))
  }

  /** A table keyed by exactly the five segments has each of them. */
  lemma SegmentTable(d: map<string, int>)
    requires d.Keys == set k | k in AnalyticsUtils.Segments
    ensures HasSegments(d)
  {
    var s := AnalyticsUtils.Segments;
    assert s[0] in s && s[1] in s && s[2] in s && s[3] in s && s[4] in s;
  }

  predicate HasSegments(d: map<string, int>) {
    "Proactive" in d && "Receptive" in d && "Connected" in d && "Passive" in d && "Inactive" in d
  }

  /** Summing a segment table along the segment order adds its five columns. */
  lemma SumOfSegments(d: map<string, int>)
    requires HasSegments(d)
    ensures HasAll(d, AnalyticsUtils.Segments)
    ensures SumValues(d, AnalyticsUtils.Segments)
            == d["Proactive"] + d["Receptive"] + d["Connected"] + d["Passive"] + d["Inactive"]
  {
    var s := AnalyticsUtils.Segments;
    assert s[1..] == ["Receptive", "Connected", "Passive", "Inactive"];
    assert s[1..][1..] == ["Connected", "Passive", "Inactive"];
    assert s[1..][1..][1..] == ["Passive", "Inactive"];
    assert s[1..][1..][1..][1..] == ["Inactive"];
    assert s[1..][1..][1..][1..][1..] == [];
    assert SumValues(d, ["Inactive"]) == d["Inactive"];
    assert SumValues(d, ["Passive", "Inactive"]) == d["Passive"] + d["Inactive"];
    assert SumValues(d, ["Connected", "Passive", "Inactive"]) == d["Connected"] + d["Passive"] + d["Inactive"];
  }

  /** The stored record copies each metric, outcome and status column from its
      dictionary under the column's key, and each segment column from its
      segment table. */
  lemma InsertedColumns(
    currentDate: string,
    conversationMetrics: map<string, int>,
    conversationOutcomes: map<string, int>,
    propertyStatuses: map<string, int>,
    broadcastReplies: map<string, int>,
    unsubscribes: map<string, int>)
    requires broadcastReplies.Keys == set k | k in AnalyticsUtils.Segments
    requires unsubscribes.Keys == set k | k in AnalyticsUtils.Segments
    ensures var r := InsertWeeklyReport(currentDate, conversationMetrics, conversationOutcomes,
                                        propertyStatuses, broadcastReplies, unsubscribes);
            r.Ok? ==>
              r.value.createdAt == currentDate
              && "conversation_starters_sent" in conversationMetrics && r.value.conversationStartersSent == conversationMetrics["conversation_starters_sent"]
              && "broadcast_replies" in conversationMetrics && r.value.broadcastReplies == conversationMetrics["broadcast_replies"]
              && "text_ins" in conversationMetrics && r.value.textIns == conversationMetrics["text_ins"]
              && "reporter_conversations" in conversationMetrics && r.value.reporterConversations == conversationMetrics["reporter_conversations"]
              && "failed_deliveries" in conversationMetrics && r.value.failedDeliveries == conversationMetrics["failed_deliveries"]
              && "unsubscribes" in conversationMetrics && r.value.unsubscribes == conversationMetrics["unsubscribes"]
              && "user satisfaction" in conversationOutcomes && r.value.userSatisfaction == conversationOutcomes["user satisfaction"]
              && "problem addressed" in conversationOutcomes && r.value.problemAddressed == conversationOutcomes["problem addressed"]
              && "crisis averted" in conversationOutcomes && r.value.crisisAverted == conversationOutcomes["crisis averted"]
              && "accountability gap" in conversationOutcomes && r.value.accountabilityGap == conversationOutcomes["accountability gap"]
              && "source" in conversationOutcomes && r.value.source == conversationOutcomes["source"]
              && "unsatisfied" in conversationOutcomes && r.value.unsatisfied == conversationOutcomes["unsatisfied"]
              && "future keyword" in conversationOutcomes && r.value.futureKeyword == conversationOutcomes["future keyword"]
              && "REGISTERED" in propertyStatuses && r.value.statusRegistered == propertyStatuses["REGISTERED"]
              && "UNREGISTERED" in propertyStatuses && r.value.statusUnregistered == propertyStatuses["UNREGISTERED"]
              && "TAX_DEBT" in propertyStatuses && r.value.statusTaxDebt == propertyStatuses["TAX_DEBT"]
              && "NO_TAX_DEBT" in propertyStatuses && r.value.statusNoTaxDebt == propertyStatuses["NO_TAX_DEBT"]
              && "COMPLIANT" in propertyStatuses && r.value.statusCompliant == propertyStatuses["COMPLIANT"]
              && "FORECLOSED" in propertyStatuses && r.value.statusForeclosed == propertyStatuses["FORECLOSED"]
              && "Proactive" in broadcastReplies && r.value.repliesProactive == broadcastReplies["Proactive"]
              && "Receptive" in broadcastReplies && r.value.repliesReceptive == broadcastReplies["Receptive"]
              && "Connected" in broadcastReplies && r.value.repliesConnected == broadcastReplies["Connected"]
              && "Passive" in broadcastReplies && r.value.repliesPassive == broadcastReplies["Passive"]
              && "Inactive" in broadcastReplies && r.value.repliesInactive == broadcastReplies["Inactive"]
              && "Proactive" in unsubscribes && r.value.unsubscribesProactive == unsubscribes["Proactive"]
              && "Receptive" in unsubscribes && r.value.unsubscribesReceptive == unsubscribes["Receptive"]
              && "Connected" in unsubscribes && r.value.unsubscribesConnected == unsubscribes["Connected"]
              && "Passive" in unsubscribes && r.value.unsubscribesPassive == unsubscribes["Passive"]
              && "Inactive" in unsubscribes && r.value.unsubscribesInactive == unsubscribes["Inactive"]
  {
    var r := InsertWeeklyReport(currentDate, conversationMetrics, conversationOutcomes,
                                propertyStatuses, broadcastReplies, unsubscribes);
    if r.Ok? {
      var m, o, p := MetricColumns, AnalyticsUtils.OutcomeLabels, AnalyticsUtils.LookupStatuses;
      assert m[0] in conversationMetrics && m[1] in conversationMetrics && m[2] in conversationMetrics
             && m[3] in conversationMetrics && m[4] in conversationMetrics && m[5] in conversationMetrics;
      assert o[0] in conversationOutcomes && o[1] in conversationOutcomes && o[2] in conversationOutcomes
             && o[3] in conversationOutcomes && o[4] in conversationOutcomes && o[5] in conversationOutcomes
             && o[6] in conversationOutcomes;
      assert p[0] in propertyStatuses && p[1] in propertyStatuses && p[2] in propertyStatuses
             && p[3] in propertyStatuses && p[4] in propertyStatuses && p[5] in propertyStatuses;
      SegmentTable(broadcastReplies);
      SegmentTable(unsubscribes);
    }
  }
}
