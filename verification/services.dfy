/** The SMS address-lookup workflow of services/services.py: sub-unit
    extraction from a normalized address, classification of the registry
    records that match it, the reply each outcome triggers, and the ordered
    status notifications sent after a match.

    The registry is a sequence of records, the owner query engine is a
    function from a canonical address to its response, and every call to the
    messaging gateway, the registry or the owner engine, and every pause, is
    an event in the returned trace. */
module Services {
  import opened Results
  import opened Strings

  /** A row of the property registry (`mi_wayne_detroit`): its street address
      and its sub-unit, which the table may leave NULL. */
  datatype Record = Record(address: string, sunit: Option<string>)

  /** The owner query engine's answer: the text `str(response)` prints and the
      metadata map the workflow inspects. */
  datatype OwnerResponse = OwnerResponse(text: string, metadata: map<string, string>)

  /** One external effect of handling a query. */
  datatype Event =
    | RegistryQuery(addressPrefix: string, sunit: string)
    | OwnerQuery(address: string)
    | Send(text: string, conversation: string, phone: string, labels: seq<string>)
    | Sleep(seconds: nat)

  /** The deployment's reply templates (`sms_templates`) and the lookup label
      (`MISSIVE_LOOKUP_TAG_ID`) attached to match replies. */
  datatype Config = Config(
    noMatch: string,
    closestMatch: string,
    matchSecondMessage: string,
    wrongFormat: string,
    final: string,
    lookupLabel: string)

  /** The `({"result": text}, status)` pair every handler returns. */
  datatype Payload = Payload(result: string, status: int)

  /** How a query was resolved against the registry. */
  datatype Outcome =
    | WrongFormat
    | NoMatch(display: string)
    | Ambiguous(display: string)
    | Exact(record: Record)

  /** What one handler emits and returns. */
  datatype Handled = Handled(trace: seq<Event>, payload: Payload)

  /** The full result of one query: its outcome, every effect in order, and the payload. */
  datatype Reply = Reply(outcome: Outcome, trace: seq<Event>, payload: Payload)

  /** The pause, in seconds, between two messages of one sequence. */
  const Pause: nat := 2

  const HttpOk: int := 200

  // ---------------------------------------------------------------------------
  // Sub-unit extraction

  /** `line.replace("UNIT", "").replace("#", "")`. */
  function RemoveMarkers(line: string): string {
    Replace(Replace(line, "UNIT", ""), "#", "")
  }

  /** A string free of `c` stays free of it once its whitespace is collapsed,
      provided `c` is not itself whitespace. */
  lemma CollapseWithout(s: string, c: char)
    requires c !in s && !IsSpace(c)
    ensures c !in Collapse(s)
  {
    var r := Collapse(s);
    CollapseKeepsText(s);
    forall i | 0 <= i < |r|
      ensures r[i] != c
    {
      if !IsSpace(r[i]) {
        NonSpaceKeeps(r, i);
        NonSpaceFrom(s, r[i]);
      }
    }
  }

  /** `extract_address_information`: the primary line as given (empty when
      missing), and the secondary line with its `UNIT` and `#` markers removed
      and its whitespace collapsed (empty when missing). */
  function ExtractAddressInformation(normalized: map<string, string>): (r: (string, string))
    ensures "address_line_1" in normalized ==> r.0 == normalized["address_line_1"]
    ensures "address_line_1" !in normalized ==> r.0 == ""
    ensures "address_line_2" !in normalized ==> r.1 == ""
  {
    var address := if "address_line_1" in normalized then normalized["address_line_1"] else "";
    if "address_line_2" in normalized then (address, Collapse(RemoveMarkers(normalized["address_line_2"])))
    else (address, "")
  }

  /** The extracted sub-unit keeps every non-whitespace character of the
      secondary line except the removed markers, holds no `#`, has no leading
      or trailing whitespace and no two whitespace characters in a row. */
  lemma SubUnitClean(normalized: map<string, string>)
    ensures var sunit := ExtractAddressInformation(normalized).1;
            ("address_line_2" in normalized ==>
               NonSpace(sunit) == NonSpace(RemoveMarkers(normalized["address_line_2"]))
               && Words(sunit) == Words(RemoveMarkers(normalized["address_line_2"])))
            && '#' !in sunit
            && Collapsed(sunit)
  {
    if "address_line_2" in normalized {
      var cleaned := RemoveMarkers(normalized["address_line_2"]);
      RemoveCharGone(Replace(normalized["address_line_2"], "UNIT", ""), '#');
      CollapseWithout(cleaned, '#');
      CollapseIsCollapsed(cleaned);
      CollapseKeepsText(cleaned);
      WordsOfJoin(Words(cleaned));
    }
  }

  // ---------------------------------------------------------------------------
  // Matching

  /** The registry filter: the record's address starts with the stripped query
      address, ignoring ASCII case (`ILIKE '<address>%'`), and, when a sub-unit
      was given, the record's sub-unit ends with it, respecting case. */
  predicate IsCandidate(r: Record, address: string, sunit: string) {
    var prefixMatch := StartsWith(LowerStr(r.address), LowerStr(Strip(address)));
    if sunit != "" then prefixMatch && r.sunit.Some? && EndsWith(r.sunit.value, sunit)
    else prefixMatch
  }

  /** The registry records the filter returns, in registry order. */
  function Candidates(registry: seq<Record>, address: string, sunit: string): (cs: seq<Record>)
    ensures |cs| <= |registry|
    ensures forall i :: 0 <= i < |cs| ==> IsCandidate(cs[i], address, sunit)
  {
    if registry == [] then []
    else
      var rest := Candidates(registry[1..], address, sunit);
      if IsCandidate(registry[0], address, sunit) then [registry[0]] + rest else rest
  }

  /** Every candidate is a registry record. */
  lemma {:induction false} CandidatesFromRegistry(registry: seq<Record>, address: string, sunit: string, r: Record)
    ensures r in Candidates(registry, address, sunit) ==> r in registry
  {
    if registry != [] {
      CandidatesFromRegistry(registry[1..], address, sunit, r);
    }
  }

  /** A registry record is a candidate exactly when it passes the filter: the
      query returns every matching row and nothing else. */
  lemma {:induction false} CandidatesExactly(registry: seq<Record>, address: string, sunit: string, r: Record)
    ensures r in Candidates(registry, address, sunit) <==> r in registry && IsCandidate(r, address, sunit)
  {
    if registry != [] {
      CandidatesExactly(registry[1..], address, sunit, r);
      assert registry == [registry[0]] + registry[1..];
    }
  }

  /** The address shown in no-match and ambiguous replies: the unstripped
      address, followed by the sub-unit when there is one. */
  function DisplayAddress(address: string, sunit: string): string {
    if sunit == "" then address else address + " " + sunit
  }

  /** The decision of `search_service`: no primary address line is a wrong
      format; otherwise zero, several or exactly one candidate. */
  function Classify(address: string, sunit: string, registry: seq<Record>): (o: Outcome)
    ensures o.WrongFormat? <==> address == ""
    ensures o.NoMatch? <==> address != "" && |Candidates(registry, address, sunit)| == 0
    ensures o.Ambiguous? <==> address != "" && |Candidates(registry, address, sunit)| > 1
    ensures (o.NoMatch? || o.Ambiguous?) ==> o.display == DisplayAddress(address, sunit)
    ensures o.Exact? ==> Candidates(registry, address, sunit) == [o.record]
    ensures o.Exact? ==> o.record in registry && IsCandidate(o.record, address, sunit)
  {
    if address == "" then WrongFormat
    else
      var cs := Candidates(registry, address, sunit);
      if |cs| == 0 then NoMatch(DisplayAddress(address, sunit))
      else if |cs| > 1 then Ambiguous(DisplayAddress(address, sunit))
      else
        assert cs == [cs[0]];
        CandidatesFromRegistry(registry, address, sunit, cs[0]);
        Exact(cs[0])
  }

  // ---------------------------------------------------------------------------
  // Reply handlers

  /** `template.format(address=...)` for a template whose only field is `{address}`. */
  function FormatAddress(template: string, address: string): string {
    Replace(template, "{address}", address)
  }

  /** One unlabelled message to the conversation, and nothing else. */
  predicate SingleReply(h: Handled, conversation: string, phone: string) {
    |h.trace| == 1 && h.trace[0].Send?
    && h.trace[0].conversation == conversation && h.trace[0].phone == phone
    && h.trace[0].labels == []
  }

  /** `handle_no_match`, with the gateway's conversation and phone arguments in
      their intended places. The payload is the template before formatting. */
  function HandleNoMatch(display: string, conversation: string, phone: string, cfg: Config): (r: Handled)
    ensures SingleReply(r, conversation, phone)
    ensures r.trace[0].text == FormatAddress(cfg.noMatch, display)
    ensures r.payload == Payload(cfg.noMatch, 200)
  {
    Handled([Send(FormatAddress(cfg.noMatch, display), conversation, phone, [])], Payload(cfg.noMatch, HttpOk))
  }

  /** `handle_ambiguous`, with the gateway's arguments in their intended places. */
  function HandleAmbiguous(display: string, conversation: string, phone: string, cfg: Config): (r: Handled)
    ensures SingleReply(r, conversation, phone)
    ensures r.trace[0].text == FormatAddress(cfg.closestMatch, display)
    ensures r.payload == Payload(cfg.closestMatch, 200)
  {
    Handled([Send(FormatAddress(cfg.closestMatch, display), conversation, phone, [])], Payload(cfg.closestMatch, HttpOk))
  }

  /** A positional gateway call `send_sms_sync(text, a, b)`: the gateway reads
      its second argument as the conversation and its third as the phone. */
  function PositionalSend(text: string, second: string, third: string): Event {
    Send(text, second, third, [])
  }

  /** `handle_no_match` as written: it passes the phone second and the
      conversation third, so the reply is addressed to the wrong conversation
      whenever the two differ. */
  function HandleNoMatchAsWritten(display: string, conversation: string, phone: string, cfg: Config): (r: Handled)
    ensures |r.trace| == 1 && r.trace[0].Send? && r.trace[0].conversation == phone
    ensures r.trace[0].text == FormatAddress(cfg.noMatch, display)
    ensures conversation != phone ==> !SingleReply(r, conversation, phone)
  {
    Handled([PositionalSend(FormatAddress(cfg.noMatch, display), phone, conversation)], Payload(cfg.noMatch, HttpOk))
  }

  /** `handle_ambiguous` as written, with the same argument order. */
  function HandleAmbiguousAsWritten(display: string, conversation: string, phone: string, cfg: Config): (r: Handled)
    ensures |r.trace| == 1 && r.trace[0].Send? && r.trace[0].conversation == phone
    ensures r.trace[0].text == FormatAddress(cfg.closestMatch, display)
    ensures conversation != phone ==> !SingleReply(r, conversation, phone)
  {
    Handled([PositionalSend(FormatAddress(cfg.closestMatch, display), phone, conversation)], Payload(cfg.closestMatch, HttpOk))
  }

  /** A concrete reply that goes astray: conversation "c-1", phone "+1313". */
  lemma MisaddressedReply(cfg: Config)
    ensures HandleNoMatchAsWritten("1 Main St", "c-1", "+1313", cfg).trace[0].conversation == "+1313"
    ensures !SingleReply(HandleNoMatchAsWritten("1 Main St", "c-1", "+1313", cfg), "c-1", "+1313")
    ensures SingleReply(HandleNoMatch("1 Main St", "c-1", "+1313", cfg), "c-1", "+1313")
  {
  }

  /** `handle_match`: the owner answer, a pause, then the fixed follow-up, both
      labelled. The payload is the owner answer. */
  function HandleMatch(response: OwnerResponse, conversation: string, phone: string, cfg: Config): (r: Handled)
    ensures |r.trace| == 3 && r.trace[1] == Sleep(2)
    ensures forall i :: 0 <= i < 3 && i != 1 ==>
              r.trace[i].Send? && r.trace[i].conversation == conversation
              && r.trace[i].phone == phone && r.trace[i].labels == [cfg.lookupLabel]
    ensures r.trace[0].Send? && r.trace[0].text == r.payload.result == response.text
    ensures r.trace[2].Send? && r.trace[2].text == cfg.matchSecondMessage
    ensures r.payload.status == 200
  {
    Handled(
      [ Send(response.text, conversation, phone, [cfg.lookupLabel]),
        Sleep(Pause),
        Send(cfg.matchSecondMessage, conversation, phone, [cfg.lookupLabel]) ],
      Payload(response.text, HttpOk))
  }

  /** `handle_wrong_format`: the fixed template to the conversation, echoed as payload. */
  function HandleWrongFormat(conversation: string, phone: string, cfg: Config): (r: Handled)
    ensures SingleReply(r, conversation, phone)
    ensures r.trace[0].text == r.payload.result == cfg.wrongFormat
    ensures r.payload.status == 200
  {
    Handled([Send(cfg.wrongFormat, conversation, phone, [])], Payload(cfg.wrongFormat, HttpOk))
  }

  /** The messages of a trace, in order. */
  function Sends(trace: seq<Event>): seq<Event> {
    if trace == [] then []
    else (if trace[0].Send? then [trace[0]] else []) + Sends(trace[1..])
  }

  /** The handler `search_service` runs for an outcome, after the registry
      query for `prefix` and `sunit` when the address was well formed. */
  function Respond(
    outcome: Outcome, prefix: string, sunit: string, owner: string -> OwnerResponse,
    cfg: Config, conversation: string, phone: string
  ): (r: Reply)
    ensures r.outcome == outcome && r.payload.status == HttpOk
    ensures Shaped(outcome, r.trace)
    ensures outcome.WrongFormat? ==>
              r.trace == [Send(cfg.wrongFormat, conversation, phone, [])]
              && r.payload.result == cfg.wrongFormat
    ensures !outcome.WrongFormat? ==> r.trace[0] == RegistryQuery(prefix, sunit)
  {
    var query := RegistryQuery(prefix, sunit);
    match outcome
    case WrongFormat =>
      var h := HandleWrongFormat(conversation, phone, cfg);
      Reply(outcome, h.trace, h.payload)
    case NoMatch(display) =>
      var h := HandleNoMatch(display, conversation, phone, cfg);
      Reply(outcome, [query] + h.trace, h.payload)
    case Ambiguous(display) =>
      var h := HandleAmbiguous(display, conversation, phone, cfg);
      Reply(outcome, [query] + h.trace, h.payload)
    case Exact(record) =>
      var h := HandleMatch(owner(record.address), conversation, phone, cfg);
      Reply(outcome, [query, OwnerQuery(record.address)] + h.trace, h.payload)
  }

  /** `search_service` on a normalized address: exactly one handler runs. A
      missing primary line sends the wrong-format reply and touches nothing
      else; otherwise the registry is filtered once, and only an exact match
      queries the owner engine, with the matched record's address alone. */
  function SearchService(
    normalized: map<string, string>,
    registry: seq<Record>,
    owner: string -> OwnerResponse,
    cfg: Config,
    conversation: string,
    phone: string
  ): (r: Reply)
    ensures var e := ExtractAddressInformation(normalized);
            r.outcome == Classify(e.0, e.1, registry)
    ensures r.payload.status == HttpOk
    ensures Shaped(r.outcome, r.trace)
    ensures r.outcome.WrongFormat? ==>
              r.trace == [Send(cfg.wrongFormat, conversation, phone, [])]
              && r.payload.result == cfg.wrongFormat
    ensures !r.outcome.WrongFormat? ==>
              var e := ExtractAddressInformation(normalized);
              r.trace[0] == RegistryQuery(Strip(e.0), e.1)
  {
    var e := ExtractAddressInformation(normalized);
    Respond(Classify(e.0, e.1, registry), Strip(e.0), e.1, owner, cfg, conversation, phone)
  }

  // ---------------------------------------------------------------------------
  // Properties of the lookup

  lemma {:induction false} SendsAppend(a: seq<Event>, b: seq<Event>)
    ensures Sends(a + b) == Sends(a) + Sends(b)
  {
    if a == [] {
      assert a + b == b;
    } else {
      var head := if a[0].Send? then [a[0]] else [];
      assert (a + b)[0] == a[0];
      assert (a + b)[1..] == a[1..] + b;
      assert Sends(a + b) == head + Sends(a[1..] + b);
      SendsAppend(a[1..], b);
      assert Sends(a) == head + Sends(a[1..]);
    }
  }

  lemma SendsCons(e: Event, t: seq<Event>)
    ensures Sends([e] + t) == (if e.Send? then [e] else []) + Sends(t)
  {
    assert ([e] + t)[1..] == t;
  }

  /** Exactly one handler runs per query: every path sends one message, except
      the exact match, which sends the owner answer and the follow-up. */
  lemma OneHandlerPerQuery(
    normalized: map<string, string>, registry: seq<Record>, owner: string -> OwnerResponse,
    cfg: Config, conversation: string, phone: string)
    ensures var r := SearchService(normalized, registry, owner, cfg, conversation, phone);
            |Sends(r.trace)| == if r.outcome.Exact? then 2 else 1
  {
    var r := SearchService(normalized, registry, owner, cfg, conversation, phone);
    SendsPerOutcome(r.outcome, r.trace);
  }

  /** The kinds of the events `search_service` records for each outcome: one
      message for a bad address, the registry query and then one message, or the
      registry query, the owner query and the two messages of a match. */
  predicate Shaped(o: Outcome, t: seq<Event>)
  {
    if o.WrongFormat? then |t| == 1 && t[0].Send?
    else if o.Exact? then
      |t| == 5 && t[0].RegistryQuery? && t[1].OwnerQuery? && t[2].Send? && t[3].Sleep? && t[4].Send?
    else |t| == 2 && t[0].RegistryQuery? && t[1].Send?
  }

  /** The messages of a trace of that shape. */
  lemma SendsPerOutcome(o: Outcome, t: seq<Event>)
    requires Shaped(o, t)
    ensures |Sends(t)| == if o.Exact? then 2 else 1
  {
    if o.Exact? {
      assert t == [t[0]] + ([t[1]] + ([t[2]] + ([t[3]] + ([t[4]] + []))));
      SendsCons(t[0], [t[1]] + ([t[2]] + ([t[3]] + ([t[4]] + []))));
      SendsCons(t[1], [t[2]] + ([t[3]] + ([t[4]] + [])));
      SendsCons(t[2], [t[3]] + ([t[4]] + []));
      SendsCons(t[3], [t[4]] + []);
      SendsCons(t[4], []);
    } else if o.WrongFormat? {
      assert t == [t[0]] + [];
      SendsCons(t[0], []);
    } else {
      assert t == [t[0]] + ([t[1]] + []);
      SendsCons(t[0], [t[1]] + []);
      SendsCons(t[1], []);
    }
  }

  lemma {:induction false} NoCandidates(registry: seq<Record>, address: string, sunit: string)
    requires forall i :: 0 <= i < |registry| ==> !IsCandidate(registry[i], address, sunit)
    ensures Candidates(registry, address, sunit) == []
  {
    if registry != [] {
      NoCandidates(registry[1..], address, sunit);
    }
  }

  lemma {:induction false} OneCandidate(registry: seq<Record>, address: string, sunit: string, k: nat)
    requires k < |registry| && IsCandidate(registry[k], address, sunit)
    requires forall i :: 0 <= i < |registry| && i != k ==> !IsCandidate(registry[i], address, sunit)
    ensures Candidates(registry, address, sunit) == [registry[k]]
  {
    if k == 0 {
      NoCandidates(registry[1..], address, sunit);
    } else {
      OneCandidate(registry[1..], address, sunit, k - 1);
    }
  }

  lemma {:induction false} SomeCandidate(registry: seq<Record>, address: string, sunit: string, k: nat)
    requires k < |registry| && IsCandidate(registry[k], address, sunit)
    ensures |Candidates(registry, address, sunit)| >= 1
  {
    if k > 0 {
      SomeCandidate(registry[1..], address, sunit, k - 1);
    }
  }

  lemma {:induction false} TwoCandidates(registry: seq<Record>, address: string, sunit: string, j: nat, k: nat)
    requires j < k < |registry|
    requires IsCandidate(registry[j], address, sunit) && IsCandidate(registry[k], address, sunit)
    ensures |Candidates(registry, address, sunit)| >= 2
  {
    if j == 0 {
      SomeCandidate(registry[1..], address, sunit, k - 1);
    } else {
      TwoCandidates(registry[1..], address, sunit, j - 1, k - 1);
    }
  }

  /** With no primary address line the reply is the single wrong-format
      message, and the registry and the owner engine are never consulted. */
  lemma WrongFormatPath(
    normalized: map<string, string>, registry: seq<Record>, owner: string -> OwnerResponse,
    cfg: Config, conversation: string, phone: string)
    requires "address_line_1" !in normalized || normalized["address_line_1"] == ""
    ensures var r := SearchService(normalized, registry, owner, cfg, conversation, phone);
            r.outcome == WrongFormat
            && r.trace == [Send(cfg.wrongFormat, conversation, phone, [])]
            && r.payload == Payload(cfg.wrongFormat, 200)
            && forall e :: e in r.trace ==> !e.RegistryQuery? && !e.OwnerQuery?
  {
    var e := ExtractAddressInformation(normalized);
    assert e.0 == "";
    RespondWrongFormat(Strip(e.0), e.1, owner, cfg, conversation, phone);
  }

  lemma RespondWrongFormat(
    prefix: string, sunit: string, owner: string -> OwnerResponse,
    cfg: Config, conversation: string, phone: string)
    ensures var r := Respond(WrongFormat, prefix, sunit, owner, cfg, conversation, phone);
            r.trace == [Send(cfg.wrongFormat, conversation, phone, [])]
            && r.payload == Payload(cfg.wrongFormat, 200)
            && forall e :: e in r.trace ==> !e.RegistryQuery? && !e.OwnerQuery?
  {
  }

  /** When no registry record passes the filter, exactly one message is sent:
      the no-match template filled with the display address; the payload
      carries the unfilled template. */
  lemma NoMatchPath(
    normalized: map<string, string>, registry: seq<Record>, owner: string -> OwnerResponse,
    cfg: Config, conversation: string, phone: string)
    requires var address, sunit := ExtractAddressInformation(normalized).0, ExtractAddressInformation(normalized).1;
             address != "" && forall i :: 0 <= i < |registry| ==> !IsCandidate(registry[i], address, sunit)
    ensures var address, sunit := ExtractAddressInformation(normalized).0, ExtractAddressInformation(normalized).1;
            var r := SearchService(normalized, registry, owner, cfg, conversation, phone);
            r.outcome == NoMatch(DisplayAddress(address, sunit))
            && r.trace == [ RegistryQuery(Strip(address), sunit),
                            Send(FormatAddress(cfg.noMatch, DisplayAddress(address, sunit)), conversation, phone, []) ]
            && r.payload == Payload(cfg.noMatch, 200)
  {
    var address, sunit := ExtractAddressInformation(normalized).0, ExtractAddressInformation(normalized).1;
    NoCandidates(registry, address, sunit);
    var r := SearchService(normalized, registry, owner, cfg, conversation, phone);
    assert r.outcome == NoMatch(DisplayAddress(address, sunit));
    TraceOfTwo(r.trace);
  }

  /** When two registry records pass the filter, the system asks for
      clarification instead of guessing: one closest-match message, no owner
      query. */
  lemma AmbiguousPath(
    normalized: map<string, string>, registry: seq<Record>, owner: string -> OwnerResponse,
    cfg: Config, conversation: string, phone: string, j: nat, k: nat)
    requires var address, sunit := ExtractAddressInformation(normalized).0, ExtractAddressInformation(normalized).1;
             address != "" && j < k < |registry|
             && IsCandidate(registry[j], address, sunit) && IsCandidate(registry[k], address, sunit)
    ensures var address, sunit := ExtractAddressInformation(normalized).0, ExtractAddressInformation(normalized).1;
            var r := SearchService(normalized, registry, owner, cfg, conversation, phone);
            r.outcome == Ambiguous(DisplayAddress(address, sunit))
            && r.trace == [ RegistryQuery(Strip(address), sunit),
                            Send(FormatAddress(cfg.closestMatch, DisplayAddress(address, sunit)), conversation, phone, []) ]
            && r.payload == Payload(cfg.closestMatch, 200)
  {
    var address, sunit := ExtractAddressInformation(normalized).0, ExtractAddressInformation(normalized).1;
    TwoCandidates(registry, address, sunit, j, k);
    var r := SearchService(normalized, registry, owner, cfg, conversation, phone);
    var display := DisplayAddress(address, sunit);
    assert r.outcome == Ambiguous(display);
    TraceOfTwo(r.trace);
  }

  lemma TraceOfTwo(t: seq<Event>)
    requires |t| >= 2 && |t[1..]| == 1
    ensures t == [t[0], t[1]]
  {
  }

  /** When exactly one registry record passes the filter, the owner engine is
      asked about that record's address (its sub-unit dropped), and the reply is
      the labelled owner answer, a pause, and the labelled follow-up. */
  lemma ExactPath(
    normalized: map<string, string>, registry: seq<Record>, owner: string -> OwnerResponse,
    cfg: Config, conversation: string, phone: string, k: nat)
    requires var address, sunit := ExtractAddressInformation(normalized).0, ExtractAddressInformation(normalized).1;
             address != "" && k < |registry| && IsCandidate(registry[k], address, sunit)
             && forall i :: 0 <= i < |registry| && i != k ==> !IsCandidate(registry[i], address, sunit)
    ensures var address, sunit := ExtractAddressInformation(normalized).0, ExtractAddressInformation(normalized).1;
            var r := SearchService(normalized, registry, owner, cfg, conversation, phone);
            var answer := owner(registry[k].address);
            r.outcome == Exact(registry[k])
            && r.trace == [ RegistryQuery(Strip(address), sunit),
                            OwnerQuery(registry[k].address),
                            Send(answer.text, conversation, phone, [cfg.lookupLabel]),
                            Sleep(Pause),
                            Send(cfg.matchSecondMessage, conversation, phone, [cfg.lookupLabel]) ]
            && r.payload == Payload(answer.text, 200)
  {
    var address, sunit := ExtractAddressInformation(normalized).0, ExtractAddressInformation(normalized).1;
    OneCandidate(registry, address, sunit, k);
    assert Classify(address, sunit, registry) == Exact(registry[k]);
    assert SearchService(normalized, registry, owner, cfg, conversation, phone)
           == Respond(Exact(registry[k]), Strip(address), sunit, owner, cfg, conversation, phone);
    RespondExact(registry[k], Strip(address), sunit, owner, cfg, conversation, phone);
  }

  lemma RespondExact(
    record: Record, prefix: string, sunit: string, owner: string -> OwnerResponse,
    cfg: Config, conversation: string, phone: string)
    ensures var answer := owner(record.address);
            Respond(Exact(record), prefix, sunit, owner, cfg, conversation, phone)
            == Reply(Exact(record),
                     [ RegistryQuery(prefix, sunit),
                       OwnerQuery(record.address),
                       Send(answer.text, conversation, phone, [cfg.lookupLabel]),
                       Sleep(Pause),
                       Send(cfg.matchSecondMessage, conversation, phone, [cfg.lookupLabel]) ],
                     Payload(answer.text, 200))
  {
    var h := HandleMatch(owner(record.address), conversation, phone, cfg);
    assert [RegistryQuery(prefix, sunit), OwnerQuery(record.address)] + h.trace
           == [RegistryQuery(prefix, sunit), OwnerQuery(record.address), h.trace[0], h.trace[1], h.trace[2]];
  }

  /** A missing `result` entry in the owner metadata is only logged: two owner
      engines that print the same text give the same reply, whatever their
      metadata. */
  lemma MetadataIgnored(
    normalized: map<string, string>, registry: seq<Record>,
    owner1: string -> OwnerResponse, owner2: string -> OwnerResponse,
    cfg: Config, conversation: string, phone: string)
    requires forall a :: owner1(a).text == owner2(a).text
    ensures SearchService(normalized, registry, owner1, cfg, conversation, phone)
            == SearchService(normalized, registry, owner2, cfg, conversation, phone)
  {
  }

  // ---------------------------------------------------------------------------
  // Status notifications

  /** Python truthiness of an optional string: present and non-empty. */
  predicate Truthy(v: Option<string>) {
    v.Some? && v.value != ""
  }

  /** Whether `process_statuses` sends the tax message. */
  predicate SendsTax(taxStatus: Option<string>) {
    Truthy(taxStatus) && taxStatus.value != "NO_TAX_DEBT"
  }

  function Flag(b: bool): nat {
    if b then 1 else 0
  }

  /** `process_statuses`: the tax message, then the rental message, each only
      when its status calls for it and each followed by a pause, then always the
      closing message. */
  function ProcessStatuses(
    taxStatus: Option<string>,
    rentalStatus: Option<string>,
    conversation: string,
    phone: string,
    cfg: Config,
    taxMessage: string -> string,
    rentalMessage: string -> string
  ): (trace: seq<Event>)
    ensures |trace| == 1 + 2 * (Flag(SendsTax(taxStatus)) + Flag(Truthy(rentalStatus)))
    ensures |Sends(trace)| == 1 + Flag(SendsTax(taxStatus)) + Flag(Truthy(rentalStatus))
    ensures trace[|trace| - 1] == Send(cfg.final, conversation, phone, [])
    ensures forall i :: 0 <= i < |trace| - 1 ==> (trace[i].Send? <==> trace[i + 1] == Sleep(Pause))
    ensures forall i :: 0 <= i < |trace| - 1 ==> (trace[i].Send? <==> i % 2 == 0)
    ensures SendsTax(taxStatus) ==> trace[0] == Send(taxMessage(taxStatus.value), conversation, phone, [])
    ensures Truthy(rentalStatus) ==>
              trace[|trace| - 3] == Send(rentalMessage(rentalStatus.value), conversation, phone, [])
    ensures forall e :: e in trace && e.Send? ==> e.conversation == conversation && e.phone == phone && e.labels == []
  {
    var tax := if SendsTax(taxStatus)
               then [Send(taxMessage(taxStatus.value), conversation, phone, []), Sleep(Pause)]
               else [];
    var rental := if Truthy(rentalStatus)
                  then [Send(rentalMessage(rentalStatus.value), conversation, phone, []), Sleep(Pause)]
                  else [];
    var trace := tax + rental + [Send(cfg.final, conversation, phone, [])];
    assert Sends(trace) == Sends(tax + rental) + [Send(cfg.final, conversation, phone, [])] by {
      SendsAppend(tax + rental, [Send(cfg.final, conversation, phone, [])]);
    }
    SendsAppend(tax, rental);
    trace
  }

  /** Tax debt and a rental status: tax message, pause, rental message, pause,
      closing message. */
  lemma TaxAndRentalScenario(conversation: string, phone: string, cfg: Config,
                             taxMessage: string -> string, rentalMessage: string -> string)
    ensures ProcessStatuses(Some("TAX_DEBT"), Some("LATE"), conversation, phone, cfg, taxMessage, rentalMessage)
            == [ Send(taxMessage("TAX_DEBT"), conversation, phone, []), Sleep(2),
                 Send(rentalMessage("LATE"), conversation, phone, []), Sleep(2),
                 Send(cfg.final, conversation, phone, []) ]
  {
  }

  /** No tax debt and no rental status: only the closing message. */
  lemma ClosingOnlyScenario(conversation: string, phone: string, cfg: Config,
                            taxMessage: string -> string, rentalMessage: string -> string)
    ensures ProcessStatuses(Some("NO_TAX_DEBT"), None, conversation, phone, cfg, taxMessage, rentalMessage)
            == [Send(cfg.final, conversation, phone, [])]
  {
  }
}
