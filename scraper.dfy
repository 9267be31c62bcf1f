/** The scraper (src/scraper.py): parse the index page into descriptors,
    cut the list to the effective limit, fetch and parse each detail page in
    order while the running flag stays set, skip the items that fail, and
    summarise the stored conversations.

    The network, HTML and clock are abstracted. The index page is given as
    its list of `div.conversation-item` elements (None when fetching it
    raised), each element as the pieces the parser looks up; the detail
    fetch of item i is `fetch(i, url)` (None when fetching or parsing it
    raised); `now` is the formatted time stamp; a stop request from another
    thread is `stopAt`, the loop boundary at which the cleared flag is first
    seen. */
module Scraper {
  import opened Wrappers
  import opened Json
  import opened Subsequences
  import ConfigModel
  import Utils

  // ---------------------------------------------------------------------
  // The records

  /** An `<a>` tag, with its `href` attribute if it has one. */
  datatype Anchor = Anchor(href: Option<string>)

  /** A `div.conversation-item`: its data-conversation-id attribute and the
      texts of the h3.conversation-title, span.bot-name and
      p.message-preview it contains, each None when the element is missing. */
  datatype IndexElement = IndexElement(
    conversationId: Option<string>,
    title: Option<string>,
    botName: Option<string>,
    anchor: Option<Anchor>,
    preview: Option<string>)

  /** One entry of parse_conversation_list's result. */
  datatype Descriptor = Descriptor(id: string, title: string, botName: string, url: string, preview: string)

  /** A `div.message`: its class list, the text of its div.message-content,
      and its data-timestamp and data-message-id attributes. */
  datatype MessageElement = MessageElement(
    classes: seq<string>,
    content: Option<string>,
    timestamp: Option<string>,
    messageId: Option<string>)

  /** A detail page: h1.conversation-title, span.bot-indicator and the div.message elements. */
  datatype DetailPage = DetailPage(title: Option<string>, botIndicator: Option<string>, messages: seq<MessageElement>)

  datatype Role = User | Assistant

  datatype Message = Message(role: Role, content: string, timestamp: string, id: string)

  datatype Metadata = Metadata(scrapedAt: string, messageCount: nat, url: string)

  datatype Conversation = Conversation(
    id: string,
    botName: string,
    title: string,
    messages: seq<Message>,
    timestamp: string,
    metadata: Metadata)

  /** Why scrape_conversations raised: the index fetch failed, an index
      element had no `<a>` (`None['href']` is a TypeError, which the
      element handler does not catch), or the limit could not be compared
      with or used as a slice bound. */
  datatype ScrapeError = IndexFetchFailed | IndexElementTypeError | LimitTypeError

  /** `.text.strip()` */
  function Text(s: string): string {
    Utils.Strip(s, Utils.Whitespace)
  }

  // ---------------------------------------------------------------------
  // parse_conversation_list

  /** What the loop body does with one element. */
  datatype ElementParse = Keep(descriptor: Descriptor) | Skip | Abort

  /** The dict literal is built field by field; the first missing piece decides. */
  function ParseElement(e: IndexElement): (r: ElementParse)
    ensures r.Abort? <==> e.title.Some? && e.botName.Some? && e.anchor.None?
    ensures r.Keep? <==> e.title.Some? && e.botName.Some? && e.anchor.Some? && e.anchor.value.href.Some? && e.preview.Some?
    ensures r.Keep? ==> r.descriptor.id == e.conversationId.GetOr("") && r.descriptor.url == e.anchor.value.href.value
  {
    if e.title.None? || e.botName.None? then Skip      // AttributeError: caught, skipped
    else if e.anchor.None? then Abort                   // TypeError: propagates
    else if e.anchor.value.href.None? then Skip        // KeyError: caught, skipped
    else if e.preview.None? then Skip                   // AttributeError: caught, skipped
    else Keep(Descriptor(e.conversationId.GetOr(""), Text(e.title.value), Text(e.botName.value),
                         e.anchor.value.href.value, Text(e.preview.value)))
  }

  function ParsedList(elements: seq<IndexElement>): Result<seq<Descriptor>, ScrapeError> {
    if elements == [] then Success([])
    else
      var n := |elements| - 1;
      match ParsedList(elements[..n])
      case Failure(e) => Failure(e)
      case Success(ds) =>
        match ParseElement(elements[n])
        case Abort => Failure(IndexElementTypeError)
        case Skip => Success(ds)
        case Keep(d) => Success(ds + [d])
  }

  method ParseConversationList(elements: seq<IndexElement>) returns (r: Result<seq<Descriptor>, ScrapeError>)
    ensures r == ParsedList(elements)
  {
    var conversations := [];
    var i := 0;
    while i < |elements|
      invariant 0 <= i <= |elements|
      invariant ParsedList(elements[..i]) == Success(conversations)
    {
      assert elements[..i + 1][..i] == elements[..i];
      var step := ParseElement(elements[i]);
      if step.Abort? {
        FailurePersists(elements, i + 1);
        return Failure(IndexElementTypeError);
      }
      if step.Keep? {
        conversations := conversations + [step.descriptor];
      }
      i := i + 1;
    }
    assert elements[..i] == elements;
    r := Success(conversations);
  }

  /** Once a prefix raises, the whole list raises: the loop stops at the first missing anchor. */
  lemma {:induction false} FailurePersists(elements: seq<IndexElement>, k: nat)
    requires k <= |elements| && ParsedList(elements[..k]).Failure?
    ensures ParsedList(elements) == Failure(IndexElementTypeError)
    decreases |elements| - k
  {
    if k == |elements| {
      assert elements[..k] == elements;
      ParsedListError(elements);
    } else {
      var n := |elements| - 1;
      assert elements[..n][..k] == elements[..k];
      FailurePersists(elements[..n], k);
    }
  }

  /** The only error parsing the list can raise is the missing-anchor TypeError. */
  lemma {:induction false} ParsedListError(elements: seq<IndexElement>)
    ensures ParsedList(elements).Failure? ==> ParsedList(elements).error == IndexElementTypeError
  {
    if elements != [] {
      ParsedListError(elements[..|elements| - 1]);
    }
  }

  /** The list raises iff some element has a title and a bot name but no anchor. */
  lemma {:induction false} ParsedListRaisesIff(elements: seq<IndexElement>)
    ensures ParsedList(elements).Failure? <==> exists i :: 0 <= i < |elements| && ParseElement(elements[i]).Abort?
  {
    if elements != [] {
      var n := |elements| - 1;
      ParsedListRaisesIff(elements[..n]);
      if exists i :: 0 <= i < n && ParseElement(elements[..n][i]).Abort? {
        var i :| 0 <= i < n && ParseElement(elements[..n][i]).Abort?;
        assert elements[i] == elements[..n][i];
      }
      if exists i :: 0 <= i < |elements| && ParseElement(elements[i]).Abort? {
        var i :| 0 <= i < |elements| && ParseElement(elements[i]).Abort?;
        if i < n {
          assert elements[..n][i] == elements[i];
        }
      }
    }
  }

  /** Which elements are kept. */
  function KeptFlags(elements: seq<IndexElement>): (flags: seq<bool>)
    ensures |flags| == |elements|
  {
    seq(|elements|, i requires 0 <= i < |elements| => ParseElement(elements[i]).Keep?)
  }

  /** When the list parses, it is the kept elements' descriptors in element
      order: elements with a missing field are skipped and the rest keep
      their order. */
  lemma {:induction false} ParsedListKeepsOrder(elements: seq<IndexElement>)
    requires ParsedList(elements).Success?
    ensures var ds := ParsedList(elements).value; var pos := Positions(KeptFlags(elements));
      && |ds| == |pos| <= |elements|
      && forall m :: 0 <= m < |ds| ==> pos[m] < |elements| && ParseElement(elements[pos[m]]) == Keep(ds[m])
  {
    var flags := KeptFlags(elements);
    PositionsExact(flags);
    if elements != [] {
      var n := |elements| - 1;
      var prefix := elements[..n];
      assert KeptFlags(prefix) == flags[..n];
      ParsedListKeepsOrder(prefix);
      var ds, prior := ParsedList(elements).value, ParsedList(prefix).value;
      var pos, priorPos := Positions(flags), Positions(flags[..n]);
      assert ds == prior + (if flags[n] then [ParseElement(elements[n]).descriptor] else []);
      assert pos == priorPos + (if flags[n] then [n] else []);
      forall m | 0 <= m < |prior| ensures ParseElement(elements[pos[m]]) == Keep(ds[m]) {
        assert elements[priorPos[m]] == prefix[priorPos[m]];
      }
    }
  }

  // ---------------------------------------------------------------------
  // parse_conversation_detail

  /** The loop body for one message element; None when the content div is missing. */
  function ParseMessage(e: MessageElement): Option<Message> {
    if e.content.None? then None
    else Some(Message(if "user-message" in e.classes then User else Assistant,
                      Text(e.content.value), e.timestamp.GetOr(""), e.messageId.GetOr("")))
  }

  function ParsedMessages(elements: seq<MessageElement>): seq<Message> {
    if elements == [] then []
    else
      var n := |elements| - 1;
      ParsedMessages(elements[..n]) + (if ParseMessage(elements[n]).Some? then [ParseMessage(elements[n]).value] else [])
  }

  /** Messages whose content div is missing are skipped; the others keep their order. */
  lemma {:induction false} ParsedMessagesKeepOrder(elements: seq<MessageElement>)
    ensures var ms := ParsedMessages(elements);
      var pos := Positions(seq(|elements|, i requires 0 <= i < |elements| => ParseMessage(elements[i]).Some?));
      && |ms| == |pos| <= |elements|
      && forall m :: 0 <= m < |ms| ==> pos[m] < |elements| && ParseMessage(elements[pos[m]]) == Some(ms[m])
  {
    var flags := seq(|elements|, i requires 0 <= i < |elements| => ParseMessage(elements[i]).Some?);
    PositionsExact(flags);
    if elements != [] {
      var n := |elements| - 1;
      assert seq(n, i requires 0 <= i < n => ParseMessage(elements[..n][i]).Some?) == flags[..n];
      ParsedMessagesKeepOrder(elements[..n]);
      PositionsExact(flags[..n]);
    }
  }

  method ParseMessages(elements: seq<MessageElement>) returns (messages: seq<Message>)
    ensures messages == ParsedMessages(elements)
  {
    messages := [];
    for i := 0 to |elements|
      invariant messages == ParsedMessages(elements[..i])
    {
      assert elements[..i + 1][..i] == elements[..i];
      var message := ParseMessage(elements[i]);
      if message.Some? {
        messages := messages + [message.value];
      }
    }
    assert elements[..|elements|] == elements;
  }

  const ChatUrlPrefix := "https://poe.com/chat/"

  /** The record parse_conversation_detail builds. */
  function ConversationOf(page: DetailPage, convId: string, now: string): Conversation {
    var messages := ParsedMessages(page.messages);
    Conversation(
      convId,
      if page.botIndicator.Some? then Text(page.botIndicator.value) else "Unknown",
      if page.title.Some? then Text(page.title.value) else "Conversation " + convId,
      messages,
      now,
      Metadata(now, |messages|, ChatUrlPrefix + convId))
  }

  method ParseConversationDetail(page: DetailPage, convId: string, now: string) returns (c: Conversation)
    ensures c == ConversationOf(page, convId, now)
    ensures c.id == convId
    ensures c.title == if page.title.Some? then Text(page.title.value) else "Conversation " + convId
    ensures c.botName == if page.botIndicator.Some? then Text(page.botIndicator.value) else "Unknown"
    ensures c.metadata.messageCount == |c.messages| <= |page.messages|
    ensures c.metadata.url == ChatUrlPrefix + convId
  {
    var title := if page.title.Some? then Text(page.title.value) else "Conversation " + convId;
    var botName := if page.botIndicator.Some? then Text(page.botIndicator.value) else "Unknown";
    var messages := ParseMessages(page.messages);
    ParsedMessagesKeepOrder(page.messages);
    var metadata := Metadata(now, |messages|, ChatUrlPrefix + convId);
    c := Conversation(convId, botName, title, messages, now, metadata);
  }

  // ---------------------------------------------------------------------
  // scrape_conversations

  /** `max_conversations or self.config.scraping.max_conversations` */
  function EffectiveLimit(requested: Option<int>, configured: Value): (limit: Value)
    ensures requested.Some? && requested.value != 0 ==> limit == Int(requested.value) && Truthy(limit)
    ensures requested.None? || requested.value == 0 ==> limit == configured
  {
    if requested.Some? && requested.value != 0 then Int(requested.value) else configured
  }

  /** Python's s[:n] for an integer n: a negative bound counts from the end. */
  function PrefixSlice<T>(s: seq<T>, n: int): (r: seq<T>)
    ensures r <= s
    ensures n >= 0 ==> |r| == if n < |s| then n else |s|
    ensures n < 0 ==> |r| == if |s| + n > 0 then |s| + n else 0
  {
    if n >= |s| then s
    else if n >= 0 then s[..n]
    else if |s| + n >= 0 then s[..|s| + n]
    else []
  }

  /** `if max_conv and max_conv < len(links): links = links[:max_conv]` */
  function LimitLinks<T>(limit: Value, links: seq<T>): (r: Result<seq<T>, ScrapeError>)
    ensures r.Success? ==> r.value <= links
    ensures r.Failure? ==> r.error == LimitTypeError
    ensures r.Failure? <==> Truthy(limit) && (AsNumber(limit).None? || (limit.Float? && limit.f < |links| as real))
    ensures limit.Bool? && limit.b && |links| > 1 ==> r == Success(links[..1])
    ensures !Truthy(limit) ==> r == Success(links)
  {
    if !Truthy(limit) then Success(links)
    else if AsNumber(limit).None? then Failure(LimitTypeError)
    else if AsNumber(limit).value < |links| as real then
      match limit
      case Int(n) => Success(PrefixSlice(links, n))
      case Bool(_) => Success(links[..1])            // True is the slice bound 1
      case _ => Failure(LimitTypeError)              // a float slice bound: TypeError
    else Success(links)
  }

  /** The descriptor list the loop walks, or why the call raised first. */
  function Plan(requested: Option<int>, configured: Value, index: Option<seq<IndexElement>>): Result<seq<Descriptor>, ScrapeError> {
    if index.None? then Failure(IndexFetchFailed)
    else
      var links :- ParsedList(index.value);
      LimitLinks(EffectiveLimit(requested, configured), links)
  }

  /** An argument of None or 0 falls back to the configured limit; a positive
      limit n keeps the first min(n, len) descriptors in order; a limit that
      is not truthy keeps them all. In every successful case the walked list
      is a prefix of the parsed list. */
  lemma PlanLimits(requested: Option<int>, configured: Value, elements: seq<IndexElement>)
    requires ParsedList(elements).Success?
    ensures var ds := ParsedList(elements).value; var plan := Plan(requested, configured, Some(elements));
      && EffectiveLimit(requested, configured) == (if requested.None? || requested.value == 0 then configured else Int(requested.value))
      && (plan.Success? ==> |plan.value| <= |ds| && plan.value == ds[..|plan.value|])
      && (EffectiveLimit(requested, configured).Int? && EffectiveLimit(requested, configured).i > 0 ==>
            var n := EffectiveLimit(requested, configured).i;
            plan == Success(ds[..if n < |ds| then n else |ds|]))
      && (!Truthy(EffectiveLimit(requested, configured)) ==> plan == Success(ds))
  {
  }

  /** With the default configuration and no argument the limit is 100. */
  lemma DefaultLimitIsHundred(elements: seq<IndexElement>)
    requires ParsedList(elements).Success?
    ensures var ds := ParsedList(elements).value;
      Plan(None, ConfigModel.Defaults.scraping["max_conversations"], Some(elements)) ==
        Success(ds[..if 100 < |ds| then 100 else |ds|])
  {
    assert ConfigModel.Defaults.scraping == ConfigModel.DefaultScraping;
    assert ConfigModel.DefaultScraping["max_conversations"] == Int(100);
    var ds := ParsedList(elements).value;
    assert Plan(None, Int(100), Some(elements)) == LimitLinks(Int(100), ds);
    assert Truthy(Int(100)) && AsNumber(Int(100)) == Some(100.0);
    if 100 < |ds| {
      assert LimitLinks(Int(100), ds) == Success(PrefixSlice(ds, 100)) == Success(ds[..100]);
    } else {
      assert LimitLinks(Int(100), ds) == Success(ds);
      assert ds[..|ds|] == ds;
    }
  }

  /** How many descriptors the loop handles before it sees the cleared flag. */
  function Processed(n: nat, stopAt: Option<nat>): (k: nat)
    ensures k <= n
    ensures stopAt.Some? && stopAt.value < n ==> k == stopAt.value
    ensures stopAt.None? || stopAt.value >= n ==> k == n
  {
    if stopAt.Some? && stopAt.value < n then stopAt.value else n
  }

  /** The records the loop appends for the given descriptors, in order,
      skipping those whose detail fetch or parse failed. */
  function Collected(links: seq<Descriptor>, fetch: (nat, string) -> Option<DetailPage>, now: string): seq<Conversation> {
    if links == [] then []
    else
      var n := |links| - 1;
      var page := fetch(n, links[n].url);
      Collected(links[..n], fetch, now) + (if page.Some? then [ConversationOf(page.value, links[n].id, now)] else [])
  }

  /** One more descriptor handled: its record, if any, goes at the end. */
  lemma CollectedStep(links: seq<Descriptor>, i: nat, fetch: (nat, string) -> Option<DetailPage>, now: string)
    requires i < |links|
    ensures fetch(i, links[i].url).Some? ==>
      Collected(links[..i + 1], fetch, now) ==
        Collected(links[..i], fetch, now) + [ConversationOf(fetch(i, links[i].url).value, links[i].id, now)]
    ensures fetch(i, links[i].url).None? ==> Collected(links[..i + 1], fetch, now) == Collected(links[..i], fetch, now)
    ensures Fetched(links[..i + 1]) == Fetched(links[..i]) + [links[i].url]
  {
    assert links[..i + 1][..i] == links[..i];
  }

  /** Which descriptors' detail fetch succeeded. */
  function Succeeded(links: seq<Descriptor>, fetch: (nat, string) -> Option<DetailPage>): (flags: seq<bool>)
    ensures |flags| == |links|
  {
    seq(|links|, i requires 0 <= i < |links| => fetch(i, links[i].url).Some?)
  }

  /** The result is an order-preserving subsequence of the descriptors: record
      m is the parse of the m-th descriptor whose fetch succeeded, with that
      descriptor's id and its message count; failed descriptors are skipped
      and every succeeded one is kept. */
  lemma {:induction false} CollectedIsSubsequence(links: seq<Descriptor>, fetch: (nat, string) -> Option<DetailPage>, now: string)
    ensures var cs := Collected(links, fetch, now); var pos := Positions(Succeeded(links, fetch));
      && |cs| == |pos| <= |links|
      && (forall m :: 0 <= m < |cs| ==>
            && pos[m] < |links|
            && fetch(pos[m], links[pos[m]].url).Some?
            && cs[m] == ConversationOf(fetch(pos[m], links[pos[m]].url).value, links[pos[m]].id, now)
            && cs[m].id == links[pos[m]].id
            && cs[m].metadata.messageCount == |cs[m].messages|)
      && (forall i, j :: 0 <= i < j < |pos| ==> pos[i] < pos[j])
      && (forall k :: 0 <= k < |links| && fetch(k, links[k].url).Some? ==> k in pos)
  {
    var flags := Succeeded(links, fetch);
    PositionsExact(flags);
    if links != [] {
      var n := |links| - 1;
      assert Succeeded(links[..n], fetch) == flags[..n];
      CollectedIsSubsequence(links[..n], fetch, now);
      PositionsExact(flags[..n]);
    }
  }

  /** All fetches fail: nothing is collected. */
  lemma {:induction false} NothingCollectedWhenAllFail(links: seq<Descriptor>, fetch: (nat, string) -> Option<DetailPage>, now: string)
    requires forall i :: 0 <= i < |links| ==> fetch(i, links[i].url).None?
    ensures Collected(links, fetch, now) == []
  {
    if links != [] {
      NothingCollectedWhenAllFail(links[..|links| - 1], fetch, now);
    }
  }

  /** The URLs fetched for the given descriptors, in order, once each. */
  function Fetched(links: seq<Descriptor>): (urls: seq<string>)
    ensures |urls| == |links| && forall i :: 0 <= i < |links| ==> urls[i] == links[i].url
  {
    seq(|links|, i requires 0 <= i < |links| => links[i].url)
  }

  // ---------------------------------------------------------------------
  // get_stats

  datatype Stats = Stats(
    totalConversations: nat,
    totalMessages: nat,
    averageMessages: real,
    botDistribution: map<string, nat>,
    botOrder: seq<string>,
    lastScraped: string)

  /** sum(len(conv.messages) for conv in conversations) */
  function TotalMessages(cs: seq<Conversation>): nat {
    if cs == [] then 0 else TotalMessages(cs[..|cs| - 1]) + |cs[|cs| - 1].messages|
  }

  /** The bot_counts dictionary the loop builds. */
  function BotCounts(cs: seq<Conversation>): map<string, nat> {
    if cs == [] then map[]
    else
      var counts := BotCounts(cs[..|cs| - 1]);
      var b := cs[|cs| - 1].botName;
      counts[b := (if b in counts then counts[b] else 0) + 1]
  }

  /** The key order of bot_counts: a dict keeps its keys in the order they
      were first inserted, which is the order of first occurrence. */
  function BotOrder(cs: seq<Conversation>): seq<string> {
    if cs == [] then []
    else
      var order := BotOrder(cs[..|cs| - 1]);
      var b := cs[|cs| - 1].botName;
      if b in order then order else order + [b]
  }

  /** The number of conversations with the given bot name. */
  function CountBot(cs: seq<Conversation>, b: string): nat {
    if cs == [] then 0 else (if cs[0].botName == b then 1 else 0) + CountBot(cs[1..], b)
  }

  ghost function SumValues(m: map<string, nat>): nat
    decreases |m|
  {
    if m == map[] then 0
    else
      var k :| k in m;
      m[k] + SumValues(m - {k})
  }

  lemma {:induction false} SumValuesRemove(m: map<string, nat>, k: string)
    requires k in m
    ensures SumValues(m) == m[k] + SumValues(m - {k})
    decreases |m|
  {
    var j :| j in m && SumValues(m) == m[j] + SumValues(m - {j});
    if j != k {
      assert |m - {j}| == |m| - 1;
      SumValuesRemove(m - {j}, k);
      assert |m - {k}| == |m| - 1;
      SumValuesRemove(m - {k}, j);
      assert (m - {j}) - {k} == (m - {k}) - {j};
    }
  }

  lemma SumValuesUpdate(m: map<string, nat>, k: string, v: nat)
    ensures SumValues(m[k := v]) == SumValues(m) - (if k in m then m[k] else 0) + v
  {
    var m' := m[k := v];
    SumValuesRemove(m', k);
    assert m' - {k} == m - {k};
    if k in m {
      SumValuesRemove(m, k);
    } else {
      assert m - {k} == m;
    }
  }

  lemma {:induction false} CountBotAppend(cs: seq<Conversation>, c: Conversation, b: string)
    ensures CountBot(cs + [c], b) == CountBot(cs, b) + (if c.botName == b then 1 else 0)
  {
    if cs != [] {
      assert (cs + [c])[1..] == cs[1..] + [c];
      CountBotAppend(cs[1..], c, b);
    } else {
      assert ([c])[1..] == [];
    }
  }

  /** The distribution's keys are exactly the bot names present. */
  lemma {:induction false} BotCountsKeys(cs: seq<Conversation>)
    ensures BotCounts(cs).Keys == set c | c in cs :: c.botName
  {
    if cs != [] {
      var n := |cs| - 1;
      assert cs == cs[..n] + [cs[n]];
      BotCountsKeys(cs[..n]);
      assert (set c | c in cs :: c.botName) == (set c | c in cs[..n] :: c.botName) + {cs[n].botName};
    }
  }

  /** The key order lists each key of the distribution exactly once. */
  lemma {:induction false} BotOrderKeys(cs: seq<Conversation>)
    ensures forall b :: b in BotOrder(cs) <==> b in BotCounts(cs)
    ensures forall i, j :: 0 <= i < j < |BotOrder(cs)| ==> BotOrder(cs)[i] != BotOrder(cs)[j]
  {
    if cs != [] {
      BotOrderKeys(cs[..|cs| - 1]);
    }
  }

  /** Bot a comes before bot b in the key order iff a's first conversation
      comes before b's. */
  lemma {:induction false} BotOrderFirstOccurrence(cs: seq<Conversation>, i: nat, j: nat)
    requires i < |BotOrder(cs)| && j < |BotOrder(cs)|
    ensures i < j <==> exists p ::
      && 0 <= p < |cs| && cs[p].botName == BotOrder(cs)[i]
      && forall q :: 0 <= q <= p ==> cs[q].botName != BotOrder(cs)[j]
  {
    if i < j {
      BotOrderBefore(cs, i, j);
    } else {
      // every occurrence of the i-th bot has the j-th bot at or before it
      var a, bj := BotOrder(cs)[i], BotOrder(cs)[j];
      if j < i {
        BotOrderBefore(cs, j, i);
      }
      forall p | 0 <= p < |cs| && cs[p].botName == a
        ensures exists q :: 0 <= q <= p && cs[q].botName == bj
      {
        if j < i {
          var p' :| && 0 <= p' < |cs| && cs[p'].botName == bj
            && forall q :: 0 <= q <= p' ==> cs[q].botName != a;
          assert 0 <= p' <= p;
        } else {
          assert 0 <= p <= p && cs[p].botName == bj;
        }
      }
    }
  }

  /** Earlier in the key order means an earlier first occurrence. */
  lemma {:induction false} BotOrderBefore(cs: seq<Conversation>, i: nat, j: nat)
    requires i < j < |BotOrder(cs)|
    ensures exists p ::
      && 0 <= p < |cs| && cs[p].botName == BotOrder(cs)[i]
      && forall q :: 0 <= q <= p ==> cs[q].botName != BotOrder(cs)[j]
  {
    var n := |cs| - 1;
    var prior := cs[..n];
    BotOrderKeys(prior);
    BotCountsKeys(prior);
    if j < |BotOrder(prior)| {
      BotOrderBefore(prior, i, j);
      var p :|
        && 0 <= p < |prior| && prior[p].botName == BotOrder(prior)[i]
        && forall q :: 0 <= q <= p ==> prior[q].botName != BotOrder(prior)[j];
      assert cs[p] == prior[p];
      forall q | 0 <= q <= p ensures cs[q].botName != BotOrder(cs)[j] {
        assert cs[q] == prior[q];
      }
    } else {
      // BotOrder(cs)[j] is cs[n]'s bot, absent from every earlier conversation
      var b := cs[n].botName;
      assert BotOrder(cs)[j] == b && b !in BotOrder(prior);
      var a := BotOrder(cs)[i];
      assert a == BotOrder(prior)[i];
      assert a in BotCounts(prior);
      var c :| c in prior && c.botName == a;
      var p :| 0 <= p < |prior| && prior[p] == c;
      assert cs[p] == prior[p];
      forall q | 0 <= q <= p ensures cs[q].botName != b {
        assert cs[q] == prior[q];
        assert cs[q] in prior;
      }
    }
  }

  /** Each count is the number of conversations with that bot, and is positive. */
  lemma {:induction false} BotCountsCount(cs: seq<Conversation>)
    ensures forall b :: b in BotCounts(cs) ==> BotCounts(cs)[b] == CountBot(cs, b) > 0
  {
    if cs != [] {
      var n := |cs| - 1;
      var prior := cs[..n];
      assert cs == prior + [cs[n]];
      BotCountsCount(prior);
      BotCountsKeys(prior);
      var counts := BotCounts(prior);
      forall x | x in BotCounts(cs) ensures BotCounts(cs)[x] == CountBot(cs, x) > 0 {
        CountBotAppend(prior, cs[n], x);
        if x !in counts {
          CountBotAbsent(prior, x);
        }
      }
    }
  }

  /** The counts add up to the number of conversations. */
  lemma {:induction false} BotCountsSum(cs: seq<Conversation>)
    ensures SumValues(BotCounts(cs)) == |cs|
  {
    if cs != [] {
      var n := |cs| - 1;
      BotCountsSum(cs[..n]);
      var counts := BotCounts(cs[..n]);
      var b := cs[n].botName;
      SumValuesUpdate(counts, b, (if b in counts then counts[b] else 0) + 1);
    } else {
      assert SumValues(map[]) == 0;
    }
  }

  lemma {:induction false} CountBotAbsent(cs: seq<Conversation>, b: string)
    requires b !in (set c | c in cs :: c.botName)
    ensures CountBot(cs, b) == 0
  {
    if cs != [] {
      assert cs[0] in cs;
      assert forall c :: c in cs[1..] ==> c in cs;
      CountBotAbsent(cs[1..], b);
    }
  }

  // ---------------------------------------------------------------------
  // fetch_page: `@rate_limiter` outside `@retry_on_failure(max_retries=3)`

  const FetchRetries := 3

  /** One fetch_page call: one limiter grant, then up to four transport
      attempts with waits of 1, 2 and 4 seconds between them, none of which
      goes through the limiter again. */
  method FetchPage<T, E>(limiter: Utils.RateLimiter, now: int, overshoot: int, transport: nat -> Result<T, E>)
    returns (outcome: Utils.RetryOutcome<T, E>, attempts: nat, waits: seq<real>)
    modifies limiter
    ensures limiter.lastCallTime == now + Utils.SleepBefore(now - old(limiter.lastCallTime)) + overshoot
    ensures limiter.lastCallTime >= old(limiter.lastCallTime) + Utils.MinInterval + overshoot
    ensures 1 <= attempts <= FetchRetries + 1
    ensures outcome.Returned? || outcome.Raised?
    ensures outcome.Returned? ==> transport(attempts - 1) == Success(outcome.value)
    ensures outcome.Raised? ==> attempts == FetchRetries + 1 && waits == [1.0, 2.0, 4.0]
    ensures outcome.Raised? ==> transport(FetchRetries) == Failure(outcome.error)
    ensures forall k :: 0 <= k < attempts - 1 ==> transport(k).Failure?
    ensures waits == Utils.BackoffSchedule(1.0, 2.0, attempts - 1)
  {
    var _ := limiter.Acquire(now, overshoot);
    outcome, attempts, waits := Utils.RetryOnFailure(transport, FetchRetries, 1.0, 2.0);
    Utils.DefaultBackoffSchedule();
  }

  // ---------------------------------------------------------------------
  // PoeScraper

  class PoeScraper {
    const config: ConfigModel.Config
    var conversations: seq<Conversation>
    var isRunning: bool

    ghost predicate Valid()
      reads this, config
    {
      config.Valid()
    }

    constructor (configFile: Option<ConfigModel.FileRead>)
      ensures Valid() && fresh(config)
      ensures config.Current() == ConfigModel.InitialSettings(configFile)
      ensures conversations == [] && !isRunning
    {
      config := new ConfigModel.Config(configFile);
      conversations := [];
      isRunning := false;
    }

    /** self.config.scraping.max_conversations */
    function ConfiguredMax(): Value
      reads this, config
      requires Valid()
    {
      config.scraping["max_conversations"]
    }

    /** stop_scraping only clears the flag. */
    method StopScraping()
      modifies this
      ensures !isRunning && conversations == old(conversations)
    {
      isRunning := false;
    }

    /** scrape_conversations. On success the stored and returned list is the
        records collected from the descriptors handled before the cleared flag
        was seen; on a raise the stored list is unchanged and no detail page
        was fetched. The flag is clear afterwards either way. */
    method ScrapeConversations(requested: Option<int>, index: Option<seq<IndexElement>>,
                               fetch: (nat, string) -> Option<DetailPage>, stopAt: Option<nat>, now: string)
      returns (result: Result<seq<Conversation>, ScrapeError>, fetchedUrls: seq<string>)
      requires Valid()
      modifies this
      ensures Valid() && !isRunning
      ensures var plan := Plan(requested, ConfiguredMax(), index);
        && (plan.Failure? ==>
              result == Failure(plan.error) && conversations == old(conversations) && fetchedUrls == [])
        && (plan.Success? ==>
              var handled := plan.value[..Processed(|plan.value|, stopAt)];
              && result == Success(Collected(handled, fetch, now))
              && conversations == result.value
              && fetchedUrls == Fetched(handled))
    {
      isRunning := true;
      fetchedUrls := [];
      var plan := PlanLinks(requested, index);
      if plan.Failure? {
        // the finally clause clears the flag; the exception propagates
        isRunning := false;
        return Failure(plan.error), [];
      }
      var links := plan.value;
      var collected := [];
      var i := 0;
      while i < |links|
        invariant 0 <= i <= |links|
        invariant Valid() && isRunning
        invariant stopAt.Some? ==> i <= stopAt.value
        invariant collected == Collected(links[..i], fetch, now)
        invariant fetchedUrls == Fetched(links[..i])
        invariant conversations == old(conversations)
      {
        if stopAt.Some? && stopAt.value == i {
          // The other thread's stop_scraping() has run by this boundary.
          StopScraping();
        }
        if !isRunning {
          break;
        }
        CollectedStep(links, i, fetch, now);
        fetchedUrls := fetchedUrls + [links[i].url];
        var conversation := ScrapeOne(links[i], i, fetch, now);
        if conversation.Some? {
          collected := collected + [conversation.value];
        }
        i := i + 1;
      }
      assert i == Processed(|links|, stopAt);
      conversations := collected;
      isRunning := false;
      result := Success(collected);
    }

    /** The part of scrape_conversations before the loop: the effective
        limit, the index fetch, the list parse and the cut to the limit. */
    method PlanLinks(requested: Option<int>, index: Option<seq<IndexElement>>)
      returns (plan: Result<seq<Descriptor>, ScrapeError>)
      requires Valid()
      ensures plan == Plan(requested, ConfiguredMax(), index)
    {
      var maxConv := EffectiveLimit(requested, config.scraping["max_conversations"]);
      if index.None? {
        return Failure(IndexFetchFailed);
      }
      var parsed := ParseConversationList(index.value);
      if parsed.Failure? {
        return Failure(parsed.error);
      }
      plan := LimitLinks(maxConv, parsed.value);
    }

    /** The loop's try block: fetch the detail page and parse it, or None
        when either raised and the item is skipped. */
    method ScrapeOne(link: Descriptor, i: nat, fetch: (nat, string) -> Option<DetailPage>, now: string)
      returns (conversation: Option<Conversation>)
      ensures fetch(i, link.url).None? ==> conversation.None?
      ensures fetch(i, link.url).Some? ==> conversation == Some(ConversationOf(fetch(i, link.url).value, link.id, now))
    {
      var page := fetch(i, link.url);
      if page.None? {
        return None;
      }
      var c := ParseConversationDetail(page.value, link.id, now);
      conversation := Some(c);
    }

    /** get_stats: {} without conversations, else the totals and the per-bot counts. */
    method GetStats(now: string) returns (stats: Option<Stats>)
      ensures stats.None? <==> conversations == []
      ensures stats.Some? ==>
        && stats.value.totalConversations == |conversations|
        && stats.value.totalMessages == TotalMessages(conversations)
        && stats.value.averageMessages == TotalMessages(conversations) as real / |conversations| as real
        && stats.value.botDistribution == BotCounts(conversations)
        && stats.value.botOrder == BotOrder(conversations)
        && stats.value.lastScraped == now
    {
      if conversations == [] {
        return None;
      }
      var totalMessages := TotalMessages(conversations);
      var botCounts: map<string, nat> := map[];
      var botOrder: seq<string> := [];
      var i := 0;
      while i < |conversations|
        invariant 0 <= i <= |conversations|
        invariant botCounts == BotCounts(conversations[..i])
        invariant botOrder == BotOrder(conversations[..i])
      {
        assert conversations[..i + 1][..i] == conversations[..i];
        BotOrderKeys(conversations[..i]);
        var botName := conversations[i].botName;
        if botName !in botCounts {
          botOrder := botOrder + [botName];
        }
        botCounts := botCounts[botName := (if botName in botCounts then botCounts[botName] else 0) + 1];
        i := i + 1;
      }
      assert conversations[..i] == conversations;
      stats := Some(Stats(|conversations|, totalMessages, totalMessages as real / |conversations| as real, botCounts, botOrder, now));
    }
  }
}
