/**
 * The autosupport dispatcher: choose the Wit.ai intent a message matches,
 * and build the reply from the guilds' canned responses.
 *
 * The Discord, Wit.ai and Tesseract calls are foreign: what they return is
 * an input of `GetResponse`, and what the dispatcher asks of them is part
 * of its result (`Dispatch`).
 */
module AutoSupport {
  import opened Wrappers
  import opened Config
  import opened JsString

  /** One candidate intent returned by Wit.ai. */
  datatype Intent = Intent(name: string, confidence: real)

  /** The inclusive confidence gate. */
  const Threshold: real := 0.95

  // ---------------------------------------------------------------------
  // Intent selection (getHighestConfidenceIntent)
  // ---------------------------------------------------------------------

  /** The reducer: `prev` survives only when it is strictly more confident. */
  function Keep(prev: Intent, current: Intent): Intent {
    if prev.confidence > current.confidence then prev else current
  }

  /**
   * `intents.reduce(Keep)` without an initial value: the first element
   * seeds the accumulator and the rest are folded in from left to right.
   * The result is a candidate at least as confident as every candidate.
   */
  function Reduce(intents: seq<Intent>): (r: Intent)
    requires |intents| > 0
    ensures r in intents
    ensures forall i :: 0 <= i < |intents| ==> intents[i].confidence <= r.confidence
  {
    if |intents| == 1 then intents[0]
    else Keep(Reduce(intents[..|intents| - 1]), intents[|intents| - 1])
  }

  /** Candidate `k` is a most confident one and every later candidate is strictly less confident. */
  ghost predicate IsLastMaximum(intents: seq<Intent>, k: int) {
    && 0 <= k < |intents|
    && (forall j :: 0 <= j < |intents| ==> intents[j].confidence <= intents[k].confidence)
    && (forall j :: k < j < |intents| ==> intents[j].confidence < intents[k].confidence)
  }

  /** At most one position is a last maximum. */
  lemma LastMaximumUnique(intents: seq<Intent>, j: int, k: int)
    requires IsLastMaximum(intents, j) && IsLastMaximum(intents, k)
    ensures j == k
  {
    // Equal confidence, so neither can lie strictly after the other.
    assert intents[j].confidence == intents[k].confidence;
  }

  /** The reduction returns the candidate at a last-maximum position. */
  lemma {:induction false} ReduceIsLastMaximum(intents: seq<Intent>) returns (k: nat)
    requires |intents| > 0
    ensures IsLastMaximum(intents, k) && Reduce(intents) == intents[k]
  {
    var n := |intents|;
    if n == 1 {
      k := 0;
    } else {
      var prefix := intents[..n - 1];
      var last := intents[n - 1];
      var kp := ReduceIsLastMaximum(prefix);
      assert Reduce(intents) == Keep(Reduce(prefix), last);
      if Reduce(prefix).confidence > last.confidence {
        k := kp;
        assert forall i :: 0 <= i < n - 1 ==> intents[i] == prefix[i];
      } else {
        k := n - 1;
        assert forall i :: 0 <= i < n - 1 ==> intents[i] == prefix[i];
      }
    }
  }

  /**
   * Tie-break: among candidates of equal maximal confidence the reduction
   * keeps the LAST one in delivered order, and that position is unique.
   */
  lemma ReduceSelectsLastMaximum(intents: seq<Intent>) returns (k: nat)
    requires |intents| > 0
    ensures IsLastMaximum(intents, k) && Reduce(intents) == intents[k]
    ensures forall j :: IsLastMaximum(intents, j) ==> j == k
  {
    k := ReduceIsLastMaximum(intents);
    forall j | IsLastMaximum(intents, j) ensures j == k {
      LastMaximumUnique(intents, j, k);
    }
  }

  /**
   * `getHighestConfidenceIntent`: nothing for an empty list; otherwise the
   * reduction's choice, provided its confidence reaches the gate.
   */
  function HighestConfidenceIntent(intents: seq<Intent>): (r: Option<Intent>)
    ensures |intents| == 0 ==> r.None?
    ensures r.Some? ==> r.value in intents && r.value.confidence >= Threshold
    ensures r.Some? ==> forall i :: 0 <= i < |intents| ==> intents[i].confidence <= r.value.confidence
    ensures r.None? ==> forall i :: 0 <= i < |intents| ==> intents[i].confidence < Threshold
  {
    if |intents| == 0 then None
    else
      var highest := Reduce(intents);
      if highest.confidence >= Threshold then Some(highest) else None
  }

  /** The selected intent, when there is one, is the last of the most confident candidates. */
  lemma SelectedIsLastMaximum(intents: seq<Intent>) returns (k: nat)
    requires HighestConfidenceIntent(intents).Some?
    ensures IsLastMaximum(intents, k) && HighestConfidenceIntent(intents) == Some(intents[k])
  {
    k := ReduceSelectsLastMaximum(intents);
  }

  /** Two equally confident candidates above the gate: the later one is selected, not the first seen. */
  lemma TieSelectsLater(a: Intent, b: Intent)
    requires a.confidence == b.confidence >= Threshold
    ensures HighestConfidenceIntent([a, b]) == Some(b)
  {
    var k := ReduceSelectsLastMaximum([a, b]);
  }

  // ---------------------------------------------------------------------
  // Response resolution
  // ---------------------------------------------------------------------

  /** Entry `e` of the response cache holds a configuration whose responses define `name`. */
  predicate Defines(e: (GuildId, Option<GuildConfig>), name: string) {
    e.1.Some? && name in e.1.value.values
  }

  /** Guild `i` is the last guild, in cache order, whose responses define `name`. */
  ghost predicate LastDefinition(cache: ResponseCache, name: string, i: int) {
    && 0 <= i < |cache|
    && Defines(cache[i], name)
    && forall j :: i < j < |cache| ==> !Defines(cache[j], name)
  }

  /**
   * The dev-mode merge of every guild's responses, in cache order, skipping
   * null entries; a later guild overwrites an earlier one.
   */
  function Aggregated(cache: ResponseCache): map<string, string> {
    if |cache| == 0 then map[]
    else
      var before := Aggregated(cache[..|cache| - 1]);
      match cache[|cache| - 1].1
      case None => before
      case Some(g) => before + g.values
  }

  /** A name no guild defines is not in the merge. */
  lemma {:induction false} AggregatedUndefined(cache: ResponseCache, name: string)
    requires forall j :: 0 <= j < |cache| ==> !Defines(cache[j], name)
    ensures name !in Aggregated(cache)
  {
    var n := |cache|;
    if n > 0 {
      var prefix := cache[..n - 1];
      assert forall j :: 0 <= j < n - 1 ==> prefix[j] == cache[j];
      AggregatedUndefined(prefix, name);
      assert !Defines(cache[n - 1], name);
    }
  }

  /** A name some guild defines is in the merge, with the value of the last guild that defines it. */
  lemma {:induction false} AggregatedLast(cache: ResponseCache, name: string, i: int)
    requires LastDefinition(cache, name, i)
    ensures name in Aggregated(cache) && Aggregated(cache)[name] == cache[i].1.value.values[name]
  {
    var n := |cache|;
    var prefix := cache[..n - 1];
    if i < n - 1 {
      assert forall j :: 0 <= j < n - 1 ==> prefix[j] == cache[j];
      assert LastDefinition(prefix, name, i);
      AggregatedLast(prefix, name, i);
      assert !Defines(cache[n - 1], name);
    }
  }

  /**
   * The nested loops of dev mode: for each guild in cache order, copy every
   * response of a non-null configuration into one collection.
   */
  method AggregateResponses(cache: ResponseCache) returns (aggregated: map<string, string>)
    ensures aggregated == Aggregated(cache)
  {
    aggregated := map[];
    var i := 0;
    while i < |cache|
      invariant 0 <= i <= |cache|
      invariant aggregated == Aggregated(cache[..i])
    {
      var guildResponses := cache[i].1;
      if guildResponses.Some? {
        var values := guildResponses.value.values;
        var pending := values.Keys;
        ghost var before := aggregated;
        while pending != {}
          invariant pending <= values.Keys
          invariant aggregated.Keys == before.Keys + (values.Keys - pending)
          invariant forall k :: k in values.Keys - pending ==> aggregated[k] == values[k]
          invariant forall k :: k in before.Keys && k !in values.Keys - pending ==> aggregated[k] == before[k]
          decreases pending
        {
          var key :| key in pending;
          aggregated := aggregated[key := values[key]];
          pending := pending - {key};
        }
        assert aggregated == before + values;
      }
      assert cache[..i + 1][..i] == cache[..i];
      i := i + 1;
    }
    assert cache[..i] == cache;
  }

  /**
   * The response text for the selected intent. Dev mode reads the merge of
   * all guilds; normal mode reads only the message's own guild. Missing
   * configuration or an unmapped intent gives "".
   */
  function ResolveResponse(cfg: BotConfig, cache: ResponseCache, g: GuildId, name: string): (r: string)
    ensures !DevMode(cfg) && Get(cache, g).Some? && name in Get(cache, g).value.values ==>
      r == Get(cache, g).value.values[name]
    ensures !DevMode(cfg) && (Get(cache, g).None? || name !in Get(cache, g).value.values) ==> r == ""
  {
    if DevMode(cfg) then
      var aggregated := Aggregated(cache);
      if name in aggregated then aggregated[name] else ""
    else
      match Get(cache, g)
      case Some(c) => if name in c.values then c.values[name] else ""
      case None => ""
  }

  /**
   * Dev mode: the response is the value of the last guild in cache order
   * whose responses define the intent, and "" when no guild defines it.
   */
  lemma DevModeResponse(cfg: BotConfig, cache: ResponseCache, g: GuildId, name: string)
    requires DevMode(cfg)
    ensures (forall j :: 0 <= j < |cache| ==> !Defines(cache[j], name)) ==> ResolveResponse(cfg, cache, g, name) == ""
    ensures forall i :: LastDefinition(cache, name, i) ==>
      ResolveResponse(cfg, cache, g, name) == cache[i].1.value.values[name]
  {
    if forall j :: 0 <= j < |cache| ==> !Defines(cache[j], name) {
      AggregatedUndefined(cache, name);
    }
    forall i | LastDefinition(cache, name, i)
      ensures ResolveResponse(cfg, cache, g, name) == cache[i].1.value.values[name]
    {
      AggregatedLast(cache, name, i);
    }
  }

  /** In normal mode the response depends on the message's own guild entry and on nothing else in the cache. */
  lemma NormalModeIsolation(cfg: BotConfig, cache: ResponseCache, other: ResponseCache, g: GuildId, name: string)
    requires !DevMode(cfg) && Get(cache, g) == Get(other, g)
    ensures ResolveResponse(cfg, cache, g, name) == ResolveResponse(cfg, other, g, name)
  {
  }

  /** The footer line of every reply. */
  function Footer(name: string, percent: string): string {
    "\n-# triggered intent " + name + " with " + percent + "% confidence"
  }

  /**
   * The reply content: the trimmed response followed by the footer, even
   * when the response is empty. Both parts can be read back from it.
   */
  function Reply(response: string, name: string, percent: string): (r: string)
    ensures |r| == |Trim(response)| + |Footer(name, percent)|
    ensures r[..|Trim(response)|] == Trim(response)
    ensures r[|Trim(response)|..] == Footer(name, percent)
  {
    Trim(response) + Footer(name, percent)
  }

  // ---------------------------------------------------------------------
  // The dispatcher (getResponse)
  // ---------------------------------------------------------------------

  /** An attachment of a message; `contentType` may be null. */
  datatype Attachment = Attachment(url: string, contentType: Option<string>)

  /** The parts of a Discord message the dispatcher reads; `guildId` is None outside a guild. */
  datatype Message = Message(content: string, attachments: seq<Attachment>, guildId: Option<GuildId>)

  /** What the dispatcher asks Wit.ai: the token key it picks, the token found under it, and the utterance. */
  datatype WitRequest = WitRequest(tokenKey: Option<string>, accessToken: Option<string>, utterance: string)

  /** What one dispatch does: the image it gives to OCR, the Wit.ai request, and the reply it sends. */
  datatype Dispatch = Dispatch(ocrUrl: Option<string>, wit: Option<WitRequest>, reply: Option<string>)

  /** Neither guard returns early: the message has content or an attachment, and it is in a guild. */
  predicate Eligible(m: Message) {
    (|m.content| > 0 || |m.attachments| > 0) && m.guildId.Some?
  }

  /** `attachment?.contentType?.startsWith("image")` for the first attachment. */
  predicate HasImage(m: Message) {
    |m.attachments| > 0 && m.attachments[0].contentType.Some? && StartsWith(m.attachments[0].contentType.value, "image")
  }

  /** The token key: the first configured key in dev mode, the message's guild otherwise. */
  function WitTokenKey(cfg: BotConfig, g: GuildId): (r: Option<string>)
    ensures DevMode(cfg) ==> (r.Some? <==> |cfg.witAiServerToken| > 0)
    ensures DevMode(cfg) && r.Some? ==> r.value == cfg.witAiServerToken[0].0
    ensures !DevMode(cfg) ==> r == Some(g)
  {
    if DevMode(cfg) then FirstTokenKey(cfg) else Some(g)
  }

  /** The response text of the selected intent, looked up as the current mode says. */
  method ResponseContent(cfg: BotConfig, cache: ResponseCache, guildId: GuildId, name: string) returns (responseContent: string)
    ensures responseContent == ResolveResponse(cfg, cache, guildId, name)
  {
    responseContent := "";
    if DevMode(cfg) {
      var aggregatedResponses := AggregateResponses(cache);
      responseContent := if name in aggregatedResponses then aggregatedResponses[name] else "";
    } else {
      var guildResponses := Get(cache, guildId);
      if guildResponses.Some? {
        responseContent := if name in guildResponses.value.values then guildResponses.value.values[name] else "";
      }
    }
  }

  /**
   * `getResponse`. `ocr` is what Tesseract recognises in the first
   * attachment (None: it threw); `nlu` is the intent list Wit.ai returns
   * (None: the client or the call threw); `toFixed2` formats a percentage.
   * Any exception ends the dispatch silently.
   */
  method GetResponse(cfg: BotConfig, cache: ResponseCache, message: Message,
                     ocr: Option<string>, nlu: Option<seq<Intent>>, toFixed2: real -> string)
    returns (d: Dispatch)
    ensures !Eligible(message) ==> d == Dispatch(None, None, None)
    ensures Eligible(message) ==>
      d.ocrUrl == (if HasImage(message) then Some(message.attachments[0].url) else None)
    ensures d.wit.Some? <==> Eligible(message) && (HasImage(message) ==> ocr.Some?)
    ensures d.wit.Some? ==>
      && d.wit.value.tokenKey == (if DevMode(cfg) then FirstTokenKey(cfg) else message.guildId)
      && d.wit.value.accessToken == AccessToken(cfg, d.wit.value.tokenKey)
      && d.wit.value.utterance == message.content + "\n" + (if HasImage(message) then ocr.value else "")
    ensures d.reply.Some? <==> d.wit.Some? && nlu.Some? && HighestConfidenceIntent(nlu.value).Some?
    ensures d.reply.Some? ==>
      var intent := HighestConfidenceIntent(nlu.value).value;
      d.reply.value == Reply(ResolveResponse(cfg, cache, message.guildId.value, intent.name),
                             intent.name, toFixed2(intent.confidence * 100.0))
  {
    d := Dispatch(None, None, None);
    if |message.content| == 0 && |message.attachments| == 0 {
      return;
    }
    if message.guildId.None? {
      return;
    }
    var guildId := message.guildId.value;
    var imageText := "";

    if HasImage(message) {
      d := d.(ocrUrl := Some(message.attachments[0].url));
      if ocr.None? {
        return;
      }
      imageText := ocr.value;
    }

    var key := WitTokenKey(cfg, guildId);
    var request := WitRequest(key, AccessToken(cfg, key), message.content + "\n" + imageText);
    assert request.tokenKey == if DevMode(cfg) then FirstTokenKey(cfg) else message.guildId;
    d := d.(wit := Some(request));
    if nlu.None? {
      return;
    }

    if |nlu.value| == 0 {
      return;
    }
    var selectedIntent := HighestConfidenceIntent(nlu.value);

    if selectedIntent.Some? {
      var intent := selectedIntent.value;
      var responseContent := ResponseContent(cfg, cache, guildId, intent.name);
      d := d.(reply := Some(Reply(responseContent, intent.name, toFixed2(intent.confidence * 100.0))));
    }
  }

  /** The worked example's selection: 0.97 clears the gate and beats 0.3. */
  lemma ExampleSelection()
    ensures HighestConfidenceIntent([Intent("reset_password", 0.97), Intent("greeting", 0.3)])
         == Some(Intent("reset_password", 0.97))
  {
    var intents := [Intent("reset_password", 0.97), Intent("greeting", 0.3)];
    assert intents[..1] == [intents[0]];
  }

  /** The worked example's reply text: the canned answer, already trimmed, then the footer. */
  lemma ExampleReply()
    ensures Reply("Visit /reset", "reset_password", "97.00") == "Visit /reset" + Footer("reset_password", "97.00")
  {
    TrimOfTrimmed("Visit /reset");
  }

  /** The worked example: a confident "reset_password" match is answered with its canned text and the footer. */
  method ExampleConfidentMatch(toFixed2: real -> string)
    requires toFixed2(0.97 * 100.0) == "97.00"
  {
    var cfg := BotConfig("", [("g1", "token")]);
    var cache: ResponseCache := [("g1", Some(GuildConfig(map["reset_password" := "Visit /reset"], "r1")))];
    var message := Message("how do I reset my password?", [], Some("g1"));
    var intents := [Intent("reset_password", 0.97), Intent("greeting", 0.3)];
    ExampleSelection();
    ExampleReply();
    assert ResolveResponse(cfg, cache, "g1", "reset_password") == "Visit /reset" by {
      assert IndexOf(cache, "g1") == 0;
    }
    var d := GetResponse(cfg, cache, message, None, Some(intents), toFixed2);
    assert d.reply == Some("Visit /reset" + Footer("reset_password", "97.00"));
  }

  /** The same message matched with confidence 0.80 gets no reply. */
  method ExampleUnsureMatch(toFixed2: real -> string)
  {
    var cfg := BotConfig("", [("g1", "token")]);
    var cache: ResponseCache := [("g1", Some(GuildConfig(map["reset_password" := "Visit /reset"], "r1")))];
    var message := Message("how do I reset my password?", [], Some("g1"));
    var d := GetResponse(cfg, cache, message, None, Some([Intent("reset_password", 0.80)]), toFixed2);
    assert d.reply == None;
  }
}
