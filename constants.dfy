/** The search tables and URL builders (src/utils/constants.ts): a lookup by id that falls
    back to the table's first entry, then a single `replace` of the `{query}` placeholder
    with the encodeURIComponent-encoded query. */
module Constants {
  import opened Wrappers
  import opened Types
  import Ecma

  const Placeholder: string := "{query}"

  /** The URL templates, each written as its text before the placeholder followed by the
      placeholder. */
  const BaiduPrefix: string := "https://www.baidu.com/s?wd="
  const GooglePrefix: string := "https://www.google.com/search?q="
  const BingPrefix: string := "https://www.bing.com/search?q="
  const DuckDuckGoPrefix: string := "https://duckduckgo.com/?q="
  const QwenPrefix: string := "https://tongyi.aliyun.com/qianwen/?chatId="
  const GeminiPrefix: string := "https://gemini.google.com/app?q="
  const ChatGptPrefix: string := "https://chat.openai.com/?q="
  const ClaudePrefix: string := "https://claude.ai/new?q="
  const KimiPrefix: string := "https://kimi.moonshot.cn/?q="

  const BaiduTemplate: string := BaiduPrefix + Placeholder
  const GoogleTemplate: string := GooglePrefix + Placeholder
  const BingTemplate: string := BingPrefix + Placeholder
  const DuckDuckGoTemplate: string := DuckDuckGoPrefix + Placeholder
  const QwenTemplate: string := QwenPrefix + Placeholder
  const GeminiTemplate: string := GeminiPrefix + Placeholder
  const ChatGptTemplate: string := ChatGptPrefix + Placeholder
  const ClaudeTemplate: string := ClaudePrefix + Placeholder
  const KimiTemplate: string := KimiPrefix + Placeholder

  const SearchEngines: seq<SearchEngine> := [
    SearchEngine("baidu", "百度", BaiduTemplate, "🔍"),
    SearchEngine("google", "Google", GoogleTemplate, "🔍"),
    SearchEngine("bing", "必应", BingTemplate, "🔍"),
    SearchEngine("duckduckgo", "DuckDuckGo", DuckDuckGoTemplate, "🔍")
  ]

  const AIPlatforms: seq<SearchEngine> := [
    SearchEngine("qwen", "通义千问", QwenTemplate, "🤖"),
    SearchEngine("gemini", "Gemini", GeminiTemplate, "✨"),
    SearchEngine("chatgpt", "ChatGPT", ChatGptTemplate, "💬"),
    SearchEngine("claude", "Claude", ClaudeTemplate, "🧠"),
    SearchEngine("kimi", "Kimi", KimiTemplate, "🌙")
  ]

  /** `table.find(e => e.id === id)`, as the index of the first entry with that id. */
  function Find(table: seq<SearchEngine>, id: string): (r: Option<nat>)
    ensures r.Some? ==> r.value < |table| && table[r.value].id == id
    ensures r.Some? ==> forall j :: 0 <= j < r.value ==> table[j].id != id
    ensures r.None? <==> forall j :: 0 <= j < |table| ==> table[j].id != id
  {
    if table == [] then None
    else if table[0].id == id then Some(0)
    else match Find(table[1..], id)
      case None => None
      case Some(k) => Some(k + 1)
  }

  /** `find(...) || table[0]`: the entry with the id, or the first entry when none has it. */
  function Lookup(table: seq<SearchEngine>, id: string): (r: SearchEngine)
    requires |table| > 0
    ensures Find(table, id).Some? ==> r == table[Find(table, id).value] && r.id == id
    ensures Find(table, id).None? ==> r == table[0]
  {
    match Find(table, id)
    case Some(i) => table[i]
    case None => table[0]
  }

  /** `engine.url.replace('{query}', encodeURIComponent(query))`. */
  function BuildUrl(engine: SearchEngine, query: string): string
  {
    Ecma.Replace(engine.url, Placeholder, Ecma.EncodeURIComponent(query))
  }

  function BuildSearchUrl(engineId: string, query: string): (r: string)
    ensures Find(SearchEngines, engineId).Some? ==>
      r == BuildUrl(SearchEngines[Find(SearchEngines, engineId).value], query)
    ensures Find(SearchEngines, engineId).None? ==> r == BuildUrl(SearchEngines[0], query)
  {
    BuildUrl(Lookup(SearchEngines, engineId), query)
  }

  function BuildAIUrl(platformId: string, query: string): (r: string)
    ensures Find(AIPlatforms, platformId).Some? ==>
      r == BuildUrl(AIPlatforms[Find(AIPlatforms, platformId).value], query)
    ensures Find(AIPlatforms, platformId).None? ==> r == BuildUrl(AIPlatforms[0], query)
  {
    BuildUrl(Lookup(AIPlatforms, platformId), query)
  }

  /** A template: text without `{`, followed by the placeholder. */
  predicate WellFormedTemplate(url: string)
  {
    && |url| >= |Placeholder|
    && url[|url| - |Placeholder|..] == Placeholder
    && '{' !in url[..|url| - |Placeholder|]
  }

  /** The text of a template before its placeholder. */
  function TemplatePrefix(url: string): string
    requires WellFormedTemplate(url)
  {
    url[..|url| - |Placeholder|]
  }

  /** A template given as its text before the placeholder. */
  lemma TemplateOf(url: string, prefix: string)
    requires url == prefix + Placeholder
    requires '{' !in prefix
    ensures WellFormedTemplate(url) && TemplatePrefix(url) == prefix
  {
    assert url[..|url| - |Placeholder|] == prefix;
    assert url[|url| - |Placeholder|..] == Placeholder;
  }

  // Each template is its text before the placeholder, then the placeholder.

  lemma BaiduTemplateWellFormed()
    ensures WellFormedTemplate(BaiduTemplate) && TemplatePrefix(BaiduTemplate) == BaiduPrefix
  {
    TemplateOf(BaiduTemplate, BaiduPrefix);
  }

  lemma GoogleTemplateWellFormed()
    ensures WellFormedTemplate(GoogleTemplate) && TemplatePrefix(GoogleTemplate) == GooglePrefix
  {
    TemplateOf(GoogleTemplate, GooglePrefix);
  }

  lemma BingTemplateWellFormed()
    ensures WellFormedTemplate(BingTemplate) && TemplatePrefix(BingTemplate) == BingPrefix
  {
    TemplateOf(BingTemplate, BingPrefix);
  }

  lemma DuckDuckGoTemplateWellFormed()
    ensures WellFormedTemplate(DuckDuckGoTemplate) && TemplatePrefix(DuckDuckGoTemplate) == DuckDuckGoPrefix
  {
    TemplateOf(DuckDuckGoTemplate, DuckDuckGoPrefix);
  }

  lemma QwenTemplateWellFormed()
    ensures WellFormedTemplate(QwenTemplate) && TemplatePrefix(QwenTemplate) == QwenPrefix
  {
    TemplateOf(QwenTemplate, QwenPrefix);
  }

  lemma GeminiTemplateWellFormed()
    ensures WellFormedTemplate(GeminiTemplate) && TemplatePrefix(GeminiTemplate) == GeminiPrefix
  {
    TemplateOf(GeminiTemplate, GeminiPrefix);
  }

  lemma ChatGptTemplateWellFormed()
    ensures WellFormedTemplate(ChatGptTemplate) && TemplatePrefix(ChatGptTemplate) == ChatGptPrefix
  {
    TemplateOf(ChatGptTemplate, ChatGptPrefix);
  }

  lemma ClaudeTemplateWellFormed()
    ensures WellFormedTemplate(ClaudeTemplate) && TemplatePrefix(ClaudeTemplate) == ClaudePrefix
  {
    TemplateOf(ClaudeTemplate, ClaudePrefix);
  }

  lemma KimiTemplateWellFormed()
    ensures WellFormedTemplate(KimiTemplate) && TemplatePrefix(KimiTemplate) == KimiPrefix
  {
    TemplateOf(KimiTemplate, KimiPrefix);
  }

  /** Every search engine's template is well formed. */
  lemma SearchTemplate(i: nat)
    requires i < |SearchEngines|
    ensures WellFormedTemplate(SearchEngines[i].url)
  {
    if i == 0 {
      BaiduTemplateWellFormed();
    } else if i == 1 {
      GoogleTemplateWellFormed();
    } else if i == 2 {
      BingTemplateWellFormed();
    } else {
      DuckDuckGoTemplateWellFormed();
    }
  }

  /** Every AI platform's template is well formed. */
  lemma AITemplate(i: nat)
    requires i < |AIPlatforms|
    ensures WellFormedTemplate(AIPlatforms[i].url)
  {
    if i == 0 {
      QwenTemplateWellFormed();
    } else if i == 1 {
      GeminiTemplateWellFormed();
    } else if i == 2 {
      ChatGptTemplateWellFormed();
    } else if i == 3 {
      ClaudeTemplateWellFormed();
    } else {
      KimiTemplateWellFormed();
    }
  }

  /** Within each table no two entries share an id, so a lookup by id is unambiguous. */
  lemma IdsDistinct()
    ensures forall i, j :: 0 <= i < j < |SearchEngines| ==> SearchEngines[i].id != SearchEngines[j].id
    ensures forall i, j :: 0 <= i < j < |AIPlatforms| ==> AIPlatforms[i].id != AIPlatforms[j].id
  {
  }

  /** A well-formed template holds the placeholder exactly once: at its end. */
  lemma ExactlyOnePlaceholder(url: string)
    requires WellFormedTemplate(url)
    ensures Ecma.OccursAt(url, Placeholder, |url| - |Placeholder|)
    ensures forall i :: Ecma.OccursAt(url, Placeholder, i) ==> i == |url| - |Placeholder|
    ensures Ecma.IndexOf(url, Placeholder) == Some(|url| - |Placeholder|)
  {
    var n := |url| - |Placeholder|;
    forall i | Ecma.OccursAt(url, Placeholder, i) ensures i == n {
      assert url[i] == url[i..i + |Placeholder|][0] == '{';
    }
    assert Ecma.OccursAt(url, Placeholder, n);
  }

  /** A text without `{` does not contain the placeholder. */
  lemma NoBraceNoPlaceholder(s: string)
    requires '{' !in s
    ensures !Ecma.Contains(s, Placeholder)
  {
    forall i | 0 <= i <= |s| ensures !Ecma.OccursAt(s, Placeholder, i) {
      if i + |Placeholder| <= |s| {
        assert s[i..i + |Placeholder|][0] == s[i];
      }
    }
  }

  /** `replace` puts the encoded query where the placeholder was, at the template's end. */
  lemma BuildUrlFills(engine: SearchEngine, query: string)
    requires WellFormedTemplate(engine.url)
    ensures BuildUrl(engine, query) == TemplatePrefix(engine.url) + Ecma.EncodeURIComponent(query)
  {
    var url := engine.url;
    var n := |url| - |Placeholder|;
    var encoded := Ecma.EncodeURIComponent(query);
    ExactlyOnePlaceholder(url);
    Ecma.EncodedHasNoSpecials(query);
    Ecma.ReplaceLiteral(url, Placeholder, encoded);
    assert url[n + |Placeholder|..] == [];
    assert url[..n] + encoded + [] == url[..n] + encoded;
  }

  /** Filling a well-formed template: its text before the placeholder followed by the
      encoded query, from which the query decodes back. For the empty query that is the
      template with the placeholder deleted, and the result never holds the placeholder. */
  lemma BuildUrlShape(engine: SearchEngine, query: string)
    requires WellFormedTemplate(engine.url)
    ensures BuildUrl(engine, query) == TemplatePrefix(engine.url) + Ecma.EncodeURIComponent(query)
    ensures query == "" ==> BuildUrl(engine, query) == TemplatePrefix(engine.url)
    ensures Ecma.DecodeURIComponent(BuildUrl(engine, query)[|TemplatePrefix(engine.url)|..]) == Some(query)
    ensures !Ecma.Contains(BuildUrl(engine, query), Placeholder)
  {
    var prefix := TemplatePrefix(engine.url);
    var encoded := Ecma.EncodeURIComponent(query);
    BuildUrlFills(engine, query);
    var r := prefix + encoded;
    assert r[|prefix|..] == encoded;
    Ecma.EncodeURIComponentRoundTrip(query);
    if query == "" {
      assert encoded == [];
      assert r == prefix;
    }
    Ecma.EncodedHasNoSpecials(query);
    assert '{' !in r;
    NoBraceNoPlaceholder(r);
  }

  /** buildSearchUrl fills the looked-up engine's template: the engine with that id when
      there is one, Baidu's otherwise. */
  lemma BuildSearchUrlChoice(engineId: string, query: string)
    ensures var engine := Lookup(SearchEngines, engineId);
      && WellFormedTemplate(engine.url)
      && BuildSearchUrl(engineId, query) == TemplatePrefix(engine.url) + Ecma.EncodeURIComponent(query)
    ensures Find(SearchEngines, engineId).None? ==>
      BuildSearchUrl(engineId, query) == BaiduPrefix + Ecma.EncodeURIComponent(query)
  {
    var i := if Find(SearchEngines, engineId).Some? then Find(SearchEngines, engineId).value else 0;
    assert Lookup(SearchEngines, engineId) == SearchEngines[i];
    SearchTemplate(i);
    BuildUrlShape(SearchEngines[i], query);
    if i == 0 {
      BaiduTemplateWellFormed();
    }
  }

  /** buildAIUrl fills the looked-up platform's template: the platform with that id when
      there is one, Tongyi Qianwen's otherwise. */
  lemma BuildAIUrlChoice(platformId: string, query: string)
    ensures var platform := Lookup(AIPlatforms, platformId);
      && WellFormedTemplate(platform.url)
      && BuildAIUrl(platformId, query) == TemplatePrefix(platform.url) + Ecma.EncodeURIComponent(query)
    ensures Find(AIPlatforms, platformId).None? ==>
      BuildAIUrl(platformId, query) == QwenPrefix + Ecma.EncodeURIComponent(query)
  {
    var i := if Find(AIPlatforms, platformId).Some? then Find(AIPlatforms, platformId).value else 0;
    assert Lookup(AIPlatforms, platformId) == AIPlatforms[i];
    AITemplate(i);
    BuildUrlShape(AIPlatforms[i], query);
    if i == 0 {
      QwenTemplateWellFormed();
    }
  }
}
