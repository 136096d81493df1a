/** OTRS reply templates with `{PLACEHOLDER}` tokens, and the usage history
    that drives recommendations (storage keys `templates` and
    `templateUsages`). */
module TemplateStore {
  import opened Text
  import opened Values
  import opened Lists

  datatype Template = Template(
    id: string, name: string, category: string, tags: seq<string>,
    body: string, placeholders: seq<string>, createdAt: string)

  /** The fields `addTemplate` reads; '' stands for an absent string. */
  datatype TemplateInput = TemplateInput(name: string, category: string, tags: Option<seq<string>>, body: string)

  /** The fields the template editor passes to `updateTemplate`; None is a
      field the update object does not carry. */
  datatype TemplatePatch = TemplatePatch(
    name: Option<string>, category: Option<string>, tags: Option<seq<string>>, body: Option<string>)

  /** What a caller knows about the ticket; '' and [] stand for absent. */
  datatype TicketMeta = TicketMeta(ticketId: string, clientCode: string, queue: string, subject: string, keywords: seq<string>)

  datatype Usage = Usage(
    ts: string, templateId: string, ticketId: string, clientCode: string,
    queue: string, subject: string, keywords: seq<string>)

  const DEFAULT_NAME := "Без названия"
  const MAX_USAGES: nat := 2000
  const DEFAULT_RECOMMEND_LIMIT: int := 3

  // Placeholders: `/\{([A-Z_]+)\}/g`.

  predicate IsKeyChar(c: char) { 'A' <= c <= 'Z' || c == '_' }

  /** The longest prefix of s made of key characters. */
  function KeyRun(s: string): (w: string)
    ensures |w| <= |s| && w == s[..|w|]
    ensures forall j :: 0 <= j < |w| ==> IsKeyChar(w[j])
    ensures |w| < |s| ==> !IsKeyChar(s[|w|])
  {
    if s == [] || !IsKeyChar(s[0]) then [] else [s[0]] + KeyRun(s[1..])
  }

  /** The key of a placeholder starting at the head of t. */
  function PlaceholderAt(t: string): (k: Option<string>)
    ensures k.Some? ==> k.value != [] && |k.value| + 2 <= |t|
    ensures k.Some? ==> t[..|k.value| + 2] == "{" + k.value + "}"
    ensures k.Some? ==> forall j :: 0 <= j < |k.value| ==> IsKeyChar(k.value[j])
  {
    if t == [] || t[0] != '{' then None
    else
      var w := KeyRun(t[1..]);
      if w != [] && |w| + 1 < |t| && t[|w| + 1] == '}' then
        assert t[..|w| + 2] == [t[0]] + t[1..][..|w|] + [t[|w| + 1]];
        Some(w)
      else None
  }

  /** `(v || [])[0]`. */
  function FirstOf(v: Value): Value {
    if !v.Truthy() then Undefined
    else match v
      case List(items) => if items == [] then Undefined else Str(items[0])
      case Str(s) => Str([s[0]])
      case _ => Undefined
  }

  function Field(ctx: Record, name: string): Value {
    if name in ctx then ctx[name] else Undefined
  }

  /** `a || b`. */
  function Or(a: Value, b: Value): Value { if a.Truthy() then a else b }

  /** The value the replacement map gives a key. */
  function PlaceholderValue(key: string, ctx: Record): Value {
    if key == "CLIENT_CODE" then Field(ctx, "clientCode")
    else if key == "TICKET_NUMBER" then Or(Field(ctx, "ticketId"), Field(ctx, "ticketNumber"))
    else if key == "LINE_NUMBER" then Or(Field(ctx, "lineNumber"), FirstOf(Field(ctx, "lineNumbers")))
    else if key == "CLIENT_NAME" then Field(ctx, "clientName")
    else if key == "ATC_PLAN" then Field(ctx, "atcPlan")
    else Undefined
  }

  /** `resolveTemplatePlaceholders(body, context)`: each token whose mapped
      value is truthy becomes that value's text, every other token stays. */
  function ResolvePlaceholders(body: string, ctx: Record): string
    decreases |body|
  {
    if body == [] then []
    else match PlaceholderAt(body)
      case Some(key) =>
        var v := PlaceholderValue(key, ctx);
        (if v.Truthy() then v.Render() else "{" + key + "}") + ResolvePlaceholders(body[|key| + 2..], ctx)
      case None => [body[0]] + ResolvePlaceholders(body[1..], ctx)
  }

  /** The keys of the tokens of body, in the order the scan meets them. */
  function PlaceholderKeys(body: string): seq<string>
    decreases |body|
  {
    if body == [] then []
    else match PlaceholderAt(body)
      case Some(key) => [key] + PlaceholderKeys(body[|key| + 2..])
      case None => PlaceholderKeys(body[1..])
  }

  function Braced(keys: seq<string>): (ts: seq<string>)
    ensures |ts| == |keys|
    ensures forall i :: 0 <= i < |keys| ==> ts[i] == "{" + keys[i] + "}"
  {
    if keys == [] then [] else ["{" + keys[0] + "}"] + Braced(keys[1..])
  }

  /** `body.match(/\{[A-Z_]+\}/g) || []`: every token, braces included, in order. */
  function PlaceholderTokens(body: string): seq<string> {
    Braced(PlaceholderKeys(body))
  }

  /** `extractPlaceholders`: `[...new Set(matches)]`. */
  function ExtractPlaceholders(body: string): seq<string> {
    Dedup(PlaceholderTokens(body))
  }

  /** The stored placeholder list names each token of the body once, in the
      order the tokens first appear. */
  lemma ExtractPlaceholdersDistinct(body: string)
    ensures NoDup(ExtractPlaceholders(body))
    ensures forall t :: t in ExtractPlaceholders(body) <==> t in PlaceholderTokens(body)
    ensures forall i, j :: 0 <= i < j < |ExtractPlaceholders(body)| ==>
      FirstIndex(PlaceholderTokens(body), ExtractPlaceholders(body)[i])
        < FirstIndex(PlaceholderTokens(body), ExtractPlaceholders(body)[j])
  {
    DedupNoDup(PlaceholderTokens(body));
    DedupFirstSeenOrder(PlaceholderTokens(body));
  }

  /** An unbound token at the head is copied, braces included. */
  lemma UnboundTokenCopied(body: string, ctx: Record, key: string)
    requires PlaceholderAt(body) == Some(key) && !PlaceholderValue(key, ctx).Truthy()
    requires ResolvePlaceholders(body[|key| + 2..], ctx) == body[|key| + 2..]
    ensures ResolvePlaceholders(body, ctx) == body
  {
    assert body == body[..|key| + 2] + body[|key| + 2..];
  }

  /** A character that starts no token is copied. */
  lemma PlainCharCopied(body: string, ctx: Record)
    requires body != [] && PlaceholderAt(body).None?
    requires ResolvePlaceholders(body[1..], ctx) == body[1..]
    ensures ResolvePlaceholders(body, ctx) == body
  {
    assert body == [body[0]] + body[1..];
  }

  /** A body with no token whose value is truthy resolves to itself; in
      particular any body resolves to itself against an empty context. */
  lemma {:induction false} ResolveUnbound(body: string, ctx: Record)
    requires forall k :: k in PlaceholderKeys(body) ==> !PlaceholderValue(k, ctx).Truthy()
    ensures ResolvePlaceholders(body, ctx) == body
    decreases |body|
  {
    if body != [] {
      match PlaceholderAt(body)
      case Some(key) =>
        var rest := body[|key| + 2..];
        assert PlaceholderKeys(body) == [key] + PlaceholderKeys(rest);
        ResolveUnbound(rest, ctx);
        UnboundTokenCopied(body, ctx, key);
      case None =>
        ResolveUnbound(body[1..], ctx);
        PlainCharCopied(body, ctx);
    }
  }

  lemma {:induction false} KeyRunOfKey(key: string, rest: string)
    requires forall j :: 0 <= j < |key| ==> IsKeyChar(key[j])
    requires rest == [] || !IsKeyChar(rest[0])
    ensures KeyRun(key + rest) == key
  {
    if key != [] {
      assert (key + rest)[1..] == key[1..] + rest;
      KeyRunOfKey(key[1..], rest);
    } else {
      assert key + rest == rest;
    }
  }

  /** A braced key at the head of a text is recognised as that placeholder. */
  lemma PlaceholderOfKey(key: string, rest: string)
    requires key != [] && forall j :: 0 <= j < |key| ==> IsKeyChar(key[j])
    ensures PlaceholderAt("{" + key + "}" + rest) == Some(key)
  {
    var t := "{" + key + "}" + rest;
    assert t[1..] == key + ("}" + rest);
    KeyRunOfKey(key, "}" + rest);
    assert t[|key| + 1] == '}';
  }

  /** A token followed by text resolves to its value's text, when that is
      truthy, or to itself, followed by the resolved text. */
  lemma ResolveToken(key: string, rest: string, ctx: Record)
    requires key != [] && forall j :: 0 <= j < |key| ==> IsKeyChar(key[j])
    ensures var v := PlaceholderValue(key, ctx);
      ResolvePlaceholders("{" + key + "}" + rest, ctx)
        == (if v.Truthy() then v.Render() else "{" + key + "}") + ResolvePlaceholders(rest, ctx)
  {
    PlaceholderOfKey(key, rest);
    var t := "{" + key + "}" + rest;
    assert t[|key| + 2..] == rest;
  }

  /** `{TICKET_NUMBER}` takes `ticketId` when truthy, then `ticketNumber`. */
  lemma TicketNumberFallback(key: string, rest: string, ctx: Record)
    requires key == "TICKET_NUMBER"
    ensures var v := Or(Field(ctx, "ticketId"), Field(ctx, "ticketNumber"));
      ResolvePlaceholders("{" + key + "}" + rest, ctx)
        == (if v.Truthy() then v.Render() else "{" + key + "}") + ResolvePlaceholders(rest, ctx)
  {
    assert forall j :: 0 <= j < |key| ==> IsKeyChar(key[j]);
    ResolveToken(key, rest, ctx);
  }

  /** `{LINE_NUMBER}` takes `lineNumber` when truthy, then the first entry of
      `lineNumbers`. */
  lemma LineNumberFallback(key: string, rest: string, ctx: Record)
    requires key == "LINE_NUMBER"
    ensures Field(ctx, "lineNumber").Truthy() ==>
      ResolvePlaceholders("{" + key + "}" + rest, ctx) == Field(ctx, "lineNumber").Render() + ResolvePlaceholders(rest, ctx)
    ensures var ns := Field(ctx, "lineNumbers");
      (!Field(ctx, "lineNumber").Truthy() && ns.List? && ns.items != [] && ns.items[0] != "") ==>
      ResolvePlaceholders("{" + key + "}" + rest, ctx) == Field(ctx, "lineNumbers").items[0] + ResolvePlaceholders(rest, ctx)
  {
    assert forall j :: 0 <= j < |key| ==> IsKeyChar(key[j]);
    ResolveToken(key, rest, ctx);
  }

  // Records.

  /** The record `addTemplate` stores; the id and the clock are parameters. */
  function NewTemplate(input: TemplateInput, id: string, now: string): (t: Template)
    ensures t.name == (if input.name == "" then DEFAULT_NAME else input.name)
    ensures t.placeholders == ExtractPlaceholders(t.body) && t.body == input.body
    ensures t.id == id && t.createdAt == now
    ensures t.category == input.category
    ensures input.tags.None? ==> t.tags == []
    ensures input.tags.Some? ==> t.tags == input.tags.value
  {
    Template(id, if input.name == "" then DEFAULT_NAME else input.name, input.category,
      if input.tags.Some? then input.tags.value else [], input.body,
      ExtractPlaceholders(input.body), now)
  }

  /** `{ ...template, ...updates }`, then placeholders recomputed when the
      update carries a non-empty body. */
  function MergePatch(t: Template, p: TemplatePatch): Template {
    var m := Template(t.id,
      if p.name.Some? then p.name.value else t.name,
      if p.category.Some? then p.category.value else t.category,
      if p.tags.Some? then p.tags.value else t.tags,
      if p.body.Some? then p.body.value else t.body,
      t.placeholders, t.createdAt);
    if p.body.Some? && p.body.value != "" then m.(placeholders := ExtractPlaceholders(p.body.value)) else m
  }

  /** Carried fields overwrite, the others are kept, and the placeholders
      match the new body whenever one is given. An update that empties the
      body keeps the old placeholders. */
  lemma MergePatchFields(t: Template, p: TemplatePatch)
    ensures var m := MergePatch(t, p);
      && m.id == t.id && m.createdAt == t.createdAt
      && (p.name.None? ==> m.name == t.name) && (p.name.Some? ==> m.name == p.name.value)
      && (p.tags.None? ==> m.tags == t.tags) && (p.tags.Some? ==> m.tags == p.tags.value)
      && (p.category.None? ==> m.category == t.category) && (p.category.Some? ==> m.category == p.category.value)
      && (p.body.None? ==> m.body == t.body && m.placeholders == t.placeholders)
      && (p.body.Some? && p.body.value != "" ==> m.body == p.body.value && m.placeholders == ExtractPlaceholders(m.body))
      && (p.body == Some("") ==> m.body == "" && m.placeholders == t.placeholders)
  {
  }

  function TemplateId(t: Template): string { t.id }

  /** The search text: `${name} ${category} ${tags.join(' ')} ${body}`. */
  function TemplateHaystack(t: Template): string {
    t.name + " " + t.category + " " + Join(t.tags, " ") + " " + t.body
  }

  /** `searchTemplates(templates, query)`. */
  function SearchTemplates(templates: seq<Template>, query: string): (r: seq<Template>)
    ensures Blank(query) ==> r == templates
    ensures |r| <= |templates|
    ensures !Blank(query) ==> forall t :: t in r <==>
      t in templates && TermCount(Lower(TemplateHaystack(t)), Terms(query)) > 0
  {
    SearchMatches(templates, TemplateHaystack, query);
    Search(templates, TemplateHaystack, query)
  }

  /** The usage record `recordTemplateUsage` appends. */
  function NewUsage(meta: TicketMeta, templateId: string, now: string): Usage {
    Usage(now, templateId, meta.ticketId, meta.clientCode, meta.queue, meta.subject, meta.keywords)
  }

  /** The keywords of the ticket that the usage also carries, with repetition. */
  function KeywordHits(keywords: seq<string>, used: seq<string>): (n: nat)
    ensures n <= |keywords|
  {
    if keywords == [] then 0
    else
      var hit := if keywords[|keywords| - 1] in used then 1 else 0;
      KeywordHits(keywords[..|keywords| - 1], used) + hit
  }

  /** The relevance of one past usage to the ticket at hand. */
  function Relevance(u: Usage, meta: TicketMeta): (n: int)
    ensures 1 <= n <= 6 + |meta.keywords|
  {
    1 + (if meta.clientCode != "" && u.clientCode == meta.clientCode then 2 else 0)
      + (if meta.queue != "" && u.queue == meta.queue then 3 else 0)
      + KeywordHits(meta.keywords, u.keywords)
  }

  /** The `scores` dictionary after the loop over the usages. */
  function ScoreTable(usages: seq<Usage>, meta: TicketMeta): (table: map<string, int>)
    ensures forall id :: id in table ==> table[id] >= 1
  {
    if usages == [] then map[]
    else
      var table := ScoreTable(usages[..|usages| - 1], meta);
      var u := usages[|usages| - 1];
      table[u.templateId := (if u.templateId in table then table[u.templateId] else 0) + Relevance(u, meta)]
  }

  /** One more usage adds its relevance to its template's score. */
  lemma ScoreTableStep(usages: seq<Usage>, meta: TicketMeta, i: nat)
    requires i < |usages|
    ensures var t := ScoreTable(usages[..i], meta);
      var u := usages[i];
      ScoreTable(usages[..i + 1], meta) == t[u.templateId := (if u.templateId in t then t[u.templateId] else 0) + Relevance(u, meta)]
  {
    assert usages[..i + 1][..i] == usages[..i];
  }

  /** A template has a score exactly when some usage names it. */
  lemma {:induction false} ScoreTableKeys(usages: seq<Usage>, meta: TicketMeta, id: string)
    ensures id in ScoreTable(usages, meta) <==> exists i :: 0 <= i < |usages| && usages[i].templateId == id
  {
    if usages != [] {
      var p := usages[..|usages| - 1];
      ScoreTableKeys(p, meta, id);
      if exists i :: 0 <= i < |p| && p[i].templateId == id {
        var i :| 0 <= i < |p| && p[i].templateId == id;
        assert usages[i] == p[i];
      }
      if exists i :: 0 <= i < |usages| && usages[i].templateId == id {
        var i :| 0 <= i < |usages| && usages[i].templateId == id;
        if i < |p| { assert p[i] == usages[i]; }
      }
    }
  }

  /** Each template with its score, 0 for none. */
  function ScoreTemplates(all: seq<Template>, table: map<string, int>): (ps: seq<Scored<Template>>)
    ensures |ps| == |all|
    ensures forall i :: 0 <= i < |all| ==>
      ps[i].item == all[i] && ps[i].score == (if all[i].id in table then table[all[i].id] else 0)
  {
    if all == [] then []
    else
      var t := all[|all| - 1];
      ScoreTemplates(all[..|all| - 1], table) + [Scored(t, if t.id in table then table[t.id] else 0)]
  }

  /** `getRecommendedTemplates(meta, all, limit)` over the stored usages. */
  function Recommended(usages: seq<Usage>, meta: TicketMeta, all: seq<Template>, limit: int): seq<Template> {
    if usages == [] then []
    else HeadSlice(Items(SortDesc(Positive(ScoreTemplates(all, ScoreTable(usages, meta))))), limit)
  }

  /** With a usage history, the recommendations are the first `limit` of
      the sorted positively scored templates. */
  lemma RecommendedItems(usages: seq<Usage>, meta: TicketMeta, all: seq<Template>, limit: int)
    requires usages != []
    ensures var sorted := SortDesc(Positive(ScoreTemplates(all, ScoreTable(usages, meta))));
      var r := Recommended(usages, meta, all, limit);
      && |r| <= |sorted|
      && (limit >= 0 ==> |r| <= limit)
      && forall i :: 0 <= i < |r| ==> r[i] == sorted[i].item
  {
    var sorted := SortDesc(Positive(ScoreTemplates(all, ScoreTable(usages, meta))));
    var r := Recommended(usages, meta, all, limit);
    assert r == HeadSlice(Items(sorted), limit);
  }

  /** Recommendations: none without usage history; otherwise at most `limit`
      templates, each used at least once, ordered by descending score. */
  lemma RecommendedProperties(usages: seq<Usage>, meta: TicketMeta, all: seq<Template>, limit: int)
    ensures usages == [] ==> Recommended(usages, meta, all, limit) == []
    ensures var r := Recommended(usages, meta, all, limit);
      && |r| <= |all|
      && (limit >= 0 ==> |r| <= limit)
      && (forall i :: 0 <= i < |r| ==> r[i] in all && r[i].id in ScoreTable(usages, meta))
      && (forall i :: 0 <= i < |r| ==> exists k :: 0 <= k < |usages| && usages[k].templateId == r[i].id)
      && (forall i, j :: 0 <= i < j < |r| ==>
            ScoreTable(usages, meta)[r[i].id] >= ScoreTable(usages, meta)[r[j].id])
  {
    if usages != [] {
      var table := ScoreTable(usages, meta);
      var pos := Positive(ScoreTemplates(all, table));
      var sorted := SortDesc(pos);
      SortedTemplates(all, table);
      SortDescSorted(pos);
      assert |sorted| == |multiset(sorted)| == |multiset(pos)| == |pos|;
      RecommendedItems(usages, meta, all, limit);
      var r := Recommended(usages, meta, all, limit);
      forall i | 0 <= i < |r|
        ensures exists k :: 0 <= k < |usages| && usages[k].templateId == r[i].id
      {
        ScoreTableKeys(usages, meta, r[i].id);
      }
    }
  }

  /** A template that scores above zero is a stored template carrying its
      score from the table. */
  lemma PositiveTemplates(all: seq<Template>, table: map<string, int>)
    ensures forall x :: x in Positive(ScoreTemplates(all, table)) ==>
      x.item in all && x.item.id in table && x.score == table[x.item.id]
  {
    var scored := ScoreTemplates(all, table);
    forall x | x in Positive(scored)
      ensures x.item in all && x.item.id in table && x.score == table[x.item.id]
    {
      var m :| 0 <= m < |scored| && scored[m] == x;
    }
  }

  lemma SortedTemplates(all: seq<Template>, table: map<string, int>)
    ensures var sorted := SortDesc(Positive(ScoreTemplates(all, table)));
      && SortedDesc(sorted)
      && forall i :: 0 <= i < |sorted| ==>
           sorted[i].item in all && sorted[i].item.id in table && sorted[i].score == table[sorted[i].item.id]
  {
    var pos := Positive(ScoreTemplates(all, table));
    var sorted := SortDesc(pos);
    SortDescSorted(pos);
    PositiveTemplates(all, table);
    forall i | 0 <= i < |sorted|
      ensures sorted[i] in pos
    {
      assert sorted[i] in multiset(pos);
    }
  }

  /** `{ ...t, id: t.id || uuid, createdAt: t.createdAt || now }`. */
  function StampImported(t: Template, freshId: string, now: string): (s: Template)
    ensures t.id != "" ==> s.id == t.id
    ensures t.createdAt != "" ==> s.createdAt == t.createdAt
    ensures s.name == t.name && s.body == t.body && s.tags == t.tags && s.placeholders == t.placeholders
  {
    t.(id := if t.id != "" then t.id else freshId, createdAt := if t.createdAt != "" then t.createdAt else now)
  }

  class TemplateStorage {
    var templates: seq<Template>
    var usages: seq<Usage>

    ghost predicate Valid()
      reads this
    {
      |usages| <= MAX_USAGES
    }

    constructor()
      ensures Valid() && templates == [] && usages == []
    {
      templates := [];
      usages := [];
    }

    /** `addTemplate`: append one record. The uuid and the clock are parameters. */
    method AddTemplate(input: TemplateInput, freshId: string, now: string) returns (record: Template)
      modifies this
      ensures record == NewTemplate(input, freshId, now)
      ensures templates == old(templates) + [record] && usages == old(usages)
    {
      record := NewTemplate(input, freshId, now);
      templates := templates + [record];
    }

    /** `updateTemplate`: merge at the first record with the id, or return null. */
    method UpdateTemplate(id: string, patch: TemplatePatch) returns (r: Option<Template>)
      modifies this
      ensures usages == old(usages)
      ensures FindIndex(old(templates), TemplateId, id).None? ==> r.None? && templates == old(templates)
      ensures FindIndex(old(templates), TemplateId, id).Some? ==>
        var i := FindIndex(old(templates), TemplateId, id).value;
        r == Some(MergePatch(old(templates)[i], patch)) && templates == old(templates)[i := r.value]
    {
      var idx := FindIndex(templates, TemplateId, id);
      if idx.None? {
        return None;
      }
      var merged := MergePatch(templates[idx.value], patch);
      templates := templates[idx.value := merged];
      r := Some(merged);
    }

    method DeleteTemplate(id: string)
      modifies this
      ensures templates == Without(old(templates), TemplateId, id) && usages == old(usages)
    {
      templates := Without(templates, TemplateId, id);
    }

    /** `recordTemplateUsage`: append, then drop the oldest beyond 2000. */
    method RecordTemplateUsage(meta: TicketMeta, templateId: string, now: string)
      requires Valid()
      modifies this
      ensures Valid()
      ensures usages == Capped(old(usages) + [NewUsage(meta, templateId, now)], MAX_USAGES)
      ensures usages[|usages| - 1] == NewUsage(meta, templateId, now)
      ensures templates == old(templates)
    {
      var u := NewUsage(meta, templateId, now);
      AppendCapped(usages, u, MAX_USAGES);
      usages := usages + [u];
      if |usages| > MAX_USAGES {
        usages := usages[|usages| - MAX_USAGES..];
      }
    }

    /** `for (const kw of ticketMeta.keywords) if (usage.keywords.includes(kw)) relevance += 1`. */
    static method CountKeywordHits(keywords: seq<string>, used: seq<string>) returns (n: nat)
      ensures n == KeywordHits(keywords, used)
    {
      n := 0;
      for i := 0 to |keywords|
        invariant n == KeywordHits(keywords[..i], used)
      {
        assert keywords[..i + 1][..i] == keywords[..i];
        if keywords[i] in used {
          n := n + 1;
        }
      }
      assert keywords[..|keywords|] == keywords;
    }

    /** `getRecommendedTemplates`: score the usages in a loop, then keep the
        scored templates, best first, at most `limit`. */
    method GetRecommendedTemplates(meta: TicketMeta, all: seq<Template>, limit: int) returns (r: seq<Template>)
      ensures r == Recommended(usages, meta, all, limit)
    {
      if |usages| == 0 {
        return [];
      }
      var scores: map<string, int> := map[];
      for i := 0 to |usages|
        invariant scores == ScoreTable(usages[..i], meta)
      {
        var u := usages[i];
        var hits := CountKeywordHits(meta.keywords, u.keywords);
        var relevance := 1;
        if meta.clientCode != "" && u.clientCode == meta.clientCode {
          relevance := relevance + 2;
        }
        if meta.queue != "" && u.queue == meta.queue {
          relevance := relevance + 3;
        }
        relevance := relevance + hits;
        ScoreTableStep(usages, meta, i);
        scores := scores[u.templateId := (if u.templateId in scores then scores[u.templateId] else 0) + relevance];
      }
      assert usages[..|usages|] == usages;
      r := HeadSlice(Items(SortDesc(Positive(ScoreTemplates(all, scores)))), limit);
    }

    /** `importTemplates`: a non-array throws; otherwise append the stamped
        records and return the new length. */
    method ImportTemplates(imported: Option<seq<Template>>, freshIds: seq<string>, now: string)
      returns (r: Result<nat>)
      requires imported.Some? ==> |freshIds| == |imported.value|
      modifies this
      ensures imported.None? ==> r == Failure(NOT_AN_ARRAY) && templates == old(templates)
      ensures imported.Some? ==> templates == old(templates) + StampAll(imported.value, freshIds, now, StampImported)
      ensures imported.Some? ==> r == Ok(|old(templates)| + |imported.value|)
      ensures usages == old(usages)
    {
      if imported.None? {
        return Failure(NOT_AN_ARRAY);
      }
      templates := templates + StampAll(imported.value, freshIds, now, StampImported);
      r := Ok(|templates|);
    }
  }
}
