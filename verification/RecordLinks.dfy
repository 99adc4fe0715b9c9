/**
 * The links between the records of one run, said without lookups: which records a card, a packet and the
 * inputs of a review have to name, and when the stages' checks accept them.
 */
module RecordLinks {
  import opened EvidenceCards
  import opened EvidenceModels
  import opened BridgePackets
  import opened FeedbackLineage
  import opened Ordering
  import opened Wrappers

  // ---- cards -----------------------------------------------------------------------------------------

  /** Passage `p` of the card was found by query `q`, through hit `h`. */
  ghost predicate Behind(run: Run, c: Card, p: Passage, h: Hit, q: Query) {
    && p in run.passages && p.id in c.passageIds && h in run.hits && h.id == p.hitId && Found(run, h, q)
  }

  /** Some query behind the card was issued for this rule. */
  ghost predicate Leads(run: Run, c: Card, rule: string) {
    exists p, h, q :: Behind(run, c, p, h, q) && q.rule == Some(rule)
  }

  /** The passage is known, its hit is known, and so are all queries of the hit. */
  ghost predicate Known(run: Run, id: string) {
    exists p, h :: p in run.passages && p.id == id && h in run.hits && h.id == p.hitId
                   && forall k :: k in h.queryIds ==> exists q :: q in run.queries && q.id == k
  }

  ghost predicate Unambiguous(run: Run) {
    Unique(run.passages, PassageId) && Unique(run.hits, HitId) && Unique(run.queries, QueryId)
  }

  lemma PassageIs(run: Run, p: Passage)
    requires Unambiguous(run) && p in run.passages
    ensures PassageOf(run, p.id) == Some(p)
    ensures forall h :: h in run.hits ==> (HitOf(run, p) == Some(h) <==> h.id == p.hitId)
  {
    LookupOwn(run.passages, PassageId, p);
    forall h | h in run.hits ensures HitOf(run, p) == Some(h) <==> h.id == p.hitId { LookupOwn(run.hits, HitId, h); }
  }

  lemma PassageKnownIff(run: Run, id: string)
    requires Unambiguous(run)
    ensures PassageClosed(run, id) <==> Known(run, id)
  {
    forall p | p in run.passages ensures PassageOf(run, p.id) == Some(p) { PassageIs(run, p); }
    forall h | h in run.hits ensures HitClosed(run, h) <==> forall k :: k in h.queryIds ==> exists q :: q in run.queries && q.id == k {
      FoundIs(run, h);
    }
    if Known(run, id) {
      var p, h :| p in run.passages && p.id == id && h in run.hits && h.id == p.hitId
                  && forall k :: k in h.queryIds ==> exists q :: q in run.queries && q.id == k;
      PassageIs(run, p);
    }
    hide Lookup, Unique, HitClosed, Found;
    if PassageClosed(run, id) {
      var p := PassageOf(run, id).value;
      var h := HitOf(run, p).value;
      assert p in run.passages && p.id == id && h in run.hits && h.id == p.hitId;
    }
  }

  /** A card is closed when all its passages are known, and belongs to the rules that queries behind it were issued for. */
  lemma CardLinks(run: Run, c: Card)
    requires Unambiguous(run)
    ensures CardClosed(run, c) <==> forall id :: id in c.passageIds ==> Known(run, id)
    ensures CardClosed(run, c) ==> forall r :: r in CardRules(run, c) <==> Leads(run, c, r)
  {
    forall id ensures PassageClosed(run, id) <==> Known(run, id) { PassageKnownIff(run, id); }
    if CardClosed(run, c) {
      forall r ensures r in CardRules(run, c) <==> Leads(run, c, r) { RuleLeads(run, c, r); }
    }
  }

  lemma RuleLeads(run: Run, c: Card, r: string)
    requires Unambiguous(run) && CardClosed(run, c)
    ensures r in CardRules(run, c) <==> Leads(run, c, r)
  {
    forall h | h in run.hits ensures r in RuleIds(run, h) <==> exists q :: Found(run, h, q) && q.rule == Some(r) { FoundIs(run, h); }
    if Leads(run, c, r) {
      var p, h, q :| Behind(run, c, p, h, q) && q.rule == Some(r);
      PassageIs(run, p);
      assert PassageClosed(run, p.id);
    }
    hide Lookup, Unique, HitClosed, Found, RuleIds;
    if r in CardRules(run, c) {
      var id :| id in c.passageIds && r in RuleIds(run, HitOf(run, PassageOf(run, id).value).value);
      assert PassageClosed(run, id);
      var p := PassageOf(run, id).value;
      var h := HitOf(run, p).value;
      assert h in run.hits && p in run.passages && p.id == id && h.id == p.hitId;
      var q :| Found(run, h, q) && q.rule == Some(r);
      assert Behind(run, c, p, h, q);
    }
  }

  // ---- packets ---------------------------------------------------------------------------------------

  ghost predicate HasTag(graph: Graph, id: string, kind: TagKind) { exists t :: t in graph.tags && t.id == id && t.kind == kind }

  ghost predicate Tagged(graph: Graph, id: string) { exists t :: t in graph.tags && t.id == id }

  /** All queries of the hit are known and carry known tags, and those that were issued for a rule were issued for this one. */
  ghost predicate HitSupports(run: Run, h: Hit, rule: string) {
    && (forall k :: k in h.queryIds ==> exists q :: q in run.queries && q.id == k)
    && forall q :: Found(run, h, q) ==>
         (forall t :: t in q.tagIds ==> Tagged(run.graph, t)) && (q.kind.Direct? || q.rule == Some(rule))
  }

  ghost predicate PassageSupports(run: Run, id: string, rule: string) {
    exists p, h ::
      && p in run.passages && p.id == id && h in run.hits && h.id == p.hitId && h.documentId == p.documentId
      && (forall t :: t in p.matchedTagIds ==> Tagged(run.graph, t))
      && HitSupports(run, h, rule)
  }

  ghost predicate CardSupports(run: Run, c: Card, rule: string) {
    && (forall t :: t in c.mechanismTagIds ==> HasTag(run.graph, t, Mechanism))
    && forall id :: id in c.passageIds ==> PassageSupports(run, id, rule)
  }

  ghost predicate RuleCloses(graph: Graph, rule: Rule) {
    && (forall t :: t in rule.sourceTagIds ==> HasTag(graph, t, AnalogyDomain))
    && (forall t :: t in rule.requiredTagIds ==> HasTag(graph, t, Mechanism))
    && forall t :: t in rule.targetTagIds || t in rule.suggestedTagIds ==> Tagged(graph, t)
  }

  /** The packet's own cards. */
  ghost predicate Packed(cards: seq<Card>, p: Packet, c: Card) { c in cards && c.id in p.cardIds }

  /** A passage of the card was found by a bridge query, and its hit closes. */
  ghost predicate Bridged(run: Run, c: Card) {
    exists p, h, q :: Behind(run, c, p, h, q) && q.kind == Bridge && Known(run, p.id)
  }

  /** What a finished packet has to satisfy. */
  ghost predicate PacketCloses(run: Run, cards: seq<Card>, p: Packet) {
    && p.rule in run.graph.rules && p.rule.id == p.ruleId && RuleCloses(run.graph, p.rule)
    && (forall id :: id in p.cardIds ==> exists c :: c in cards && c.id == id)
    && (forall c :: Packed(cards, p, c) ==> CardSupports(run, c, p.ruleId))
    && (exists c :: Packed(cards, p, c) && c.relation == Support && Bridged(run, c))
    && forall t :: t in p.rule.requiredTagIds ==> exists c :: Packed(cards, p, c) && c.relation == Support && t in c.mechanismTagIds
  }

  lemma TagLinks(graph: Graph, id: string)
    requires Unique(graph.tags, TagId)
    ensures forall kind :: KindIs(graph, id, kind) <==> HasTag(graph, id, kind)
    ensures Lookup(graph.tags, TagId, id).Some? <==> Tagged(graph, id)
  {
    forall t | t in graph.tags ensures Lookup(graph.tags, TagId, t.id) == Some(t) { LookupOwn(graph.tags, TagId, t); }
    hide Lookup, Unique;
  }

  lemma HitLinks(run: Run, h: Hit, rule: Rule)
    requires Unique(run.queries, QueryId) && Unique(run.graph.tags, TagId)
    ensures HitValidFor(run, h, rule) <==> HitSupports(run, h, rule.id)
  {
    forall q | q in run.queries ensures Lookup(run.queries, QueryId, q.id) == Some(q) { LookupOwn(run.queries, QueryId, q); }
    forall id ensures Lookup(run.graph.tags, TagId, id).Some? <==> Tagged(run.graph, id) { TagLinks(run.graph, id); }
    hide Lookup, Unique, Tagged;
    if HitValidFor(run, h, rule) {
      forall q | Found(run, h, q)
        ensures (forall t :: t in q.tagIds ==> Tagged(run.graph, t)) && (q.kind.Direct? || q.rule == Some(rule.id))
      {
        var k := q.id;
        assert k in h.queryIds && Lookup(run.queries, QueryId, k) == Some(q);
      }
    }
    if HitSupports(run, h, rule.id) {
      forall k | k in h.queryIds
        ensures Lookup(run.queries, QueryId, k).Some? && Found(run, h, Lookup(run.queries, QueryId, k).value)
      {
        var q :| q in run.queries && q.id == k;
      }
    }
  }

  lemma PassageSupportsIff(run: Run, id: string, rule: Rule)
    requires Unambiguous(run) && Unique(run.graph.tags, TagId)
    ensures PassageValidFor(run, id, rule) <==> PassageSupports(run, id, rule.id)
  {
    forall h | h in run.hits ensures HitValidFor(run, h, rule) <==> HitSupports(run, h, rule.id) { HitLinks(run, h, rule); }
    forall t ensures Lookup(run.graph.tags, TagId, t).Some? <==> Tagged(run.graph, t) { TagLinks(run.graph, t); }
    forall p | p in run.passages ensures PassageOf(run, p.id) == Some(p) { PassageIs(run, p); }
    if PassageSupports(run, id, rule.id) {
      var p, h :| p in run.passages && p.id == id && h in run.hits && h.id == p.hitId && h.documentId == p.documentId
                  && (forall t :: t in p.matchedTagIds ==> Tagged(run.graph, t)) && HitSupports(run, h, rule.id);
      PassageIs(run, p);
    }
    hide Lookup, Unique, HitValidFor, HitSupports, Tagged;
  }

  lemma CardSupportsIff(run: Run, c: Card, rule: Rule)
    requires Unambiguous(run) && Unique(run.graph.tags, TagId)
    ensures CardValidFor(run, c, rule) <==> CardSupports(run, c, rule.id)
  {
    forall id ensures PassageValidFor(run, id, rule) <==> PassageSupports(run, id, rule.id) { PassageSupportsIff(run, id, rule); }
    forall t ensures KindIs(run.graph, t, Mechanism) <==> HasTag(run.graph, t, Mechanism) { TagLinks(run.graph, t); }
    hide KindIs, HasTag, PassageValidFor, PassageSupports;
  }

  lemma BridgedIff(run: Run, c: Card)
    requires Unambiguous(run)
    ensures ReachedByBridge(run, c) <==> c.relation == Support && Bridged(run, c)
  {
    forall h | h in run.hits ensures Bridge in Kinds(run, h) <==> exists q :: Found(run, h, q) && q.kind == Bridge { FoundIs(run, h); }
    forall id ensures PassageClosed(run, id) <==> Known(run, id) { PassageKnownIff(run, id); }
    if Bridged(run, c) {
      var p, h, q :| Behind(run, c, p, h, q) && q.kind == Bridge && Known(run, p.id);
      PassageIs(run, p);
      assert FoundByBridge(run, p.id);
    }
    hide Lookup, Unique, HitClosed, Found, Kinds, Known;
    if c.relation.Support? && exists id :: id in c.passageIds && FoundByBridge(run, id) {
      var id :| id in c.passageIds && FoundByBridge(run, id);
      assert PassageClosed(run, id);
      BridgeBehind(run, c, id);
    }
  }

  lemma BridgeBehind(run: Run, c: Card, id: string)
    requires Unambiguous(run) && id in c.passageIds && FoundByBridge(run, id)
    ensures Bridged(run, c)
  {
    PassageKnownIff(run, id);
    var p := PassageOf(run, id).value;
    var h := HitOf(run, p).value;
    FoundIs(run, h);
    var q :| Found(run, h, q) && q.kind == Bridge;
    hide Lookup, Unique, HitClosed, Found, Kinds, Known;
    assert Behind(run, c, p, h, q);
  }

  lemma RuleClosesIff(graph: Graph, rule: Rule)
    requires Unique(graph.tags, TagId)
    ensures RuleTagsValid(graph, rule) <==> RuleCloses(graph, rule)
  {
    forall id
      ensures Lookup(graph.tags, TagId, id).Some? <==> Tagged(graph, id)
      ensures KindIs(graph, id, AnalogyDomain) <==> HasTag(graph, id, AnalogyDomain)
      ensures KindIs(graph, id, Mechanism) <==> HasTag(graph, id, Mechanism)
    {
      TagLinks(graph, id);
    }
    assert forall id, kind :: HasTag(graph, id, kind) ==> Tagged(graph, id);
    hide KindIs, HasTag, Tagged, Lookup, Unique;
  }

  /** The closure check accepts a packet, built by anyone over any run, exactly when it closes. */
  lemma PacketValidIff(run: Run, cards: seq<Card>, p: Packet)
    requires Unambiguous(run) && Unique(run.graph.tags, TagId) && Unique(run.graph.rules, RuleId) && Unique(cards, CardId)
    ensures PacketValid(run, cards, p) <==> PacketCloses(run, cards, p)
  {
    RuleClosesIff(run.graph, p.rule);
    forall c ensures c in PacketCards(cards, p) <==> Packed(cards, p, c) {}
    forall c: Card
      ensures CardValidFor(run, c, p.rule) <==> CardSupports(run, c, p.rule.id)
      ensures ReachedByBridge(run, c) <==> c.relation == Support && Bridged(run, c)
    {
      CardSupportsIff(run, c, p.rule);
      BridgedIff(run, c);
    }
    assert Lookup(run.graph.rules, RuleId, p.ruleId) == Some(p.rule) <==> p.rule in run.graph.rules && p.rule.id == p.ruleId by {
      if p.rule in run.graph.rules { LookupOwn(run.graph.rules, RuleId, p.rule); }
    }
    forall id ensures Lookup(cards, CardId, id).Some? <==> exists c :: c in cards && c.id == id {}
    hide RuleTagsValid, RuleCloses, CardValidFor, CardSupports, ReachedByBridge, Bridged, Lookup, Unique, PacketCards, Packed;
  }

  // ---- the bridge stage --------------------------------------------------------------------------------

  /** The members of a set, listed in order and once each. */
  ghost predicate Lists(s: seq<string>, members: set<string>) { StrictlySorted(s) && forall x :: x in s <==> x in members }

  /** All that leads from a card to rules leads to one. */
  ghost predicate OneLead(run: Run, c: Card) { forall r, t :: Leads(run, c, r) && Leads(run, c, t) ==> r == t }

  ghost predicate Covered(run: Run, cards: seq<Card>, rule: Rule) {
    forall t :: t in rule.requiredTagIds ==> Carried(run, cards, rule.id, t)
  }

  /** The builder takes exactly inputs whose cards are known and span no rules, and whose queries name known rules. */
  lemma BridgeInputsIff(run: Run, cards: seq<Card>)
    requires Unambiguous(run) && Unique(cards, CardId)
    ensures BridgeAccepts(run, cards) <==>
              && (forall q :: q in run.queries && q.rule.Some? ==> HasRule(run.graph, q.rule.value))
              && forall c :: c in cards ==> (forall id :: id in c.passageIds ==> Known(run, id)) && OneLead(run, c)
  {
    forall c: Card
      ensures CardClosed(run, c) <==> forall id :: id in c.passageIds ==> Known(run, id)
      ensures CardClosed(run, c) ==> (|CardRules(run, c)| <= 1 <==> OneLead(run, c))
    {
      CardLinks(run, c);
      if CardClosed(run, c) {
        AtMostOne(CardRules(run, c));
        hide CardRules, Leads, Known, CardClosed;
      }
    }
    forall r ensures Lookup(run.graph.rules, RuleId, r).Some? <==> HasRule(run.graph, r) {}
    hide Lookup, Unique, CardClosed, CardRules, Known, OneLead, HasRule;
  }

  /**
   * A rule gets its packet when SUPPORT cards it led to carry all tags it requires and it was queried at
   * all. The packet lists the cards the rule led to and the texts of its queries, in order.
   */
  lemma PacketMeans(run: Run, cards: seq<Card>, rule: Rule, idOf: PacketKey -> string)
    requires Unambiguous(run) && forall c :: c in cards ==> CardClosed(run, c)
    ensures Supported(run, cards, rule) <==> Covered(run, cards, rule)
    ensures WantsPacket(run, cards, rule) <==> Covered(run, cards, rule) && exists q :: q in run.queries && q.rule == Some(rule.id)
    ensures var p := PacketFor(run, cards, rule, idOf);
            && p.ruleId == rule.id && p.rule == rule && p.id == idOf(PacketKey(rule.id, p.cardIds, p.queries))
            && Lists(p.cardIds, set c | c in cards && Leads(run, c, rule.id) :: c.id)
            && Lists(p.queries, set q | q in run.queries && q.rule == Some(rule.id) :: q.text)
  {
    hide CardRules, Leads, CardClosed, Unique, Sorted, StrictlySorted;
    PacketLists(run, cards, rule, idOf);
    SupportTagsAre(run, cards, rule.id);
    TextsOrNone(run, rule.id);
    hide SupportTags, QueryTexts, PacketFor, Carried, Lists;
  }

  lemma PacketLists(run: Run, cards: seq<Card>, rule: Rule, idOf: PacketKey -> string)
    requires Unambiguous(run) && forall c :: c in cards ==> CardClosed(run, c)
    ensures var p := PacketFor(run, cards, rule, idOf);
            && p.ruleId == rule.id && p.rule == rule && p.id == idOf(PacketKey(rule.id, p.cardIds, p.queries))
            && Lists(p.cardIds, set c | c in cards && Leads(run, c, rule.id) :: c.id)
            && Lists(p.queries, set q | q in run.queries && q.rule == Some(rule.id) :: q.text)
  {
    forall c | c in cards ensures rule.id in CardRules(run, c) <==> Leads(run, c, rule.id) { CardLinks(run, c); }
    hide CardRules, Leads, CardClosed, Unique, Sorted, StrictlySorted;
    assert CardIdsFor(run, cards, rule.id) == set c | c in cards && Leads(run, c, rule.id) :: c.id;
    SortedIsSorted(CardIdsFor(run, cards, rule.id));
    SortedIsSorted(QueryTexts(run, rule.id));
  }

  /** A SUPPORT card the rule led to carries the tag. */
  ghost predicate Carried(run: Run, cards: seq<Card>, rule: string, t: string) {
    exists c :: c in cards && c.relation == Support && Leads(run, c, rule) && t in c.mechanismTagIds
  }

  lemma SupportTagsAre(run: Run, cards: seq<Card>, rule: string)
    requires Unambiguous(run) && forall c :: c in cards ==> CardClosed(run, c)
    ensures forall t :: t in SupportTags(run, cards, rule) <==> Carried(run, cards, rule, t)
  {
    forall c | c in cards ensures rule in CardRules(run, c) <==> Leads(run, c, rule) { CardLinks(run, c); }
    hide CardRules, Leads, CardClosed, Unique;
  }

  lemma TextsOrNone(run: Run, rule: string)
    ensures QueryTexts(run, rule) != {} <==> exists q :: q in run.queries && q.rule == Some(rule)
  {
    forall q | q in run.queries && q.rule == Some(rule) ensures q.text in QueryTexts(run, rule) {}
  }

  /** A skipped rule is reported with the required tags no SUPPORT card carries, or as not queried when none is missing. */
  lemma SkipMeans(run: Run, cards: seq<Card>, rule: Rule)
    requires Unambiguous(run) && forall c :: c in cards ==> CardClosed(run, c)
    ensures var s := SkipOf(run, cards, rule);
            if Covered(run, cards, rule) then s == NotQueried(rule.id)
            else
              && s.MissingSupport? && s.ruleId == rule.id && StrictlySorted(s.missing)
              && forall t :: t in s.missing <==> t in rule.requiredTagIds && !Carried(run, cards, rule.id, t)
  {
    SupportTagsAre(run, cards, rule.id);
    hide CardRules, Leads, CardClosed, Unique, SupportTags, Sorted, StrictlySorted, Carried;
    SortedIsSorted((set t | t in rule.requiredTagIds) - SupportTags(run, cards, rule.id));
  }

  // ---- the inputs of a review ----------------------------------------------------------------------------

  ghost predicate Executed(n: Inputs, id: string) { exists q :: q in n.executed && q.id == id }

  ghost predicate Planned(n: Inputs, id: string) { exists q :: q in n.planned && q.id == id }

  ghost predicate QueriesLink(n: Inputs) {
    && n.planned != []
    && (forall q :: q in n.executed ==> q in n.planned && exists a :: a in n.attempts && a.queryId == q.id && a.success)
    && (forall q :: q in n.planned ==> forall t :: t in q.tagIds ==> Tagged(n.graph, t))
    && (forall q :: q in n.planned && q.rule.Some? ==> HasRule(n.graph, q.rule.value))
    && (forall a :: a in n.attempts ==> Planned(n, a.queryId))
  }

  ghost predicate DocumentsLink(n: Inputs) {
    && (forall h, id :: h in n.hits && id in h.queryIds ==> Executed(n, id))
    && (forall p :: p in n.passages ==> exists h :: h in n.hits && h.id == p.hitId && h.documentId == p.documentId)
    && (forall v :: v in n.vectors ==> exists p :: p in n.passages && p.id == v.passageId)
    && (forall f, id :: f in n.fetches && id in f.queryIds ==> Executed(n, id))
  }

  ghost predicate CardsLink(n: Inputs) {
    forall c :: c in n.cards ==> c.passageIds != [] && (forall id :: id in c.passageIds ==> Known(RunOf(n), id)) && OneLead(RunOf(n), c)
  }

  /** The cards a packet of the review names, all of which its rule led to. */
  ghost predicate PacketLinks(n: Inputs, p: Packet) {
    && p.cardIds != []
    && (forall id :: id in p.cardIds ==> exists c :: c in n.cards && c.id == id && Leads(RunOf(n), c, p.ruleId))
    && exists rule :: rule in n.graph.rules && rule.id == p.ruleId &&
         forall t :: t in rule.requiredTagIds ==> exists c :: Packed(n.cards, p, c) && c.relation == Support && t in c.mechanismTagIds
  }

  ghost predicate Keyed(n: Inputs) {
    && Unambiguous(RunOf(n)) && Unique(n.cards, CardId) && Unique(n.graph.tags, TagId) && Unique(n.graph.rules, RuleId)
  }

  lemma QueriesLinkIff(n: Inputs)
    requires Keyed(n)
    ensures QueriesAccepted(n) <==> QueriesLink(n)
  {
    forall q | q in n.planned ensures Lookup(n.planned, QueryId, q.id) == Some(q) { LookupOwn(n.planned, QueryId, q); }
    forall t ensures Lookup(n.graph.tags, TagId, t).Some? <==> Tagged(n.graph, t) { TagLinks(n.graph, t); }
    forall r ensures Lookup(n.graph.rules, RuleId, r).Some? <==> HasRule(n.graph, r) {}
    forall id ensures id in Ids(n.planned) <==> Planned(n, id) {}
    hide Lookup, Unique, Tagged, HasRule, Ids, Planned;
  }

  lemma DocumentsLinkIff(n: Inputs)
    requires Keyed(n)
    ensures DocumentsAccepted(n) <==> DocumentsLink(n)
  {
    forall h | h in n.hits ensures Lookup(n.hits, HitId, h.id) == Some(h) { LookupOwn(n.hits, HitId, h); }
    forall id ensures id in Ids(n.executed) <==> Executed(n, id) {}
    forall id ensures PassageOf(RunOf(n), id).Some? <==> exists p :: p in n.passages && p.id == id {}
    hide Lookup, Unique, Ids, Executed;
  }

  lemma CardsLinkIff(n: Inputs)
    requires Keyed(n)
    ensures CardsClosed(n) <==> CardsLink(n)
  {
    var run := RunOf(n);
    forall c: Card
      ensures CardClosed(run, c) <==> forall id :: id in c.passageIds ==> Known(run, id)
      ensures CardClosed(run, c) ==> (|CardRules(run, c)| <= 1 <==> OneLead(run, c))
    {
      CardLinks(run, c);
      if CardClosed(run, c) {
        AtMostOne(CardRules(run, c));
        hide CardRules, Leads, Known, CardClosed;
      }
    }
    hide CardClosed, CardRules, Known, OneLead, Unique;
  }

  lemma PacketLinksIff(n: Inputs, p: Packet)
    requires Keyed(n) && CardsClosed(n)
    ensures PacketOk(n, p) <==> PacketLinks(n, p)
  {
    forall c | c in n.cards
      ensures CardById(n, c.id) == Some(c) && (p.ruleId in CardRules(RunOf(n), c) <==> Leads(RunOf(n), c, p.ruleId))
    {
      LookupOwn(n.cards, CardId, c);
      CardLinks(RunOf(n), c);
    }
    forall rule | rule in n.graph.rules ensures Lookup(n.graph.rules, RuleId, rule.id) == Some(rule) { LookupOwn(n.graph.rules, RuleId, rule); }
    hide CardRules, Leads, Lookup, Unique, CardsClosed, CardClosed;
    if PacketLinks(n, p) {
      forall id | id in p.cardIds ensures CardById(n, id).Some? && p.ruleId in CardRules(RunOf(n), CardById(n, id).value) {
        var c :| c in n.cards && c.id == id && Leads(RunOf(n), c, p.ruleId);
      }
    }
  }

  /** The checks before the rows accept exactly inputs whose records all link up. */
  lemma LinksIff(n: Inputs)
    requires Keyed(n)
    ensures LinksAccepted(n) <==>
              && QueriesLink(n) && DocumentsLink(n) && CardsLink(n)
              && (forall p :: p in n.packets ==> PacketLinks(n, p))
              && forall i, j :: 0 <= i < j < |n.packets| ==> n.packets[i].ruleId != n.packets[j].ruleId
  {
    QueriesLinkIff(n);
    DocumentsLinkIff(n);
    CardsLinkIff(n);
    if CardsClosed(n) {
      forall p | p in n.packets ensures PacketOk(n, p) <==> PacketLinks(n, p) { PacketLinksIff(n, p); }
    }
    hide QueriesAccepted, DocumentsAccepted, CardsClosed, PacketOk, QueriesLink, DocumentsLink, CardsLink, PacketLinks, Keyed;
  }
}
