/**
 * Runs on which the exact conditions of the evidence pipeline fail: a supported rule whose packet is
 * refused, a review refused because a row cannot hold its tags, and a card traced to the wrong query.
 */
module PipelineLimits {
  import opened BridgePackets
  import opened EvidenceCards
  import opened EvidenceModels
  import opened FeedbackLineage
  import opened FeedbackReview
  import Normalizing
  import opened Ordering
  import opened Wrappers

  /** Identifiers of different lengths. */
  function Name(i: nat): string { seq(i + 1, _ => 'x') }

  const TAGS := 48

  function MechanismTags(): seq<Tag> { seq(TAGS, i requires 0 <= i < TAGS => Tag(Name(i), Mechanism)) }

  const DOMAIN := Tag("a", AnalogyDomain)

  function SiteRule(source: string): Rule { Rule("r", [source], [Name(0)], [Name(0)], [Name(0)], ["condition"], ["breaking"]) }

  const QUERY := Query("q", Bridge, "text", [Name(0)], Some("r"))
  const HIT := Hit("h", "d", ["q"])

  /** The `i`-th passage matched sixteen tags of its own. */
  function PassageTag(i: nat, j: nat): string { Name(16 * i + j) }

  function PassageTags(i: nat): seq<string> { seq(16, j requires 0 <= j < 16 => PassageTag(i, j)) }

  function SitePassage(i: nat): Passage { Passage(Name(i), "h", "d", "text", PassageTags(i)) }

  /** One rule, one bridge query, one hit, and up to three passages. */
  function Site(passages: nat, source: string): Run {
    Run(Graph(MechanismTags() + [DOMAIN], [SiteRule(source)]), [QUERY], [HIT], seq(passages, i requires 0 <= i < passages => SitePassage(i)))
  }

  lemma TagIsThere(run: Run, i: nat)
    requires run.graph.tags == MechanismTags() + [DOMAIN] && i < TAGS
    ensures Unique(run.graph.tags, TagId)
    ensures Lookup(run.graph.tags, TagId, Name(i)) == Some(Tag(Name(i), Mechanism))
    ensures Lookup(run.graph.tags, TagId, "a") == Some(DOMAIN)
  {
    var tags := run.graph.tags;
    forall j, k | 0 <= j < k < |tags| ensures TagId(tags[j]) != TagId(tags[k]) {
      if k < TAGS { assert |TagId(tags[j])| == j + 1 && |TagId(tags[k])| == k + 1; }
      else { assert TagId(tags[j])[0] == 'x'; }
    }
    assert tags[i] in tags && tags[TAGS] in tags;
    LookupOwn(tags, TagId, tags[i]);
    LookupOwn(tags, TagId, tags[TAGS]);
  }

  lemma SiteGraph(passages: nat, source: string)
    requires source == "a" || source == Name(1)
    ensures Site(passages, source).graph.Valid()
  {
    var rule := SiteRule(source);
    TagIsThere(Site(passages, source), 0);
    TagIsThere(Site(passages, source), 1);
    assert Name(0)[0] == 'x' && |Name(0)| == 1 && |Name(1)| == 2;
    assert rule.Valid();
  }

  lemma SiteLookups(passages: nat, source: string, p: Passage)
    requires p.hitId == "h"
    ensures var run := Site(passages, source);
            && HitOf(run, p) == Some(HIT) && HitClosed(run, HIT) && RuleIds(run, HIT) == {"r"} && Kinds(run, HIT) == {Bridge}
            && Lookup(run.queries, QueryId, "q") == Some(QUERY) && Lookup(run.graph.rules, RuleId, "r") == Some(SiteRule(source))
  {
    var run := Site(passages, source);
    LookupOwn(run.queries, QueryId, QUERY);
    LookupOwn(run.hits, HitId, HIT);
    LookupOwn(run.graph.rules, RuleId, SiteRule(source));
    hide Lookup;
    assert HIT.queryIds == ["q"];
    assert RuleIds(run, HIT) == {"r"};
    assert Kinds(run, HIT) == {Bridge};
  }

  /** The sixteen matched tags are mechanism tags, and there are no more. */
  lemma SiteMechanisms(run: Run, p: Passage, i: nat)
    requires run.graph.tags == MechanismTags() + [DOMAIN] && p.matchedTagIds == PassageTags(i) && i < 3
    ensures TagsKnown(run.graph, p.matchedTagIds) && |MechanismSet(run.graph, p)| <= MAX_MECHANISM_TAGS
    ensures forall j: nat :: j < 16 ==> PassageTag(i, j) in MechanismSet(run.graph, p)
  {
    forall j: nat | j < 16
      ensures PassageTag(i, j) in p.matchedTagIds
      ensures Lookup(run.graph.tags, TagId, PassageTag(i, j)) == Some(Tag(PassageTag(i, j), Mechanism))
    {
      assert PassageTags(i)[j] == PassageTag(i, j);
      TagIsThere(run, 16 * i + j);
    }
    hide Lookup, Name, MechanismTags, PassageTag;
    forall t | t in p.matchedTagIds ensures Lookup(run.graph.tags, TagId, t).Some? {
      var j :| 0 <= j < 16 && p.matchedTagIds[j] == t;
      assert t == PassageTag(i, j);
    }
    var matched := set t | t in p.matchedTagIds;
    SetOfSeq(p.matchedTagIds);
    assert MechanismSet(run.graph, p) <= matched;
    SubsetSize(MechanismSet(run.graph, p), matched);
  }

  lemma SitePassageOk(passages: nat, source: string, i: nat)
    requires passages <= 3 && i < passages
    ensures var run := Site(passages, source);
            var p := run.passages[i];
            PassageAccepted(run, p) && forall j: nat :: j < 16 ==> PassageTag(i, j) in MechanismSet(run.graph, p)
  {
    var run := Site(passages, source);
    var p := run.passages[i];
    SiteLookups(passages, source, p);
    SiteMechanisms(run, p, i);
    hide Lookup, Name, MechanismTags, PassageTag, MechanismSet, TagsKnown, RuleIds, Kinds, HitClosed, HitOf, PassageTags;
    assert forall r :: r in RuleIds(run, HIT) ==> r == "r";
  }

  lemma {:induction false} SetOfSeq(s: seq<string>)
    ensures |set x | x in s| <= |s|
  {
    if s != [] {
      var init, last := s[..|s| - 1], s[|s| - 1];
      SetOfSeq(init);
      assert s == init + [last];
      assert (set x | x in s) == (set x | x in init) + {last};
    }
  }

  /** The cards of such a run. */
  function SiteCards(passages: nat, source: string, idOf: CardKey -> string): seq<Card>
    requires passages <= 3
  {
    assert forall p :: p in Site(passages, source).passages ==> PassageAccepted(Site(passages, source), p) by {
      forall i | 0 <= i < passages ensures PassageAccepted(Site(passages, source), Site(passages, source).passages[i]) {
        SitePassageOk(passages, source, i);
      }
    }
    CardsOf(Site(passages, source), Site(passages, source).passages, idOf)
  }

  lemma SitePassages(passages: nat, source: string)
    requires passages <= 3
    ensures var run := Site(passages, source);
            Unique(run.passages, PassageId) && forall p :: p in run.passages ==> PassageAccepted(run, p)
  {
    hide PassageAccepted, PassageTags, MechanismTags, MechanismSet;
    var run := Site(passages, source);
    forall p | p in run.passages ensures PassageAccepted(run, p) {
      var i :| 0 <= i < passages && run.passages[i] == p;
      SitePassageOk(passages, source, i);
    }
    forall j, k | 0 <= j < k < |run.passages| ensures PassageId(run.passages[j]) != PassageId(run.passages[k]) {
      assert |PassageId(run.passages[j])| == j + 1 && |PassageId(run.passages[k])| == k + 1;
    }
  }

  lemma SiteIsEvidence(passages: nat, source: string, idOf: CardKey -> string)
    requires passages <= 3 && InjectiveIds(idOf) && (source == "a" || source == Name(1))
    ensures FromEvidence(Site(passages, source), SiteCards(passages, source, idOf), Site(passages, source).passages, idOf)
  {
    SiteGraph(passages, source);
    SitePassages(passages, source);
    var run := Site(passages, source);
    hide PassageAccepted, InjectiveIds, CardsOf, Name, MechanismTags, SitePassage, Lookup, SiteRule;
    assert run.queries == [QUERY] && run.hits == [HIT];
    hide Site;
  }

  /** A SUPPORT card of the rule carries the sixteen tags of passage `i`. */
  ghost predicate CarriesTags(run: Run, cards: seq<Card>, i: nat) {
    exists c :: c in cards && c.relation.Support? && CardClosed(run, c) && "r" in CardRules(run, c)
                && forall j: nat :: j < 16 ==> PassageTag(i, j) in c.mechanismTagIds
  }

  lemma SiteCard(passages: nat, source: string, i: nat, idOf: CardKey -> string)
    requires passages <= 3 && i < passages && InjectiveIds(idOf) && (source == "a" || source == Name(1))
    ensures CarriesTags(Site(passages, source), SiteCards(passages, source, idOf), i)
  {
    var run, cards := Site(passages, source), SiteCards(passages, source, idOf);
    var p := run.passages[i];
    SitePassages(passages, source);
    SitePassageOk(passages, source, i);
    SiteLookups(passages, source, p);
    CardsMembers(run, run.passages, idOf);
    LookupOwn(run.passages, PassageId, p);
    assert PassageTag(i, 0) in MechanismSet(run.graph, p);
    var c := CardOf(run, p, idOf);
    CardRulesAre(run, c, p, idOf);
  }

  lemma SiteShape(passages: nat, source: string)
    ensures var run := Site(passages, source);
            && run.queries == [QUERY] && run.hits == [HIT] && run.graph.rules == [SiteRule(source)]
            && run.graph.tags == MechanismTags() + [DOMAIN] && |run.passages| == passages
  {
  }

  // ---- a packet refused -----------------------------------------------------------------------------------

  lemma SiteIsSupported(passages: nat, source: string, idOf: CardKey -> string)
    requires 1 <= passages <= 3 && InjectiveIds(idOf) && (source == "a" || source == Name(1))
    ensures var run, cards := Site(passages, source), SiteCards(passages, source, idOf);
            (forall c :: c in cards ==> CardClosed(run, c)) && Supported(run, cards, SiteRule(source))
  {
    var run, cards := Site(passages, source), SiteCards(passages, source, idOf);
    SiteIsEvidence(passages, source, idOf);
    EvidenceNeverSpans(run, cards, run.passages, idOf);
    SiteCard(passages, source, 0, idOf);
    hide CardClosed, CardRules, FromEvidence, CardsOf;
    assert PassageTag(0, 0) == Name(0);
  }

  /** A supported rule whose source tag is no analogy domain: its packet is built and refused. */
  lemma SourceTagRefusesPacket(idOf: CardKey -> string, packetId: PacketKey -> string)
    requires InjectiveIds(idOf)
    ensures var run, cards, rule := Site(1, Name(1)), SiteCards(1, Name(1), idOf), SiteRule(Name(1));
            && FromEvidence(run, cards, run.passages, idOf) && rule in run.graph.rules
            && (forall c :: c in cards ==> CardClosed(run, c)) && Supported(run, cards, rule)
            && !PacketAccepted(run, cards, PacketFor(run, cards, rule, packetId))
  {
    var run, cards, rule := Site(1, Name(1)), SiteCards(1, Name(1), idOf), SiteRule(Name(1));
    SiteIsEvidence(1, Name(1), idOf);
    SiteIsSupported(1, Name(1), idOf);
    TagIsThere(run, 1);
    hide FromEvidence, CardClosed, CardsOf, PacketAccepted, Supported, PacketFor, Lookup, QueryTagsKnown;
    assert Name(1) in rule.sourceTagIds && !KindIs(run.graph, Name(1), AnalogyDomain);
    PacketAcceptedIff(run, cards, run.passages, idOf, packetId, rule);
  }

  // ---- a review refused -----------------------------------------------------------------------------------

  function Names(n: nat): set<string> { set i: nat | i < n :: Name(i) }

  lemma {:induction false} NamesSize(n: nat)
    ensures |Names(n)| == n
  {
    if n > 0 {
      NamesSize(n - 1);
      assert Names(n) == Names(n - 1) + {Name(n - 1)};
      forall i: nat | i < n - 1 ensures Name(i) != Name(n - 1) { assert |Name(i)| == i + 1; }
    }
  }

  lemma TagNumber(k: nat)
    ensures PassageTag(k / 16, k % 16) == Name(k)
  {
    assert 16 * (k / 16) + k % 16 == k;
  }

  lemma ManyTags(run: Run, cards: seq<Card>)
    requires forall c :: c in cards ==> CardClosed(run, c)
    requires forall i: nat :: i < 3 ==> CarriesTags(run, cards, i)
    ensures |SupportTags(run, cards, "r")| >= TAGS
  {
    hide CardClosed, CardRules, Name, PassageTag, Names;
    var tags := SupportTags(run, cards, "r");
    forall k: nat | k < TAGS ensures Name(k) in tags {
      TagNumber(k);
      assert CarriesTags(run, cards, k / 16);
    }
    NamesSize(TAGS);
    assert Names(TAGS) <= tags by { NamesAre(TAGS); }
    SubsetSize(Names(TAGS), tags);
  }

  lemma NamesAre(n: nat)
    ensures forall x :: x in Names(n) ==> exists k: nat :: k < n && x == Name(k)
  {
  }

  /** What the review is given: every query of the run planned, executed and answered at once. */
  function InputsOf(run: Run, cards: seq<Card>, packets: seq<Packet>): Inputs {
    Inputs(run.graph, run.queries, run.queries, [Attempt("q", 1, true, 0)], run.hits, run.passages, cards, packets, [], [])
  }

  lemma FewIds(run: Run, cards: seq<Card>, rule: string)
    requires forall c :: c in cards ==> CardClosed(run, c)
    ensures |CardIdsFor(run, cards, rule)| <= |cards|
  {
    hide CardClosed, CardRules;
    var ids := seq(|cards|, i requires 0 <= i < |cards| => cards[i].id);
    SetOfSeq(ids);
    forall id | id in CardIdsFor(run, cards, rule) ensures id in (set x | x in ids) {
      var c :| c in cards && c.id == id;
      var i :| 0 <= i < |cards| && cards[i] == c;
      assert ids[i] == id;
    }
    SubsetSize(CardIdsFor(run, cards, rule), set x | x in ids);
  }

  lemma {:induction false} CardsAreFew(run: Run, ps: seq<Passage>, idOf: CardKey -> string)
    requires forall p :: p in ps ==> PassageAccepted(run, p)
    ensures |CardsOf(run, ps, idOf)| <= |ps|
  {
    hide PassageAccepted, CardOf, MechanismSet;
    if ps != [] { CardsAreFew(run, ps[..|ps| - 1], idOf); }
  }

  lemma PacketIsBuilt(idOf: CardKey -> string, packetId: PacketKey -> string)
    requires InjectiveIds(idOf)
    ensures var run, cards := Site(3, "a"), SiteCards(3, "a", idOf);
            && FromEvidence(run, cards, run.passages, idOf) && (forall c :: c in cards ==> CardClosed(run, c))
            && BuildSucceeds(run, cards, packetId) && Supported(run, cards, SiteRule("a"))
  {
    SiteIsEvidence(3, "a", idOf);
    SiteIsSupported(3, "a", idOf);
    SiteShape(3, "a");
    SitePassages(3, "a");
    var run, cards := Site(3, "a"), SiteCards(3, "a", idOf);
    CardsAreFew(run, run.passages, idOf);
    SiteLookups(3, "a", SitePassage(0));
    TagIsThere(run, 0);
    hide Site, SiteCards;
    OnePacket(run, cards, idOf, packetId);
  }

  lemma OnePacket(run: Run, cards: seq<Card>, idOf: CardKey -> string, packetId: PacketKey -> string)
    requires FromEvidence(run, cards, run.passages, idOf) && (forall c :: c in cards ==> CardClosed(run, c)) && |cards| <= 3
    requires run.queries == [QUERY] && run.hits == [HIT] && run.graph.rules == [SiteRule("a")]
    requires Lookup(run.queries, QueryId, "q") == Some(QUERY) && Lookup(run.graph.rules, RuleId, "r").Some?
    requires Lookup(run.graph.tags, TagId, Name(0)).Some? && Lookup(run.graph.tags, TagId, "a") == Some(DOMAIN)
    ensures BuildSucceeds(run, cards, packetId)
  {
    OnePacketFits(run, cards);
    hide FromEvidence, CardClosed, CardRules, Supported, Lookup, PacketFits, BuildSucceeds, WantsPacket, Name;
    PipelineCloses(run, cards, run.passages, idOf, packetId);
  }

  lemma OnePacketFits(run: Run, cards: seq<Card>)
    requires (forall c :: c in cards ==> CardClosed(run, c)) && |cards| <= 3
    requires run.queries == [QUERY] && run.hits == [HIT] && Lookup(run.queries, QueryId, "q") == Some(QUERY)
    requires Lookup(run.graph.tags, TagId, Name(0)).Some? && Lookup(run.graph.tags, TagId, "a") == Some(DOMAIN)
    ensures PacketFits(run, cards, SiteRule("a"))
  {
    FewIds(run, cards, "r");
    assert QueryTexts(run, "r") == {"text"};
    hide CardClosed, CardRules, Lookup, QueryTexts, CardIdsFor, Name;
    forall c | c in cards && "r" in CardRules(run, c) ensures CardTagsKnown(run, c) { KnownTags(run, c); }
    assert SiteRule("a").sourceTagIds == ["a"] && KindIs(run.graph, "a", AnalogyDomain);
  }

  lemma KnownTags(run: Run, c: Card)
    requires CardClosed(run, c) && run.hits == [HIT] && Lookup(run.queries, QueryId, "q") == Some(QUERY)
    requires Lookup(run.graph.tags, TagId, Name(0)).Some?
    ensures CardTagsKnown(run, c)
  {
    hide Name;
    forall id | id in c.passageIds ensures PassageClosed(run, id) && HitTagsKnown(run, HitOf(run, PassageOf(run, id).value).value) {
      assert PassageClosed(run, id);
      var h := HitOf(run, PassageOf(run, id).value).value;
      assert h in run.hits && h == HIT;
    }
  }

  /**
   * Three SUPPORT cards of one rule with sixteen tags each: every earlier stage accepts the run, the
   * packet is built, all links of the review close, and yet the rule's row cannot hold its 48 tags.
   */
  lemma RowCannotHoldTags(idOf: CardKey -> string, packetId: PacketKey -> string)
    requires InjectiveIds(idOf)
    ensures var run, cards, rule := Site(3, "a"), SiteCards(3, "a", idOf), SiteRule("a");
            && FromEvidence(run, cards, run.passages, idOf) && (forall c :: c in cards ==> CardClosed(run, c))
            && BuildSucceeds(run, cards, packetId)
            && var n := InputsOf(run, cards, [PacketFor(run, cards, rule, packetId)]);
               && FromPipeline(n, run, cards) && PacketsFromBridges(n, run, cards, packetId) && LinksAccepted(n)
               && !BridgeRowValid(BridgeRowOf(n, rule)) && !CompileAccepts(n)
  {
    PacketIsBuilt(idOf, packetId);
    SitePassages(3, "a");
    SiteShape(3, "a");
    var run, cards := Site(3, "a"), SiteCards(3, "a", idOf);
    forall i: nat | i < 3 ensures CarriesTags(run, cards, i) { SiteCard(3, "a", i, idOf); }
    SiteInputsClose(cards, [PacketFor(run, cards, SiteRule("a"), packetId)]);
    hide Site, SiteCards;
    RowOverflows(run, cards, idOf, packetId);
  }

  lemma RowOverflows(run: Run, cards: seq<Card>, idOf: CardKey -> string, packetId: PacketKey -> string)
    requires FromEvidence(run, cards, run.passages, idOf) && (forall c :: c in cards ==> CardClosed(run, c))
    requires run.queries == [QUERY] && run.graph.rules == [SiteRule("a")] && Supported(run, cards, SiteRule("a"))
    requires forall i: nat :: i < 3 ==> CarriesTags(run, cards, i)
    ensures var n := InputsOf(run, cards, [PacketFor(run, cards, SiteRule("a"), packetId)]);
            && FromPipeline(n, run, cards) && PacketsFromBridges(n, run, cards, packetId)
            && CardsClosed(n) && PacketsAccepted(n) && !BridgeRowValid(BridgeRowOf(n, SiteRule("a"))) && !RowFits(n, "r")
  {
    var rule := SiteRule("a");
    var n := InputsOf(run, cards, [PacketFor(run, cards, rule, packetId)]);
    SiteIsPipeline(run, cards, idOf, packetId);
    ManyTags(run, cards);
    assert rule.id == "r";
    hide FromEvidence, FromPipeline, PacketsFromBridges, CardClosed, CardsClosed, PacketsAccepted, SupportTags, CardIdsFor, PacketFor, Lookup;
    hide CarriesTags, Unique, Supported, BridgeRowValid, BridgeRowOf, RowFits, InputsOf, SiteRule;
    PipelineRowsValidIff(n, run, cards, run.passages, idOf, packetId);
    BridgeRowValidIff(n, rule);
  }

  lemma SiteIsPipeline(run: Run, cards: seq<Card>, idOf: CardKey -> string, packetId: PacketKey -> string)
    requires FromEvidence(run, cards, run.passages, idOf) && (forall c :: c in cards ==> CardClosed(run, c))
    requires run.queries == [QUERY] && run.graph.rules == [SiteRule("a")] && Supported(run, cards, SiteRule("a"))
    ensures var n := InputsOf(run, cards, [PacketFor(run, cards, SiteRule("a"), packetId)]);
            && FromPipeline(n, run, cards) && PacketsFromBridges(n, run, cards, packetId)
            && Unique(n.cards, CardId) && Unique(n.planned, QueryId)
  {
    UniqueInputs(run, cards, run.passages, idOf);
    CardsUnique(run, cards, run.passages, idOf);
    hide FromEvidence, CardClosed, CardRules, Supported, PacketFor, Unique;
    OwnRecords(run, cards, [PacketFor(run, cards, SiteRule("a"), packetId)]);
    OnePacketFromBridges(run, cards, packetId);
  }

  lemma OwnRecords(run: Run, cards: seq<Card>, packets: seq<Packet>)
    requires Unique(run.queries, QueryId) && Unique(run.hits, HitId) && Unique(run.passages, PassageId) && Unique(cards, CardId)
    ensures FromPipeline(InputsOf(run, cards, packets), run, cards)
  {
    hide Unique;
  }

  lemma OnePacketFromBridges(run: Run, cards: seq<Card>, packetId: PacketKey -> string)
    requires (forall c :: c in cards ==> CardClosed(run, c)) && run.graph.rules == [SiteRule("a")] && Supported(run, cards, SiteRule("a"))
    ensures PacketsFromBridges(InputsOf(run, cards, [PacketFor(run, cards, SiteRule("a"), packetId)]), run, cards, packetId)
  {
    hide CardClosed, CardRules, Supported, PacketFor;
    var rule := SiteRule("a");
    assert rule in run.graph.rules;
    hide SiteRule;
    var n := InputsOf(run, cards, [PacketFor(run, cards, rule, packetId)]);
    forall p | p in n.packets
      ensures exists r :: r in run.graph.rules && Supported(run, cards, r) && p == PacketFor(run, cards, r, packetId)
    {
      assert p == PacketFor(run, cards, rule, packetId);
    }
  }

  lemma SiteInputsClose(cards: seq<Card>, packets: seq<Packet>)
    ensures QueriesAccepted(InputsOf(Site(3, "a"), cards, packets)) && DocumentsAccepted(InputsOf(Site(3, "a"), cards, packets))
  {
    var n, run := InputsOf(Site(3, "a"), cards, packets), Site(3, "a");
    TagIsThere(run, 0);
    LookupOwn(run.graph.rules, RuleId, SiteRule("a"));
    LookupOwn(run.queries, QueryId, QUERY);
    LookupOwn(run.hits, HitId, HIT);
    hide Lookup, Name, MechanismTags;
    assert QUERY in n.executed && Attempt("q", 1, true, 0) in n.attempts;
    forall p | p in n.passages ensures PassageInput(n, p) {
      var i :| 0 <= i < 3 && n.passages[i] == p;
      assert p == SitePassage(i);
    }
  }

  // ---- a card traced to the wrong query -------------------------------------------------------------------

  const MECHANISM := Tag("m", Mechanism)
  const DIRECT := Query("p", Direct, "text", ["m"], None)
  const BRIDGE := Query("q", Bridge, "text", ["m"], Some("r"))
  const RULE := Rule("r", ["a"], ["m"], ["m"], ["m"], ["condition"], ["breaking"])

  /** One card with two passages; the least of them was found by the direct query, the other by the rule's. */
  function TwoPassages(): Inputs {
    Inputs(Graph([DOMAIN, MECHANISM], [RULE]), [DIRECT, BRIDGE], [DIRECT, BRIDGE],
           [Attempt("p", 1, true, 0), Attempt("q", 1, true, 0)],
           [Hit("g", "d", ["p"]), HIT], [Passage("a", "g", "d", "text", ["m"]), Passage("b", "h", "d", "text", ["m"])],
           [Card("c", Support, ["m"], ["condition"], ["a", "b"])], [], [], [])
  }

  lemma TwoPassagesLookups()
    ensures var n := TwoPassages();
            && Unique(n.planned, QueryId) && Unique(n.cards, CardId)
            && Lookup(n.planned, QueryId, "p") == Some(DIRECT) && Lookup(n.planned, QueryId, "q") == Some(BRIDGE)
            && Lookup(n.passages, PassageId, "a") == Some(n.passages[0]) && Lookup(n.passages, PassageId, "b") == Some(n.passages[1])
            && Lookup(n.hits, HitId, "g") == Some(n.hits[0]) && Lookup(n.hits, HitId, "h") == Some(n.hits[1])
  {
    var n := TwoPassages();
    assert n.planned[0] in n.planned && n.planned[1] in n.planned;
    LookupOwn(n.planned, QueryId, DIRECT);
    LookupOwn(n.planned, QueryId, BRIDGE);
    LookupOwn(n.passages, PassageId, n.passages[0]);
    LookupOwn(n.passages, PassageId, n.passages[1]);
    LookupOwn(n.hits, HitId, n.hits[0]);
    LookupOwn(n.hits, HitId, n.hits[1]);
  }

  lemma TwoPassagesGraph()
    ensures var g := TwoPassages().graph;
            && g.Valid() && Lookup(g.tags, TagId, "m") == Some(MECHANISM) && Lookup(g.tags, TagId, "a") == Some(DOMAIN)
            && Lookup(g.rules, RuleId, "r") == Some(RULE)
  {
    var g := TwoPassages().graph;
    assert g.tags[0] in g.tags && g.tags[1] in g.tags && g.rules[0] in g.rules;
    LookupOwn(g.tags, TagId, MECHANISM);
    LookupOwn(g.tags, TagId, DOMAIN);
    LookupOwn(g.rules, RuleId, RULE);
    assert RULE.Valid();
  }

  /** The review's checks of queries, attempts, hits and passages all pass. */
  lemma TwoPassagesAccepted()
    ensures QueriesAccepted(TwoPassages()) && DocumentsAccepted(TwoPassages())
  {
    TwoPassagesLookups();
    TwoPassagesGraph();
    hide Lookup;
    var n := TwoPassages();
    assert n.attempts[0] in n.attempts && n.attempts[1] in n.attempts;
    assert n.planned[0] in n.planned && n.planned[1] in n.planned;
    assert n.hits[0].queryIds == ["p"] && n.hits[1].queryIds == ["q"];
  }

  lemma LeastOfTwo()
    ensures Least({"a", "b"}) == "a"
  {
    assert !Leq("b", "a");
    assert Leq("a", "b");
  }

  lemma TwoPassagesRules()
    ensures var n := TwoPassages();
            var run, c := RunOf(n), n.cards[0];
            && CardClosed(run, c) && HitQueries(run, "a") == {"p"}
            && RuleIds(run, n.hits[0]) == {} && RuleIds(run, n.hits[1]) == {"r"}
  {
    TwoPassagesLookups();
    hide Lookup;
    var n := TwoPassages();
    assert n.hits[0].queryIds == ["p"] && n.hits[1].queryIds == ["q"];
    assert RuleIds(RunOf(n), n.hits[1]) == {"r"};
  }

  lemma TwoPassagesCard()
    ensures var n := TwoPassages();
            var run, c := RunOf(n), n.cards[0];
            CardClosed(run, c) && CardRules(run, c) == {"r"} && CardQueries(run, c) == {"p"}
  {
    TwoPassagesRules();
    TwoPassagesLookups();
    LeastOfTwo();
    hide Lookup, Least, RuleIds, HitQueries;
    var n := TwoPassages();
    var run, c := RunOf(n), n.cards[0];
    assert c.passageIds == ["a", "b"] && (set id | id in c.passageIds) == {"a", "b"};
    assert "b" in c.passageIds && "r" in RuleIds(run, n.hits[1]);
    forall r | r in CardRules(run, c) ensures r == "r" {
      var id :| id in c.passageIds && r in RuleIds(run, HitOf(run, PassageOf(run, id).value).value);
      assert id == "a" || id == "b";
    }
    assert CardRules(run, c) == {"r"};
  }

  /**
   * Every check of the review passes, up to the rows. The card belongs to the rule but is traced to the
   * direct query: the rule's row counts no card where it lists one, and the review is refused for it.
   */
  lemma TracedElsewhere()
    ensures var n := TwoPassages();
            && n.graph.Valid() && LinksAccepted(n) && RuleCards(n, "r") == {"c"}
            && !AllTraced(n, "r") && !CountsAgree(n, "r") && !BridgeRowValid(BridgeRowOf(n, RULE)) && !CompileAccepts(n)
  {
    TwoPassagesCard();
    TwoPassagesLookups();
    TwoPassagesGraph();
    TwoPassagesAccepted();
    hide Lookup, CardClosed, CardRules, CardQueries, QueriesAccepted, DocumentsAccepted;
    var n := TwoPassages();
    var c := n.cards[0];
    assert n.cards == [c] && n.packets == [] && c.id == "c" && RULE in n.graph.rules && RULE.id == "r";
    assert RuleQueries(n, "r") == {"q"};
    assert !TracedToRule(n, c, "r");
    hide RuleQueries, TracedToRule;
    assert RuleCards(n, "r") == {"c"};
    assert c in n.cards && !AllTraced(n, "r");
    hide TwoPassages, RuleCards, AllTraced, CountsAgree, BridgeRowValid, BridgeRowOf;
    CountsAgreeIff(n, "r");
    BridgeRowValidIff(n, RULE);
  }
}
