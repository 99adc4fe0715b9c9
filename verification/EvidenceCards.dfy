/** Deterministic evidence cards from selected passages (`inspiration/evidence.py`). */
module EvidenceCards {
  import opened EvidenceModels
  import Normalizing
  import opened Ordering
  import opened Wrappers

  /** The payload that a card's identifier hashes. */
  datatype CardKey = CardKey(passageId: string, rule: Option<string>, relation: Relation, mechanisms: seq<string>)

  ghost predicate InjectiveIds(idOf: CardKey -> string) {
    forall a, b :: idOf(a) == idOf(b) ==> a == b
  }

  const MAX_MECHANISM_TAGS := 16

  // ---- one passage -----------------------------------------------------------------------------

  function HitOf(run: Run, p: Passage): Option<Hit> { Lookup(run.hits, HitId, p.hitId) }

  predicate HitClosed(run: Run, h: Hit) {
    forall q :: q in h.queryIds ==> Lookup(run.queries, QueryId, q).Some?
  }

  /** The bridge rules the queries of a hit were issued for. */
  function RuleIds(run: Run, h: Hit): set<string> {
    set q | q in h.queryIds && Lookup(run.queries, QueryId, q).Some? && Lookup(run.queries, QueryId, q).value.rule.Some?
      :: Lookup(run.queries, QueryId, q).value.rule.value
  }

  function Kinds(run: Run, h: Hit): set<QueryKind> {
    set q | q in h.queryIds && Lookup(run.queries, QueryId, q).Some? :: Lookup(run.queries, QueryId, q).value.kind
  }

  function MechanismSet(graph: Graph, p: Passage): set<string> {
    set t | t in p.matchedTagIds && Lookup(graph.tags, TagId, t).Some? && Lookup(graph.tags, TagId, t).value.kind.Mechanism?
  }

  predicate TagsKnown(graph: Graph, ids: seq<string>) { forall t :: t in ids ==> Lookup(graph.tags, TagId, t).Some? }

  /** The passage closes over the run; a card is wanted only if a mechanism tag matched. */
  predicate PassageAccepted(run: Run, p: Passage) {
    && HitOf(run, p).Some?
    && var h := HitOf(run, p).value;
       && p.documentId == h.documentId && HitClosed(run, h) && |RuleIds(run, h)| <= 1
       && TagsKnown(run.graph, p.matchedTagIds)
       && (MechanismSet(run.graph, p) != {} ==>
             && |MechanismSet(run.graph, p)| <= MAX_MECHANISM_TAGS
             && (RuleIds(run, h) != {} ==>
                   && (forall r :: r in RuleIds(run, h) ==> Lookup(run.graph.rules, RuleId, r).Some?)
                   && !(Bridge in Kinds(run, h) && Counter in Kinds(run, h))))
  }

  /** `next(iter(rule_ids), None)` of a set with at most one element. */
  function TheRule(rules: set<string>): (r: Option<string>)
    ensures r.None? <==> rules == {}
    ensures r.Some? ==> r.value in rules
  {
    if rules == {} then None else Some(Least(rules))
  }

  lemma OnlyRule(rules: set<string>, r: string)
    requires |rules| <= 1 && r in rules
    ensures TheRule(rules) == Some(r) && rules == {r}
  {
    assert |rules - {r}| == 0;
    assert rules - {r} == {};
    assert rules == {r};
  }

  function CardKeyOf(run: Run, p: Passage): CardKey
    requires PassageAccepted(run, p)
  {
    var h := HitOf(run, p).value;
    var rule := TheRule(RuleIds(run, h));
    var relation := if rule.None? then Context else if Counter in Kinds(run, h) then CounterEvidence else Support;
    CardKey(p.id, rule, relation, Sorted(MechanismSet(run.graph, p)))
  }

  function CardOf(run: Run, p: Passage, idOf: CardKey -> string): Card
    requires PassageAccepted(run, p) && MechanismSet(run.graph, p) != {}
  {
    var k := CardKeyOf(run, p);
    var conditions :=
      if k.rule.None? then ["source context only; cross-domain transfer is not established"]
      else if k.relation.CounterEvidence? then Lookup(run.graph.rules, RuleId, k.rule.value).value.breakingConditions
      else Lookup(run.graph.rules, RuleId, k.rule.value).value.requiredConditions;
    Card(idOf(k), k.relation, k.mechanisms, conditions, [p.id])
  }

  /** The cards of a list of passages, in order; passages without a mechanism tag give none. */
  function CardsOf(run: Run, ps: seq<Passage>, idOf: CardKey -> string): seq<Card>
    requires forall p :: p in ps ==> PassageAccepted(run, p)
  {
    if ps == [] then []
    else
      var p := ps[|ps| - 1];
      CardsOf(run, ps[..|ps| - 1], idOf) + (if MechanismSet(run.graph, p) == {} then [] else [CardOf(run, p, idOf)])
  }

  /** The identifiers of the cards whose passage was found for a given rule. */
  function CardIdsByRule(run: Run, ps: seq<Passage>, idOf: CardKey -> string, rule: string): seq<string>
    requires forall p :: p in ps ==> PassageAccepted(run, p)
  {
    if ps == [] then []
    else
      var p := ps[|ps| - 1];
      CardIdsByRule(run, ps[..|ps| - 1], idOf, rule)
      + (if MechanismSet(run.graph, p) != {} && CardKeyOf(run, p).rule == Some(rule) then [idOf(CardKeyOf(run, p))] else [])
  }

  function PassageKey(p: Passage): Normalizing.Key { (p.id, 0) }

  ghost predicate SortedById(ps: seq<Passage>) { Normalizing.Normalized(ps, PassageKey) }

  /** What the cards of a run are: one per passage with a mechanism tag, and nothing else. */
  lemma {:induction false} CardsMembers(run: Run, ps: seq<Passage>, idOf: CardKey -> string)
    requires forall p :: p in ps ==> PassageAccepted(run, p)
    ensures forall c :: c in CardsOf(run, ps, idOf) <==>
              exists p :: p in ps && MechanismSet(run.graph, p) != {} && c == CardOf(run, p, idOf)
  {
    hide PassageAccepted, MechanismSet, CardOf;
    if ps != [] {
      var init, last := ps[..|ps| - 1], ps[|ps| - 1];
      assert ps == init + [last];
      CardsMembers(run, init, idOf);
      forall c ensures c in CardsOf(run, ps, idOf) <==>
        exists p :: p in ps && MechanismSet(run.graph, p) != {} && c == CardOf(run, p, idOf)
      {
        if c in CardsOf(run, init, idOf) {
          var p :| p in init && MechanismSet(run.graph, p) != {} && c == CardOf(run, p, idOf);
          assert p in ps;
        }
        if p :| p in ps && MechanismSet(run.graph, p) != {} && c == CardOf(run, p, idOf) {
          assert p in init || p == last;
        }
      }
    }
  }

  /** Distinct passages get distinct cards. */
  lemma {:induction false} CardsAreUnique(run: Run, ps: seq<Passage>, idOf: CardKey -> string)
    requires InjectiveIds(idOf) && Unique(ps, PassageId)
    requires forall p :: p in ps ==> PassageAccepted(run, p)
    ensures Unique(CardsOf(run, ps, idOf), CardId)
  {
    hide PassageAccepted, MechanismSet, InjectiveIds, CardOf;
    if ps != [] {
      var init, last := ps[..|ps| - 1], ps[|ps| - 1];
      assert forall i :: 0 <= i < |init| ==> init[i] == ps[i];
      CardsAreUnique(run, init, idOf);
      var cards := CardsOf(run, init, idOf);
      if MechanismSet(run.graph, last) != {} {
        assert ps == init + [last];
        LastCardIsNew(run, init, last, idOf);
      }
    }
  }

  lemma LastCardIsNew(run: Run, init: seq<Passage>, last: Passage, idOf: CardKey -> string)
    requires InjectiveIds(idOf) && Unique(init + [last], PassageId)
    requires forall p :: p in init + [last] ==> PassageAccepted(run, p)
    requires MechanismSet(run.graph, last) != {}
    ensures var cards := CardsOf(run, init, idOf);
            forall i :: 0 <= i < |cards| ==> cards[i].id != CardOf(run, last, idOf).id
  {
    hide PassageAccepted, MechanismSet, InjectiveIds, CardOf;
    CardsMembers(run, init, idOf);
    var cards, ps := CardsOf(run, init, idOf), init + [last];
    forall i | 0 <= i < |cards| ensures cards[i].id != CardOf(run, last, idOf).id {
      assert cards[i] in cards;
      var p :| p in init && MechanismSet(run.graph, p) != {} && cards[i] == CardOf(run, p, idOf);
      var j :| 0 <= j < |init| && init[j] == p;
      assert PassageId(ps[j]) != PassageId(ps[|init|]);
      DifferentPassages(run, p, last, idOf);
    }
  }

  lemma DifferentPassages(run: Run, p: Passage, q: Passage, idOf: CardKey -> string)
    requires InjectiveIds(idOf) && PassageAccepted(run, p) && PassageAccepted(run, q) && p.id != q.id
    requires MechanismSet(run.graph, p) != {} && MechanismSet(run.graph, q) != {}
    ensures CardOf(run, p, idOf).id != CardOf(run, q, idOf).id
  {
    hide PassageAccepted, MechanismSet;
  }

  lemma RuleMeansBridgeOrCounter(run: Run, h: Hit)
    requires forall q :: q in run.queries ==> q.Valid()
    ensures RuleIds(run, h) != {} ==> Bridge in Kinds(run, h) || Counter in Kinds(run, h)
  {
    if RuleIds(run, h) != {} {
      var r :| r in RuleIds(run, h);
      var q :| q in h.queryIds && Lookup(run.queries, QueryId, q).Some? && Lookup(run.queries, QueryId, q).value.rule == Some(r);
      var query := Lookup(run.queries, QueryId, q).value;
      assert query.Valid() && query.kind in Kinds(run, h);
    }
  }

  /** A SUPPORT card rests on a bridge query and no counter query of its hit; a COUNTER card the other way round. */
  lemma CardIsGrounded(run: Run, p: Passage, idOf: CardKey -> string)
    requires PassageAccepted(run, p) && MechanismSet(run.graph, p) != {}
    requires forall q :: q in run.queries ==> q.Valid()
    ensures var c := CardOf(run, p, idOf);
            var kinds := Kinds(run, HitOf(run, p).value);
            && (c.relation.Support? ==> Bridge in kinds && Counter !in kinds)
            && (c.relation.CounterEvidence? ==> Counter in kinds && Bridge !in kinds)
            && (c.relation.Context? <==> RuleIds(run, HitOf(run, p).value) == {})
  {
    RuleMeansBridgeOrCounter(run, HitOf(run, p).value);
    hide HitClosed, TagsKnown, Kinds, RuleIds, Sorted, MechanismSet, Lookup;
  }

  /** The tags of a card are exactly the matched mechanism tags of its passage. */
  lemma CardTags(run: Run, p: Passage, idOf: CardKey -> string)
    requires PassageAccepted(run, p) && MechanismSet(run.graph, p) != {}
    ensures forall t :: t in CardOf(run, p, idOf).mechanismTagIds <==>
              t in p.matchedTagIds && Lookup(run.graph.tags, TagId, t).Some? && Lookup(run.graph.tags, TagId, t).value.kind.Mechanism?
  {
    hide HitClosed, TagsKnown, Kinds, RuleIds, Sorted;
    assert CardOf(run, p, idOf).mechanismTagIds == Sorted(MechanismSet(run.graph, p));
  }

  // ---- acceptance and cards in terms of the run's own records --------------------------------------------

  /** `q` is one of the queries of the run that found hit `h`. */
  ghost predicate Found(run: Run, h: Hit, q: Query) { q in run.queries && q.id in h.queryIds }

  /** `t` is a mechanism tag of the graph that matched the passage. */
  ghost predicate Matched(graph: Graph, p: Passage, t: string) {
    t in p.matchedTagIds && exists tag :: tag in graph.tags && tag.id == t && tag.kind == Mechanism
  }

  /** At most sixteen mechanism tags matched. */
  ghost predicate FewMatched(graph: Graph, p: Passage) {
    exists few: set<string> :: |few| <= 16 && forall t :: t in few <==> Matched(graph, p, t)
  }

  /** All bridge and counter queries of the hit were issued for one rule. */
  ghost predicate OneRule(run: Run, h: Hit) {
    forall a, b :: Found(run, h, a) && Found(run, h, b) && a.rule.Some? && b.rule.Some? ==> a.rule == b.rule
  }

  /** The hit was found by a bridge and by a counter query. */
  ghost predicate Mixed(run: Run, h: Hit) {
    exists a, b :: Found(run, h, a) && Found(run, h, b) && a.kind == Bridge && b.kind == Counter
  }

  ghost predicate HasRule(graph: Graph, id: string) { exists rule :: rule in graph.rules && rule.id == id }

  /** If there is such a rule, the graph has it, and the hit does not mix support with counterevidence. */
  ghost predicate RuleUsable(run: Run, h: Hit) {
    forall a :: Found(run, h, a) && a.rule.Some? ==> HasRule(run.graph, a.rule.value) && !Mixed(run, h)
  }

  ghost predicate Closes(run: Run, p: Passage, h: Hit) {
    && h in run.hits && h.id == p.hitId && h.documentId == p.documentId
    && (forall id :: id in h.queryIds ==> exists q :: q in run.queries && q.id == id)
    && OneRule(run, h)
    && (forall id :: id in p.matchedTagIds ==> exists tag :: tag in run.graph.tags && tag.id == id)
    && ((exists t :: Matched(run.graph, p, t)) ==> FewMatched(run.graph, p) && RuleUsable(run, h))
  }

  ghost predicate Indexed(run: Run) {
    && Unique(run.queries, QueryId) && Unique(run.hits, HitId) && Unique(run.graph.tags, TagId) && Unique(run.graph.rules, RuleId)
  }

  lemma MatchedIs(graph: Graph, p: Passage)
    requires Unique(graph.tags, TagId)
    ensures forall t :: t in MechanismSet(graph, p) <==> Matched(graph, p, t)
    ensures FewMatched(graph, p) <==> |MechanismSet(graph, p)| <= 16
    ensures (exists t :: Matched(graph, p, t)) <==> MechanismSet(graph, p) != {}
    ensures TagsKnown(graph, p.matchedTagIds) <==> forall id :: id in p.matchedTagIds ==> exists tag :: tag in graph.tags && tag.id == id
  {
    forall tag | tag in graph.tags ensures Lookup(graph.tags, TagId, tag.id) == Some(tag) { LookupOwn(graph.tags, TagId, tag); }
    hide Lookup, Unique;
    forall t ensures t in MechanismSet(graph, p) <==> Matched(graph, p, t) {}
    var all := MechanismSet(graph, p);
    hide MechanismSet, Matched;
    if few: set<string> :| |few| <= 16 && forall t :: t in few <==> Matched(graph, p, t) { assert few == all; }
  }

  lemma FoundIs(run: Run, h: Hit)
    requires Unique(run.queries, QueryId)
    ensures HitClosed(run, h) <==> forall id :: id in h.queryIds ==> exists q :: q in run.queries && q.id == id
    ensures forall k :: k in Kinds(run, h) <==> exists q :: Found(run, h, q) && q.kind == k
    ensures forall r :: r in RuleIds(run, h) <==> exists q :: Found(run, h, q) && q.rule == Some(r)
  {
    forall q | q in run.queries ensures Lookup(run.queries, QueryId, q.id) == Some(q) { LookupOwn(run.queries, QueryId, q); }
    hide Lookup, Unique;
    forall q | Found(run, h, q)
      ensures q.kind in Kinds(run, h)
      ensures q.rule.Some? ==> q.rule.value in RuleIds(run, h)
    {
      var id := q.id;
      assert id in h.queryIds && Lookup(run.queries, QueryId, id) == Some(q);
    }
    forall k | k in Kinds(run, h) ensures exists q :: Found(run, h, q) && q.kind == k {
      var id :| id in h.queryIds && Lookup(run.queries, QueryId, id).Some? && Lookup(run.queries, QueryId, id).value.kind == k;
      assert Found(run, h, Lookup(run.queries, QueryId, id).value);
    }
    forall r | r in RuleIds(run, h) ensures exists q :: Found(run, h, q) && q.rule == Some(r) {
      var id :| id in h.queryIds && Lookup(run.queries, QueryId, id).Some? && Lookup(run.queries, QueryId, id).value.rule == Some(r);
      assert Found(run, h, Lookup(run.queries, QueryId, id).value);
    }
  }

  lemma AtMostOne(rules: set<string>)
    ensures |rules| <= 1 <==> forall a, b :: a in rules && b in rules ==> a == b
  {
    if rules != {} {
      var r :| r in rules;
      assert rules == {r} + (rules - {r});
      if rules - {r} == {} { assert rules == {r}; } else { assert |rules - {r}| > 0; var x :| x in rules - {r}; }
    }
  }

  /** The checks accept a passage exactly when it closes over the records of the run. */
  lemma PassageAcceptedIff(run: Run, p: Passage)
    requires Indexed(run)
    ensures PassageAccepted(run, p) <==> exists h :: Closes(run, p, h)
  {
    forall h | h in run.hits ensures Lookup(run.hits, HitId, h.id) == Some(h) { LookupOwn(run.hits, HitId, h); }
    forall h | h in run.hits && h.id == p.hitId ensures PassageAccepted(run, p) <==> Closes(run, p, h) { ClosesIs(run, p, h); }
    hide Lookup, Unique, HitClosed, RuleIds, Kinds, TagsKnown, MechanismSet, Found, Matched, FewMatched;
  }

  lemma OneRuleIs(run: Run, h: Hit)
    requires Unique(run.queries, QueryId)
    ensures OneRule(run, h) <==> |RuleIds(run, h)| <= 1
  {
    FoundIs(run, h);
    AtMostOne(RuleIds(run, h));
    hide RuleIds, Kinds, Found, HitClosed;
    if OneRule(run, h) {
      forall x, y | x in RuleIds(run, h) && y in RuleIds(run, h) ensures x == y {
        var a :| Found(run, h, a) && a.rule == Some(x);
        var b :| Found(run, h, b) && b.rule == Some(y);
        assert a.rule == b.rule;
      }
    } else {
      var a, b :| Found(run, h, a) && Found(run, h, b) && a.rule.Some? && b.rule.Some? && a.rule != b.rule;
      assert a.rule.value in RuleIds(run, h) && b.rule.value in RuleIds(run, h);
    }
  }

  lemma RuleUsableIs(run: Run, h: Hit)
    requires Unique(run.queries, QueryId)
    ensures RuleUsable(run, h) <==>
              (RuleIds(run, h) != {} ==>
                 && (forall r :: r in RuleIds(run, h) ==> Lookup(run.graph.rules, RuleId, r).Some?)
                 && !(Bridge in Kinds(run, h) && Counter in Kinds(run, h)))
  {
    FoundIs(run, h);
    forall r ensures Lookup(run.graph.rules, RuleId, r).Some? <==> HasRule(run.graph, r) {}
    assert Mixed(run, h) <==> Bridge in Kinds(run, h) && Counter in Kinds(run, h) by { hide RuleIds, Kinds, Found, HitClosed, Lookup, Unique; }
    hide RuleIds, Kinds, Found, HitClosed, Lookup, Unique, HasRule, Mixed;
    if RuleUsable(run, h) {
      forall r | r in RuleIds(run, h) ensures HasRule(run.graph, r) && !Mixed(run, h) {
        var a :| Found(run, h, a) && a.rule == Some(r);
      }
    } else {
      var a :| Found(run, h, a) && a.rule.Some? && !(HasRule(run.graph, a.rule.value) && !Mixed(run, h));
      assert a.rule == Some(a.rule.value) && a.rule.value in RuleIds(run, h);
    }
  }

  /** The same for the one hit the passage names. */
  lemma ClosesIs(run: Run, p: Passage, h: Hit)
    requires Indexed(run) && h in run.hits && h.id == p.hitId
    ensures PassageAccepted(run, p) <==> Closes(run, p, h)
  {
    LookupOwn(run.hits, HitId, h);
    MatchedIs(run.graph, p);
    FoundIs(run, h);
    OneRuleIs(run, h);
    RuleUsableIs(run, h);
    hide Lookup, Unique, HitClosed, RuleIds, Kinds, TagsKnown, MechanismSet, Found, Matched, FewMatched, OneRule, RuleUsable;
  }

  /** A card whose hit no rule led to is context, and says that nothing was transferred. */
  lemma ContextCard(run: Run, p: Passage, idOf: CardKey -> string, h: Hit)
    requires Indexed(run) && PassageAccepted(run, p) && MechanismSet(run.graph, p) != {} && Closes(run, p, h)
    requires forall q :: Found(run, h, q) ==> q.rule.None?
    ensures var c := CardOf(run, p, idOf);
            && c.relation == Context && c.conditions == ["source context only; cross-domain transfer is not established"]
            && c.passageIds == [p.id] && c.id == idOf(CardKey(p.id, None, Context, c.mechanismTagIds))
  {
    LookupOwn(run.hits, HitId, h);
    FoundIs(run, h);
    CardShape(run, p, idOf, h);
    hide PassageAccepted, MechanismSet, Closes, HitClosed, Kinds, TagsKnown, CardOf, Found, Lookup, Unique, RuleIds;
    assert RuleIds(run, h) == {};
  }

  /**
   * A card whose hit was found for a rule is counterevidence under the rule's breaking conditions if a
   * counter query found the hit, and support under its required conditions if none did.
   */
  lemma RuleCard(run: Run, p: Passage, idOf: CardKey -> string, h: Hit, q: Query, rule: Rule)
    requires Indexed(run) && PassageAccepted(run, p) && MechanismSet(run.graph, p) != {} && Closes(run, p, h)
    requires Found(run, h, q) && rule in run.graph.rules && q.rule == Some(rule.id)
    ensures var c := CardOf(run, p, idOf);
            && c.passageIds == [p.id] && c.id == idOf(CardKey(p.id, Some(rule.id), c.relation, c.mechanismTagIds))
            && if exists d :: Found(run, h, d) && d.kind == Counter
               then c.relation == CounterEvidence && c.conditions == rule.breakingConditions
               else c.relation == Support && c.conditions == rule.requiredConditions
  {
    LookupOwn(run.hits, HitId, h);
    LookupOwn(run.graph.rules, RuleId, rule);
    FoundIs(run, h);
    OneRuleIs(run, h);
    CardShape(run, p, idOf, h);
    assert |RuleIds(run, h)| <= 1;
    hide PassageAccepted, MechanismSet, Closes, HitClosed, Kinds, TagsKnown, CardOf, Found, Lookup, Unique, RuleIds, OneRule;
    OnlyRule(RuleIds(run, h), rule.id);
    hide TheRule;
    assert (exists d :: Found(run, h, d) && d.kind == Counter) <==> Counter in Kinds(run, h);
  }

  lemma CardShape(run: Run, p: Passage, idOf: CardKey -> string, h: Hit)
    requires PassageAccepted(run, p) && MechanismSet(run.graph, p) != {} && HitOf(run, p) == Some(h)
    ensures var c, rule := CardOf(run, p, idOf), TheRule(RuleIds(run, h));
            && c.passageIds == [p.id] && c.id == idOf(CardKey(p.id, rule, c.relation, c.mechanismTagIds))
            && (rule.None? ==> c.relation == Context && c.conditions == ["source context only; cross-domain transfer is not established"])
            && (rule.Some? ==>
                  && Lookup(run.graph.rules, RuleId, rule.value).Some?
                  && var found := Lookup(run.graph.rules, RuleId, rule.value).value;
                     if Counter in Kinds(run, h) then c.relation == CounterEvidence && c.conditions == found.breakingConditions
                     else c.relation == Support && c.conditions == found.requiredConditions)
  {
    hide Lookup, HitClosed, Kinds, TagsKnown, MechanismSet, Sorted;
  }

  // ---- the loop over the passages -----------------------------------------------------------------

  ghost predicate EvidenceAccepts(run: Run) {
    && Unique(run.queries, QueryId) && Unique(run.hits, HitId) && Unique(run.passages, PassageId)
    && forall p :: p in run.passages ==> PassageAccepted(run, p)
  }

  /** `sorted(passages, key=passage_id)` */
  method SortPassages(ps: seq<Passage>) returns (r: seq<Passage>)
    requires Unique(ps, PassageId)
    ensures SortedById(r) && Unique(r, PassageId) && forall p :: p in r <==> p in ps
  {
    assert Normalizing.Consistent(ps, PassageKey) by {
      forall x, y | x in ps && y in ps && PassageKey(x) == PassageKey(y) ensures x == y {
        LookupOwn(ps, PassageId, x);
        LookupOwn(ps, PassageId, y);
      }
    }
    var sorted := Normalizing.Normalize(ps, PassageKey);
    forall i, j | 0 <= i < j < |sorted.value| ensures PassageId(sorted.value[i]) != PassageId(sorted.value[j]) {
      assert PassageKey(sorted.value[i]) != PassageKey(sorted.value[j]);
    }
    return sorted.value;
  }

  /** The cards and per-rule lists built from the passages `ps`. */
  ghost predicate ListsOf(run: Run, ps: seq<Passage>, cards: seq<Card>, byRule: map<string, seq<string>>, idOf: CardKey -> string) {
    && (forall p :: p in ps ==> PassageAccepted(run, p))
    && cards == CardsOf(run, ps, idOf)
    && forall rule :: rule in run.graph.rules ==> rule.id in byRule && byRule[rule.id] == CardIdsByRule(run, ps, idOf, rule.id)
  }

  lemma ListsStep(run: Run, ps: seq<Passage>, p: Passage, cards: seq<Card>, byRule: map<string, seq<string>>, idOf: CardKey -> string)
    requires ListsOf(run, ps, cards, byRule, idOf) && PassageAccepted(run, p)
    ensures MechanismSet(run.graph, p) == {} ==> ListsOf(run, ps + [p], cards, byRule, idOf)
    ensures MechanismSet(run.graph, p) != {} ==>
              var key := CardKeyOf(run, p);
              ListsOf(run, ps + [p], cards + [CardOf(run, p, idOf)],
                if key.rule.None? then byRule
                else byRule[key.rule.value := (if key.rule.value in byRule then byRule[key.rule.value] else []) + [idOf(key)]], idOf)
  {
    hide PassageAccepted, CardOf, MechanismSet, CardKeyOf;
    assert (ps + [p])[..|ps|] == ps;
  }

  /**
   * `build_evidence_cards`. It succeeds exactly when every passage closes over the run; the cards come
   * in passage order, and the per-rule lists are those of the cards whose passage was found for the rule.
   */
  method BuildEvidenceCards(run: Run, idOf: CardKey -> string)
    returns (r: Result<(seq<Card>, map<string, seq<string>>), string>, ghost sorted: seq<Passage>)
    requires run.graph.Valid()
    ensures r.Ok? <==> EvidenceAccepts(run)
    ensures r.Ok? ==> SortedById(sorted) && Unique(sorted, PassageId) && forall p :: p in sorted <==> p in run.passages
    ensures r.Ok? ==> (forall p :: p in sorted ==> PassageAccepted(run, p)) && r.value.0 == CardsOf(run, sorted, idOf)
    ensures r.Ok? ==> forall rule :: rule in run.graph.rules ==>
              rule.id in r.value.1 && r.value.1[rule.id] == CardIdsByRule(run, sorted, idOf, rule.id)
  {
    hide PassageAccepted, CardOf, CardKeyOf, MechanismSet, Leq, Lookup, ListsOf, SortedById, Unique;
    sorted := [];
    var queries := UniqueIndex(run.queries, QueryId);
    if queries.Err? { return Err(queries.error), sorted; }
    var hits := UniqueIndex(run.hits, HitId);
    if hits.Err? { return Err(hits.error), sorted; }
    var passages := UniqueIndex(run.passages, PassageId);
    if passages.Err? { return Err(passages.error), sorted; }
    var order := SortPassages(run.passages);
    sorted := order;
    var cards: seq<Card> := [];
    var byRule: map<string, seq<string>> := map rule | rule in run.graph.rules :: rule.id := [];
    assert ListsOf(run, [], cards, byRule, idOf) by { ListsStart(run, idOf); }
    for i := 0 to |order|
      invariant ListsOf(run, order[..i], cards, byRule, idOf)
    {
      var p := order[i];
      assert p in run.passages && order[..i + 1] == order[..i] + [p];
      if !PassageAccepted(run, p) { return Err("passage does not close over the run"), sorted; }
      ListsStep(run, order[..i], p, cards, byRule, idOf);
      if MechanismSet(run.graph, p) != {} {
        var key := CardKeyOf(run, p);
        cards := cards + [CardOf(run, p, idOf)];
        if key.rule.Some? {
          var rule := key.rule.value;
          byRule := byRule[rule := (if rule in byRule then byRule[rule] else []) + [idOf(key)]];
        }
      }
    }
    assert order[..|order|] == order;
    ListsAre(run, order, cards, byRule, idOf);
    return Ok((cards, byRule)), sorted;
  }

  lemma ListsStart(run: Run, idOf: CardKey -> string)
    ensures ListsOf(run, [], [], map rule | rule in run.graph.rules :: rule.id := [], idOf)
  {
    var lists: map<string, seq<string>> := map rule | rule in run.graph.rules :: rule.id := [];
    forall rule | rule in run.graph.rules ensures rule.id in lists {}
  }

  lemma ListsAre(run: Run, ps: seq<Passage>, cards: seq<Card>, byRule: map<string, seq<string>>, idOf: CardKey -> string)
    requires ListsOf(run, ps, cards, byRule, idOf)
    ensures (forall p :: p in ps ==> PassageAccepted(run, p)) && cards == CardsOf(run, ps, idOf)
    ensures forall rule :: rule in run.graph.rules ==> rule.id in byRule && byRule[rule.id] == CardIdsByRule(run, ps, idOf, rule.id)
  {
  }
}
