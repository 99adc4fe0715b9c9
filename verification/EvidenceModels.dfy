/** Values of the evidence pipeline (`inspiration/models.py`), and lookup by identifier. */
module EvidenceModels {
  import Ordering
  import opened Wrappers

  datatype QueryKind = Direct | Bridge | Counter

  datatype Query = Query(id: string, kind: QueryKind, text: string, tagIds: seq<string>, rule: Option<string>)
  {
    /** `validate_query_origin` */
    predicate Valid() { kind.Direct? <==> rule.None? }
  }

  datatype Hit = Hit(id: string, documentId: string, queryIds: seq<string>)

  datatype Passage = Passage(id: string, hitId: string, documentId: string, text: string, matchedTagIds: seq<string>)

  datatype TagKind = Mechanism | AnalogyDomain | OtherKind

  datatype Tag = Tag(id: string, kind: TagKind)

  ghost predicate ValidList(values: seq<string>) { values != [] && Ordering.Distinct(values) }

  datatype Rule = Rule(
    id: string, sourceTagIds: seq<string>, targetTagIds: seq<string>, requiredTagIds: seq<string>, suggestedTagIds: seq<string>,
    requiredConditions: seq<string>, breakingConditions: seq<string>)
  {
    /** `BridgeRuleV1.validate_rule` and its minimum lengths: no list empty or with repetitions, and no source tag a target. */
    ghost predicate Valid() {
      && ValidList(sourceTagIds) && ValidList(targetTagIds) && ValidList(requiredTagIds) && ValidList(suggestedTagIds)
      && ValidList(requiredConditions) && ValidList(breakingConditions)
      && forall t :: t in sourceTagIds ==> t !in targetTagIds
    }
  }

  datatype Graph = Graph(tags: seq<Tag>, rules: seq<Rule>)
  {
    /** `TagGraphV1.validate_graph`, over valid rules. */
    ghost predicate Valid() {
      && Unique(tags, TagId) && Unique(rules, RuleId)
      && forall r :: r in rules ==>
           && r.Valid()
           && forall t :: t in r.sourceTagIds || t in r.targetTagIds || t in r.requiredTagIds || t in r.suggestedTagIds ==>
                Lookup(tags, TagId, t).Some?
    }
  }

  datatype Relation = Support | CounterEvidence | Context

  datatype Card = Card(id: string, relation: Relation, mechanismTagIds: seq<string>, conditions: seq<string>, passageIds: seq<string>)

  datatype Packet = Packet(id: string, ruleId: string, rule: Rule, queries: seq<string>, cardIds: seq<string>)

  /** The frozen inputs of one run. */
  datatype Run = Run(graph: Graph, queries: seq<Query>, hits: seq<Hit>, passages: seq<Passage>)

  function QueryId(q: Query): string { q.id }
  function HitId(h: Hit): string { h.id }
  function PassageId(p: Passage): string { p.id }
  function TagId(t: Tag): string { t.id }
  function RuleId(r: Rule): string { r.id }
  function CardId(c: Card): string { c.id }

  ghost predicate Unique<T(!new)>(items: seq<T>, key: T -> string) {
    forall i, j :: 0 <= i < j < |items| ==> key(items[i]) != key(items[j])
  }

  /** Looking an item up by its identifier. */
  function Lookup<T>(items: seq<T>, key: T -> string, id: string): (r: Option<T>)
    ensures r.Some? ==> r.value in items && key(r.value) == id
    ensures r.None? ==> forall x :: x in items ==> key(x) != id
  {
    if items == [] then None
    else if key(items[0]) == id then Some(items[0])
    else
      assert items == [items[0]] + items[1..];
      Lookup(items[1..], key, id)
  }

  lemma LookupOwn<T(!new)>(items: seq<T>, key: T -> string, x: T)
    requires Unique(items, key) && x in items
    ensures Lookup(items, key, key(x)) == Some(x)
  {
    var y := Lookup(items, key, key(x)).value;
    var i :| 0 <= i < |items| && items[i] == x;
    var j :| 0 <= j < |items| && items[j] == y;
  }

  /** `_unique_index`: the dictionary by identifier, or an error on the first repeated one. */
  method UniqueIndex<T(==, !new)>(items: seq<T>, key: T -> string) returns (r: Result<map<string, T>, string>)
    ensures r.Ok? <==> Unique(items, key)
    ensures r.Ok? ==> forall id :: (id in r.value <==> Lookup(items, key, id).Some?)
                                   && (id in r.value ==> Lookup(items, key, id) == Some(r.value[id]))
  {
    var index: map<string, T> := map[];
    for i := 0 to |items|
      invariant forall j :: 0 <= j < i ==> key(items[j]) in index && index[key(items[j])] == items[j]
      invariant forall id :: id in index ==> exists j :: 0 <= j < i && items[j] == index[id] && key(items[j]) == id
      invariant Unique(items[..i], key)
    {
      var x := items[i];
      if key(x) in index {
        var j :| 0 <= j < i && key(items[j]) == key(x);
        assert key(items[j]) == key(items[i]);
        return Err("duplicate ID");
      }
      forall j | 0 <= j < i ensures key(items[j]) != key(x) {}
      index := index[key(x) := x];
    }
    assert items[..|items|] == items;
    forall id | id in index ensures Lookup(items, key, id) == Some(index[id]) {
      LookupOwn(items, key, index[id]);
    }
    return Ok(index);
  }
}
