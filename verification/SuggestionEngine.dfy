/** The suggestion engine: one store of prototypes shared by the next suggestions and the suggestions
    of the current query, each ranked and shown in windows. */
module SuggestionEngines {
  import opened Ranking

  type Prototypes = map<Key, Prototype>

  /** A proposal as it is published: its id, its confidence hint and its headline. */
  datatype Proposal = Proposal(id: string, hint: Score, headline: string)

  /** The prototypes are exactly those of the two lists, each in one list and once; so no entry refers to
      one that is gone. */
  ghost predicate Partition(prototypes: Prototypes, next: seq<Ranked>, ask: seq<Ranked>) {
    && Distinct(next) && Distinct(ask)
    && Keys(next) !! Keys(ask)
    && prototypes.Keys == Keys(next) + Keys(ask)
    && (forall r :: r in next ==> prototypes[r.suggestion.key] == r.suggestion)
    && (forall r :: r in ask ==> prototypes[r.suggestion.key] == r.suggestion)
  }

  lemma PartitionKeys(prototypes: Prototypes, next: seq<Ranked>, ask: seq<Ranked>)
    requires Partition(prototypes, next, ask)
    ensures prototypes.Keys == Keys(next) + Keys(ask)
  {
  }

  lemma KeysWithout(s: seq<Ranked>, key: Key)
    ensures Keys(Without(s, key)) == Keys(s) - {key}
  {
    WithoutMembers(s, key);
    forall k | k in Keys(s) - {key} ensures k in Keys(Without(s, key)) {
      var r :| r in s && r.suggestion.key == k;
      assert r in Without(s, key);
    }
  }

  lemma PartitionRemove(prototypes: Prototypes, next: seq<Ranked>, ask: seq<Ranked>, key: Key)
    requires Partition(prototypes, next, ask)
    ensures Partition(prototypes - {key}, Without(next, key), Without(ask, key))
  {
    hide Without;
    KeysWithout(next, key);
    KeysWithout(ask, key);
    WithoutMembers(next, key);
    WithoutMembers(ask, key);
    WithoutOrder(next, key);
    WithoutOrder(ask, key);
  }

  lemma {:induction false} WithoutOthers(s: seq<Ranked>, key: Key)
    requires forall r :: r in s ==> r.suggestion.key != key
    ensures Without(s, key) == s
  {
    if s != [] {
      var init, x := s[..|s| - 1], s[|s| - 1];
      WithoutOthers(init, key);
      assert Without(s, key) == init + [x];
    }
  }

  lemma WithoutAbsent(s: seq<Ranked>, key: Key)
    requires key !in Keys(s)
    ensures Without(s, key) == s
  {
    hide Without;
    forall r | r in s ensures r.suggestion.key != key {
      assert r.suggestion.key in Keys(s);
    }
    WithoutOthers(s, key);
  }

  lemma AddKey(s: seq<Ranked>, p: Prototype)
    ensures Keys(s + [Ranked(p, 0.0)]) == Keys(s) + {p.key}
    ensures Distinct(s) && p.key !in Keys(s) ==> Distinct(s + [Ranked(p, 0.0)])
  {
    var longer := s + [Ranked(p, 0.0)];
    assert longer[|s|] in longer;
    forall r | r in s ensures r in longer && r.suggestion.key in Keys(s) { }
  }

  lemma PartitionAdd(prototypes: Prototypes, next: seq<Ranked>, ask: seq<Ranked>, p: Prototype)
    requires Partition(prototypes, next, ask) && p.key !in prototypes
    ensures Partition(prototypes[p.key := p], next + [Ranked(p, 0.0)], ask)
    ensures Partition(prototypes[p.key := p], next, ask + [Ranked(p, 0.0)])
  {
    AddKey(next, p);
    AddKey(ask, p);
    assert forall r :: r in next ==> r.suggestion.key in Keys(next);
    assert forall r :: r in ask ==> r.suggestion.key in Keys(ask);
  }

  /** Ranking a list keeps its share of the prototypes. */
  lemma PartitionRank(
      prototypes: Prototypes, next: seq<Ranked>, ask: seq<Ranked>, features: seq<Feature>, query: string)
    requires Partition(prototypes, next, ask) && Scored(features) && Norm(features) > 0.0
    ensures Partition(prototypes, StableSort(Rescored(next, features, query)), ask)
    ensures Partition(prototypes, next, StableSort(Rescored(ask, features, query)))
  {
    RankedList(next, features, query);
    RankedList(ask, features, query);
  }

  lemma PartitionClear(prototypes: Prototypes, next: seq<Ranked>, ask: seq<Ranked>)
    requires Partition(prototypes, next, ask)
    ensures Partition(prototypes - Keys(ask), next, [])
  {
    assert forall r :: r in next ==> r.suggestion.key in Keys(next);
    assert Keys([]) == {};
  }

  function Made(url: string, proposal: Proposal, uuid: string): Prototype {
    Prototype((url, proposal.id), uuid, proposal.hint, proposal.headline)
  }

  /** The next list once it has been validated. */
  ghost function Validated(s: seq<Ranked>, dirty: bool, features: seq<Feature>): seq<Ranked>
    requires Norm(features) > 0.0
  {
    if dirty then StableSort(Rescored(s, features, "")) else s
  }

  /** The query's list after an answer: each proposal takes the place of one of the same key. */
  function Answered(s: seq<Ranked>, url: string, proposals: seq<Proposal>, uuids: seq<string>): seq<Ranked>
    requires |uuids| == |proposals|
  {
    if proposals == [] then s
    else
      var n := |proposals| - 1;
      var p := Made(url, proposals[n], uuids[n]);
      Without(Answered(s, url, proposals[..n], uuids[..n]), p.key) + [Ranked(p, 0.0)]
  }

  function WithoutAll(s: seq<Ranked>, url: string, proposals: seq<Proposal>): seq<Ranked> {
    if proposals == [] then s
    else
      var n := |proposals| - 1;
      Without(WithoutAll(s, url, proposals[..n]), (url, proposals[n].id))
  }

  ghost function Proposed(url: string, proposals: seq<Proposal>): set<Key> {
    set p | p in proposals :: (url, p.id)
  }

  /** The proposal is the last one of its id. */
  predicate LastOfId(proposals: seq<Proposal>, i: nat) {
    i < |proposals| && forall j :: i < j < |proposals| ==> proposals[j].id != proposals[i].id
  }

  /** The prototypes after an answer: of the proposals that have the same id the last one counts, and other keys
      keep what they had. */
  ghost predicate Merged(
      before: Prototypes, after: Prototypes, url: string, proposals: seq<Proposal>, uuids: seq<string>)
    requires |uuids| == |proposals|
  {
    && after.Keys == before.Keys + Proposed(url, proposals)
    && (forall i :: 0 <= i < |proposals| && LastOfId(proposals, i) ==>
         var p, key := proposals[i], (url, proposals[i].id);
         key in after && after[key] == Prototype(key, uuids[i], p.hint, p.headline))
    && forall key :: key in before && key !in Proposed(url, proposals) ==> key in after && after[key] == before[key]
  }

  lemma ProposedOneMore(url: string, proposals: seq<Proposal>, q: Proposal)
    ensures Proposed(url, proposals + [q]) == Proposed(url, proposals) + {(url, q.id)}
  {
    assert q in proposals + [q];
  }

  lemma LastOneMore(proposals: seq<Proposal>, q: Proposal, k: nat)
    requires k < |proposals| && LastOfId(proposals + [q], k)
    ensures LastOfId(proposals, k) && proposals[k].id != q.id
  {
    var more := proposals + [q];
    assert more[|proposals|].id != more[k].id;
    assert forall j :: k < j < |proposals| ==> proposals[j].id == more[j].id;
  }

  lemma MergedOneMore(before: Prototypes, now: Prototypes, url: string, proposals: seq<Proposal>, uuids: seq<string>,
                      q: Proposal, uuid: string)
    requires |uuids| == |proposals| && Merged(before, now, url, proposals, uuids)
    ensures var p := Made(url, q, uuid);
      Merged(before, now[p.key := p], url, proposals + [q], uuids + [uuid])
  {
    hide Proposed, LastOfId;
    var more, ids, p := proposals + [q], uuids + [uuid], Made(url, q, uuid);
    var after := now[p.key := p];
    ProposedOneMore(url, proposals, q);
    assert after.Keys == now.Keys + {p.key};
    forall k | 0 <= k < |more| && LastOfId(more, k)
      ensures var key := (url, more[k].id);
        key in after && after[key] == Prototype(key, ids[k], more[k].hint, more[k].headline)
    {
      if k < |proposals| {
        LastOneMore(proposals, q, k);
        assert more[k] == proposals[k] && ids[k] == uuids[k];
      } else {
        assert more[k] == q && ids[k] == uuid;
      }
    }
  }

  lemma NothingAnswered(prototypes: Prototypes, next: seq<Ranked>, ask: seq<Ranked>, url: string)
    ensures Merged(prototypes, prototypes, url, [], [])
    ensures Answered(ask, url, [], []) == ask && WithoutAll(next, url, []) == next
  {
  }

  lemma OneMoreAnswered(
      next: seq<Ranked>, ask: seq<Ranked>, url: string, proposals: seq<Proposal>, uuids: seq<string>, i: nat)
    requires |uuids| == |proposals| && i < |proposals|
    ensures var p := Made(url, proposals[i], uuids[i]);
      && Answered(ask, url, proposals[..i + 1], uuids[..i + 1])
           == Without(Answered(ask, url, proposals[..i], uuids[..i]), p.key) + [Ranked(p, 0.0)]
      && WithoutAll(next, url, proposals[..i + 1]) == Without(WithoutAll(next, url, proposals[..i]), p.key)
  {
    assert proposals[..i + 1][..i] == proposals[..i] && uuids[..i + 1][..i] == uuids[..i];
  }

  lemma {:induction false} AnsweredKeys(s: seq<Ranked>, url: string, proposals: seq<Proposal>, uuids: seq<string>)
    requires |uuids| == |proposals|
    ensures forall p :: p in proposals ==> (url, p.id) in Keys(Answered(s, url, proposals, uuids))
  {
    if proposals != [] {
      var n := |proposals| - 1;
      var earlier, p := Answered(s, url, proposals[..n], uuids[..n]), Made(url, proposals[n], uuids[n]);
      AnsweredKeys(s, url, proposals[..n], uuids[..n]);
      KeysWithout(earlier, p.key);
      AddKey(Without(earlier, p.key), p);
      assert proposals == proposals[..n] + [proposals[n]];
    }
  }

  lemma {:induction false} WithoutAllMembers(s: seq<Ranked>, url: string, proposals: seq<Proposal>)
    ensures forall r :: r in WithoutAll(s, url, proposals) <==>
      r in s && forall p :: p in proposals ==> r.suggestion.key != (url, p.id)
  {
    if proposals != [] {
      var n := |proposals| - 1;
      WithoutAllMembers(s, url, proposals[..n]);
      WithoutMembers(WithoutAll(s, url, proposals[..n]), (url, proposals[n].id));
      assert proposals == proposals[..n] + [proposals[n]];
    }
  }

  /** An entry found in next has its key there, so the query's list is left alone when it goes. */
  lemma NextEntryAlone(prototypes: Prototypes, next: seq<Ranked>, ask: seq<Ranked>, uuid: string)
    requires Partition(prototypes, next, ask) && FirstWith(next, uuid) != []
    ensures var key := FirstWith(next, uuid)[0].suggestion.key;
      key in Keys(next) && Without(ask, key) == ask
  {
    FirstWithIsFirst(next, uuid);
    var r := FirstWith(next, uuid)[0];
    assert r in next && r.suggestion.key in Keys(next);
    WithoutAbsent(ask, r.suggestion.key);
  }

  lemma NoKeys()
    ensures Keys([]) == {}
  {
  }

  lemma MinusOneMore(prototypes: Prototypes, keys: set<Key>, key: Key)
    ensures prototypes - keys - {key} == prototypes - (keys + {key})
    ensures prototypes - {} == prototypes
  {
  }

  lemma OneMoreKey(s: seq<Ranked>, i: nat)
    requires i < |s|
    ensures Keys(s[..i + 1]) == Keys(s[..i]) + {s[i].suggestion.key}
  {
    assert s[..i + 1] == s[..i] + [s[i]];
  }

  // ---------------------------------------------------------------- the engine's features

  const KRONK_NAME: string := "kronk"

  predicate Contains(text: string, word: string) {
    exists i :: 0 <= i <= |text| && word <= text[i..]
  }

  /** Scores a suggestion by its proposal's confidence hint. */
  const HINT: Feature := Feature(1.0, (query: string, p: Prototype) => p.hint)

  /** Scores 1 what a component with "kronk" in its url proposes, and 0 anything else. */
  const KRONK: Feature :=
    Feature(-0.1, (query: string, p: Prototype) => if Contains(p.key.0, KRONK_NAME) then 1.0 else 0.0)

  /** The features of both lists and the one of the query's list, whose weight is 0. */
  ghost predicate EngineFeatures(features: seq<Feature>, queryMatch: Feature) {
    queryMatch.weight == 0.0 && (features == [HINT, KRONK] || features == [HINT, KRONK, queryMatch])
  }

  /** A suggestion's confidence is its hint, less a tenth where a component with "kronk" in its url proposed it, and
      never below 0. */
  ghost predicate Priced(s: seq<Ranked>) {
    forall r :: r in s ==>
      var p := r.suggestion;
      var worth := if Contains(p.key.0, KRONK_NAME) then p.hint - 0.1 else p.hint as real;
      r.confidence == if worth > 0.0 then worth else 0.0
  }

  lemma EmptyLists()
    ensures Partition(map[], [], []) && Nonincreasing([]) && InRange([]) && Priced([]) && Displayed([], [])
  {
    assert Keys([]) == {};
  }

  lemma PricedWithout(s: seq<Ranked>, key: Key)
    ensures Priced(s) ==> Priced(Without(s, key))
  {
    WithoutMembers(s, key);
    hide Without;
  }

  /** Taking a key out of a list that is in order. */
  lemma OrderedWithout(s: seq<Ranked>, key: Key)
    ensures Nonincreasing(s) ==> Nonincreasing(Without(s, key))
    ensures InRange(s) ==> InRange(Without(s, key))
    ensures Priced(s) ==> Priced(Without(s, key))
    ensures key !in Keys(s) ==> Without(s, key) == s
  {
    WithoutMembers(s, key);
    WithoutOrder(s, key);
    PricedWithout(s, key);
    if key !in Keys(s) { WithoutAbsent(s, key); }
    hide Without;
  }

  lemma SumOfThree(a: Feature, b: Feature, c: Feature, query: string, p: Prototype)
    requires c.weight == 0.0
    ensures Sum([a, b], query, p) == a.weight * a.score(query, p) + b.weight * b.score(query, p)
    ensures Sum([a, b, c], query, p) == Sum([a, b], query, p)
  {
    assert [a][..0] == [] && [a, b][..1] == [a] && [a, b, c][..2] == [a, b];
    assert Sum([a], query, p) == a.weight * a.score(query, p);
  }

  lemma NormOfThree(a: Feature, b: Feature, c: Feature)
    ensures Norm([a, b]) == (if a.weight > 0.0 then a.weight else 0.0) + (if b.weight > 0.0 then b.weight else 0.0)
    ensures Norm([a, b, c]) == Norm([a, b]) + (if c.weight > 0.0 then c.weight else 0.0)
  {
    assert [a][..0] == [] && [a, b][..1] == [a] && [a, b, c][..2] == [a, b];
    assert Norm([a]) == (if a.weight > 0.0 then a.weight else 0.0);
  }

  lemma EngineNorm(features: seq<Feature>, queryMatch: Feature)
    requires EngineFeatures(features, queryMatch)
    ensures Norm(features) == 1.0
  {
    NormOfThree(HINT, KRONK, queryMatch);
  }

  lemma EngineConfidence(features: seq<Feature>, queryMatch: Feature, query: string, p: Prototype)
    requires EngineFeatures(features, queryMatch) && Norm(features) == 1.0
    ensures var worth := if Contains(p.key.0, KRONK_NAME) then p.hint - 0.1 else p.hint as real;
      Confidence(features, query, p) == if worth > 0.0 then worth else 0.0
  {
    SumOfThree(HINT, KRONK, queryMatch, query, p);
    hide Contains, Sum, Norm;
  }

  /** Ranking by the engine's features gives every suggestion that confidence. */
  lemma RankedIsPriced(s: seq<Ranked>, features: seq<Feature>, queryMatch: Feature, query: string)
    requires EngineFeatures(features, queryMatch) && Norm(features) > 0.0
    ensures Priced(StableSort(Rescored(s, features, query)))
  {
    var scored := Rescored(s, features, query);
    EngineNorm(features, queryMatch);
    SortMembers(scored);
    hide Confidence, Norm, Contains, StableSort, EngineFeatures;
    forall r | r in scored ensures Priced([r]) {
      EngineConfidence(features, queryMatch, query, r.suggestion);
    }
    forall r | r in StableSort(scored) ensures Priced([r]) { }
    assert forall r :: r in StableSort(scored) ==> r in [r];
  }

  class SuggestionEngine {
    var prototypes: Prototypes
    const next: RankedSuggestions
    const ask: RankedSuggestions
    const queryMatch: Feature
    var nextDirty: bool
    var askDirty: bool

    /** The state between the engine's own steps. */
    ghost predicate Consistent()
      reads this, next, ask
    {
      && next != ask
      && next.Weighted() && next.normalizationFactor > 0.0
      && ask.Weighted() && ask.normalizationFactor > 0.0
      && next.features == [HINT, KRONK] && ask.features == [HINT, KRONK, queryMatch] && queryMatch.weight == 0.0
      && Partition(prototypes, next.suggestions, ask.suggestions)
      && (!nextDirty ==>
           && Nonincreasing(next.suggestions) && InRange(next.suggestions) && Priced(next.suggestions)
           && Displayed(next.subscribers, next.suggestions))
      && (!askDirty ==> Displayed(ask.subscribers, ask.suggestions))
    }

    /** The state between events: the query's suggestions are always in order. */
    ghost predicate Valid()
      reads this, next, ask
    {
      Consistent() && Nonincreasing(ask.suggestions) && InRange(ask.suggestions) && Priced(ask.suggestions)
    }

    /** The query match has weight 0, so any feature will do for it. */
    constructor (queryMatch: Feature)
      requires queryMatch.weight == 0.0 && forall q, p :: 0.0 <= queryMatch.score(q, p) <= 1.0
      ensures Valid() && fresh(next) && fresh(ask)
      ensures prototypes == map[] && next.suggestions == [] && ask.suggestions == []
      ensures this.queryMatch == queryMatch
    {
      prototypes, nextDirty, askDirty := map[], false, false;
      next := new RankedSuggestions();
      ask := new RankedSuggestions();
      this.queryMatch := queryMatch;
      new;
      EmptyLists();
      hide Partition, Scored, Norm, Sum, Nonincreasing, InRange, Displayed, Contains;
      AddCommonFeatures(next);
      AddCommonFeatures(ask);
      ask.AddRankingFeature(queryMatch);
      NormOfThree(HINT, KRONK, queryMatch);
      assert [HINT, KRONK] + [queryMatch] == [HINT, KRONK, queryMatch];
    }

    static method AddCommonFeatures(list: RankedSuggestions)
      requires list.Weighted() && list.features == []
      modifies list`features, list`normalizationFactor
      ensures list.Weighted() && list.features == [HINT, KRONK]
    {
      list.AddRankingFeature(HINT);
      list.AddRankingFeature(KRONK);
    }

    method AddNextProposal(url: string, proposal: Proposal, uuid: string)
      requires Valid()
      modifies this, next`suggestions, ask`suggestions
      ensures Valid() && nextDirty
      ensures askDirty == (old(askDirty) || (url, proposal.id) in Keys(old(ask.suggestions)))
      ensures var p := Made(url, proposal, uuid);
        && prototypes == old(prototypes)[p.key := p]
        && next.suggestions == Without(old(next.suggestions), p.key) + [Ranked(p, 0.0)]
        && ask.suggestions == Without(old(ask.suggestions), p.key)
    {
      hide Partition, Scored, Norm, Without;
      RemoveProposal(url, proposal.id);
      var p := CreateSuggestionPrototype(url, proposal, uuid);
      PartitionAdd(old(prototypes) - {p.key}, next.suggestions, ask.suggestions, p);
      next.AddSuggestion(p);
      nextDirty := true;
    }

    method AddAskProposal(url: string, proposal: Proposal, uuid: string)
      requires Consistent()
      modifies this, next`suggestions, ask`suggestions
      ensures Consistent() && askDirty
      ensures nextDirty == (old(nextDirty) || (url, proposal.id) in Keys(old(next.suggestions)))
      ensures var p := Made(url, proposal, uuid);
        && prototypes == old(prototypes)[p.key := p]
        && next.suggestions == Without(old(next.suggestions), p.key)
        && ask.suggestions == Without(old(ask.suggestions), p.key) + [Ranked(p, 0.0)]
    {
      hide Partition, Scored, Norm, Without;
      RemoveProposal(url, proposal.id);
      var p := CreateSuggestionPrototype(url, proposal, uuid);
      PartitionAdd(old(prototypes) - {p.key}, next.suggestions, ask.suggestions, p);
      ask.AddSuggestion(p);
      askDirty := true;
    }

    /** Fills the prototype under the key, which is made if there is none. */
    method CreateSuggestionPrototype(url: string, proposal: Proposal, uuid: string) returns (p: Prototype)
      modifies this`prototypes
      ensures p == Made(url, proposal, uuid) && prototypes == old(prototypes)[p.key := p]
      ensures p.key == (url, proposal.id) && p.uuid == uuid
      ensures p.hint == proposal.hint && p.headline == proposal.headline
    {
      p := Prototype((url, proposal.id), uuid, proposal.hint, proposal.headline);
      prototypes := prototypes[(url, proposal.id) := p];
    }

    method RemoveProposal(url: string, id: string)
      requires Consistent()
      modifies this, next`suggestions, ask`suggestions
      ensures Consistent()
      ensures old(Valid()) ==> Valid()
      ensures prototypes == old(prototypes) - {(url, id)}
      ensures next.suggestions == Without(old(next.suggestions), (url, id))
      ensures ask.suggestions == Without(old(ask.suggestions), (url, id))
      ensures nextDirty == (old(nextDirty) || (url, id) in Keys(old(next.suggestions)))
      ensures askDirty == (old(askDirty) || (url, id) in Keys(old(ask.suggestions)))
    {
      hide Partition, Scored, Norm, Without, Contains, Priced, Distinct, Displayed, InRange, Nonincreasing, Keys;
      var key := (url, id);
      PartitionKeys(prototypes, next.suggestions, ask.suggestions);
      PartitionRemove(prototypes, next.suggestions, ask.suggestions, key);
      OrderedWithout(next.suggestions, key);
      OrderedWithout(ask.suggestions, key);
      if key in prototypes {
        var removed := ask.RemoveProposal(key);
        if removed {
          askDirty := true;
        }
        removed := next.RemoveProposal(key);
        if removed {
          nextDirty := true;
        }
        prototypes := prototypes - {key};
      } else {
        assert prototypes - {key} == prototypes;
      }
    }

    /** Brings what subscribers see up to date. The query's suggestions are not ranked again. */
    method Validate()
      requires Valid()
      modifies this`nextDirty, this`askDirty, next`suggestions, next`subscribers, ask`subscribers
      ensures Valid() && !nextDirty && !askDirty
      ensures next.suggestions == Validated(old(next.suggestions), old(nextDirty), next.features)
      ensures !old(nextDirty) ==> next.suggestions == old(next.suggestions)
      ensures Priced(next.suggestions)
      ensures SameWindows(old(next.subscribers), next.subscribers)
      ensures SameWindows(old(ask.subscribers), ask.subscribers)
    {
      if nextDirty {
        PartitionRank(prototypes, next.suggestions, ask.suggestions, next.features, "");
        RankedList(next.suggestions, next.features, "");
        RankedIsPriced(next.suggestions, next.features, queryMatch, "");
        next.Rank("");
        nextDirty := false;
      }
      if askDirty {
        ask.DispatchInvalidate();
        askDirty := false;
      }
    }

    /** A publisher proposes: afterwards every subscriber to next shows the best of the new list. */
    method Propose(url: string, proposal: Proposal, uuid: string)
      requires Valid()
      modifies this, next`suggestions, next`subscribers, ask`suggestions, ask`subscribers
      ensures Valid() && !nextDirty && !askDirty
      ensures var p := Made(url, proposal, uuid);
        && prototypes == old(prototypes)[p.key := p]
        && next.suggestions ==
             StableSort(Rescored(Without(old(next.suggestions), p.key) + [Ranked(p, 0.0)], next.features, ""))
        && ask.suggestions == Without(old(ask.suggestions), p.key)
      ensures Priced(next.suggestions) && Nonincreasing(next.suggestions)
      ensures exists r ::
        r in next.suggestions && r.suggestion == Prototype((url, proposal.id), uuid, proposal.hint, proposal.headline)
      ensures SameWindows(old(next.subscribers), next.subscribers)
      ensures SameWindows(old(ask.subscribers), ask.subscribers)
    {
      AddNextProposal(url, proposal, uuid);
      assert next.suggestions[|next.suggestions| - 1].suggestion.key in Keys(next.suggestions);
      Validate();
    }

    /** A publisher takes a proposal back. */
    method Withdraw(url: string, id: string)
      requires Valid()
      modifies this, next`suggestions, next`subscribers, ask`suggestions, ask`subscribers
      ensures Valid() && !nextDirty && !askDirty
      ensures prototypes == old(prototypes) - {(url, id)}
      ensures next.suggestions == Validated(Without(old(next.suggestions), (url, id)),
        old(nextDirty) || (url, id) in Keys(old(next.suggestions)), next.features)
      ensures ask.suggestions == Without(old(ask.suggestions), (url, id))
      ensures SameWindows(old(next.subscribers), next.subscribers)
      ensures SameWindows(old(ask.subscribers), ask.subscribers)
    {
      RemoveProposal(url, id);
      Validate();
    }

    /** A query handler answers: its proposals are added and the query's list is ranked. */
    method OnQueryResponse(url: string, proposals: seq<Proposal>, uuids: seq<string>, query: string)
      requires Valid() && |uuids| == |proposals|
      modifies this, next`suggestions, ask`suggestions, ask`subscribers
      ensures Valid() && !askDirty
      ensures ask.suggestions ==
        StableSort(Rescored(Answered(old(ask.suggestions), url, proposals, uuids), ask.features, query))
      ensures next.suggestions == WithoutAll(old(next.suggestions), url, proposals)
      ensures Merged(old(prototypes), prototypes, url, proposals, uuids)
      ensures forall p :: p in proposals ==> (url, p.id) in Keys(ask.suggestions)
      ensures forall r :: r in next.suggestions <==>
        r in old(next.suggestions) && forall p :: p in proposals ==> r.suggestion.key != (url, p.id)
      ensures SameWindows(old(ask.subscribers), ask.subscribers)
    {
      hide Partition, Scored, Norm, Without, Answered, WithoutAll, Nonincreasing, InRange, Displayed, StableSort,
        Rescored, Keys;
      AnsweredKeys(ask.suggestions, url, proposals, uuids);
      WithoutAllMembers(next.suggestions, url, proposals);
      AddAskProposals(url, proposals, uuids);
      PartitionRank(prototypes, next.suggestions, ask.suggestions, ask.features, query);
      RankedList(ask.suggestions, ask.features, query);
      RankedIsPriced(ask.suggestions, ask.features, queryMatch, query);
      ask.Rank(query);
      askDirty := false;
    }

    method AddAskProposals(url: string, proposals: seq<Proposal>, uuids: seq<string>)
      requires Consistent() && |uuids| == |proposals|
      modifies this, next`suggestions, ask`suggestions
      ensures Consistent()
      ensures ask.suggestions == Answered(old(ask.suggestions), url, proposals, uuids)
      ensures next.suggestions == WithoutAll(old(next.suggestions), url, proposals)
      ensures Merged(old(prototypes), prototypes, url, proposals, uuids)
    {
      hide Partition, Scored, Norm, Without, Nonincreasing, InRange, Displayed, Priced, Keys, Merged, Answered,
        WithoutAll, Proposed, LastOfId;
      NothingAnswered(prototypes, next.suggestions, ask.suggestions, url);
      for i := 0 to |proposals|
        invariant Consistent()
        invariant ask.suggestions == Answered(old(ask.suggestions), url, proposals[..i], uuids[..i])
        invariant next.suggestions == WithoutAll(old(next.suggestions), url, proposals[..i])
        invariant Merged(old(prototypes), prototypes, url, proposals[..i], uuids[..i])
      {
        ghost var before := prototypes;
        OneMoreAnswered(old(next.suggestions), old(ask.suggestions), url, proposals, uuids, i);
        AddAskProposal(url, proposals[i], uuids[i]);
        MergedOneMore(old(prototypes), before, url, proposals[..i], uuids[..i], proposals[i], uuids[i]);
        assert proposals[..i + 1] == proposals[..i] + [proposals[i]] && uuids[..i + 1] == uuids[..i] + [uuids[i]];
      }
      assert proposals[..|proposals|] == proposals && uuids[..|uuids|] == uuids;
    }

    /** Forgets the previous query: its suggestions, their prototypes and its subscriber. */
    method CleanUpPreviousQuery()
      requires Valid()
      modifies this`prototypes, ask`suggestions, ask`subscribers
      ensures Valid() && ask.suggestions == [] && ask.subscribers == []
      ensures prototypes == old(prototypes) - Keys(old(ask.suggestions))
    {
      hide Partition, Scored, Norm, Nonincreasing, InRange, Displayed, Keys, Priced;
      NoKeys();
      for i := 0 to |ask.suggestions|
        invariant ask.suggestions == old(ask.suggestions) && ask.subscribers == old(ask.subscribers)
        invariant prototypes == old(prototypes) - Keys(ask.suggestions[..i])
      {
        OneMoreKey(ask.suggestions, i);
        MinusOneMore(old(prototypes), Keys(ask.suggestions[..i]), ask.suggestions[i].suggestion.key);
        prototypes := prototypes - {ask.suggestions[i].suggestion.key};
      }
      assert ask.suggestions[..|ask.suggestions|] == ask.suggestions;
      PartitionClear(old(prototypes), next.suggestions, ask.suggestions);
      ask.RemoveAllSuggestions();
      ask.RemoveAllSubscribers();
      EmptyLists();
    }

    /** A new query replaces the previous one. */
    method Query(count: nat)
      requires Valid()
      modifies this`prototypes, ask`suggestions, ask`subscribers
      ensures Valid() && ask.suggestions == [] && ask.subscribers == [Subscriber(count, [])]
    {
      CleanUpPreviousQuery();
      ask.AddSubscriber(count);
    }

    method SubscribeToNext(count: nat)
      requires Valid()
      modifies next`subscribers
      ensures Valid()
      ensures next.subscribers == old(next.subscribers) + [Subscriber(count, Window(next.suggestions, count))]
    {
      next.AddSubscriber(count);
    }

    /** A suggestion is selected or dismissed: one of the next list goes away, one of the query ends the
        query. */
    method NotifyInteraction(uuid: string)
      requires Valid()
      modifies this, next`suggestions, next`subscribers, ask`suggestions, ask`subscribers
      ensures Valid() && SameWindows(old(next.subscribers), next.subscribers)
      ensures var inNext, inAsk := FirstWith(old(next.suggestions), uuid), FirstWith(old(ask.suggestions), uuid);
        if inNext != [] then
          var key := inNext[0].suggestion.key;
          && !nextDirty && !askDirty
          && prototypes == old(prototypes) - {key}
          && next.suggestions == StableSort(Rescored(Without(old(next.suggestions), key), next.features, ""))
          && ask.suggestions == old(ask.suggestions)
        else if inAsk != [] then
          && !nextDirty && !askDirty
          && prototypes == old(prototypes) - Keys(old(ask.suggestions))
          && next.suggestions == Validated(old(next.suggestions), old(nextDirty), next.features)
          && ask.suggestions == [] && ask.subscribers == []
        else
          && prototypes == old(prototypes) && nextDirty == old(nextDirty) && askDirty == old(askDirty)
          && next.suggestions == old(next.suggestions) && ask.suggestions == old(ask.suggestions)
          && next.subscribers == old(next.subscribers) && ask.subscribers == old(ask.subscribers)
    {
      var inNext := next.GetSuggestion(uuid);
      if inNext != [] {
        NextEntryAlone(prototypes, next.suggestions, ask.suggestions, uuid);
        RemoveProposal(inNext[0].suggestion.key.0, inNext[0].suggestion.key.1);
        Validate();
        return;
      }
      var inAsk := ask.GetSuggestion(uuid);
      if inAsk != [] {
        CleanUpPreviousQuery();
        Validate();
      }
    }
  }
}
