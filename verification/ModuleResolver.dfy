/** Finding modules by verb and nouns: two inverted indexes over manifest entries, and a query whose
    noun types are answered one by one in any order. */
module ModuleResolver {
  import opened Options

  /** The manifest source and the id within it. */
  type EntryId = (string, string)

  datatype NounConstraint = NounConstraint(name: string, types: seq<string>)
  datatype Entry = Entry(verb: string, binary: string, localName: string, constraints: seq<NounConstraint>)

  type Entries = map<EntryId, Entry>

  /** The entry takes this type for the noun of this name. */
  predicate Takes(constraints: seq<NounConstraint>, t: string, name: string) {
    exists c :: c in constraints && c.name == name && t in c.types
  }

  type Postings<!K> = map<K, set<EntryId>>

  function Posted<K>(p: Postings<K>, k: K): set<EntryId> {
    if k in p then p[k] else {}
  }

  // ---------------------------------------------------------------- what a query means

  /** The types answered so far, by noun name. */
  type Answers = map<string, seq<string>>

  ghost predicate Accepts(e: Entry, answers: Answers) {
    forall n :: n in answers ==> exists t :: t in answers[n] && Takes(e.constraints, t, n)
  }

  /** The entries that fit: the verb is theirs, and of every noun they take one of its types. */
  ghost function Fitting(entries: Entries, verb: string, answers: Answers): set<EntryId> {
    set id | id in entries && entries[id].verb == verb && Accepts(entries[id], answers)
  }

  datatype Found = Found(binary: string, localName: string)

  /** The types of one noun, and the entries there were when they arrived. */
  datatype Answer = Answer(entries: Entries, types: seq<string>)

  /** At the time of the answer the entry was there and took one of the types for the noun. */
  ghost predicate AcceptedAt(a: Answer, id: EntryId, noun: string) {
    id in a.entries && exists t :: t in a.types && Takes(a.entries[id].constraints, t, noun)
  }

  /** The entries with the verb at the start that were accepted at every answer since. */
  ghost function Surviving(atStart: Entries, verb: string, answers: map<string, Answer>): set<EntryId> {
    set id | id in atStart && atStart[id].verb == verb && forall n :: n in answers ==> AcceptedAt(answers[n], id, n)
  }

  /** The same of one entry, spelled out. */
  ghost predicate Survives(atStart: Entries, verb: string, answers: map<string, Answer>, id: EntryId) {
    && id in atStart && atStart[id].verb == verb
    && forall n :: n in answers ==>
         && id in answers[n].entries
         && exists t, c ::
              t in answers[n].types && c in answers[n].entries[id].constraints && c.name == n && t in c.types
  }

  lemma SurvivingSurvives(atStart: Entries, verb: string, answers: map<string, Answer>, id: EntryId)
    ensures id in Surviving(atStart, verb, answers) <==> Survives(atStart, verb, answers, id)
  {
    if Survives(atStart, verb, answers, id) {
      forall n | n in answers ensures AcceptedAt(answers[n], id, n) {
        var t, c :|
          t in answers[n].types && c in answers[n].entries[id].constraints && c.name == n && t in c.types;
        assert Takes(answers[n].entries[id].constraints, t, n);
      }
    }
    if id in Surviving(atStart, verb, answers) {
      forall n | n in answers
        ensures id in answers[n].entries
        ensures exists t, c ::
          t in answers[n].types && c in answers[n].entries[id].constraints && c.name == n && t in c.types
      {
        assert AcceptedAt(answers[n], id, n);
      }
    }
  }

  /** The types alone. */
  ghost function Types(answers: map<string, Answer>): Answers {
    map n | n in answers :: answers[n].types
  }

  lemma OneMoreAnswer(atStart: Entries, verb: string, answers: map<string, Answer>, name: string, a: Answer)
    requires name !in answers
    ensures Surviving(atStart, verb, answers[name := a])
         == set id | id in Surviving(atStart, verb, answers) && AcceptedAt(a, id, name)
  {
    var more := answers[name := a];
    assert name in more && more[name] == a;
    forall id | id in Surviving(atStart, verb, more) ensures id in Surviving(atStart, verb, answers) {
      forall n | n in answers ensures AcceptedAt(answers[n], id, n) {
        assert n in more && more[n] == answers[n];
      }
    }
  }

  ghost predicate VerbIndex(verbs: Postings<string>, entries: Entries) {
    forall v, id :: id in Posted(verbs, v) <==> id in entries && entries[id].verb == v
  }

  ghost predicate NounIndex(nouns: Postings<(string, string)>, entries: Entries) {
    forall t, n, id :: id in Posted(nouns, (t, n)) <==> id in entries && Takes(entries[id].constraints, t, n)
  }

  lemma VerbAdded(verbs: Postings<string>, entries: Entries, id: EntryId, e: Entry)
    requires VerbIndex(verbs, entries) && id !in entries
    ensures VerbIndex(verbs[e.verb := Posted(verbs, e.verb) + {id}], entries[id := e])
  {
    var now, all := verbs[e.verb := Posted(verbs, e.verb) + {id}], entries[id := e];
    forall v, x ensures x in Posted(now, v) <==> x in all && all[x].verb == v {
      assert x in Posted(verbs, v) <==> x in entries && entries[x].verb == v;
    }
  }

  lemma VerbRemoved(verbs: Postings<string>, entries: Entries, id: EntryId)
    requires VerbIndex(verbs, entries) && id in entries
    ensures var v := entries[id].verb; VerbIndex(verbs[v := Posted(verbs, v) - {id}], entries - {id})
  {
    var verb := entries[id].verb;
    var now, all := verbs[verb := Posted(verbs, verb) - {id}], entries - {id};
    forall v, x ensures x in Posted(now, v) <==> x in all && all[x].verb == v {
      assert x in Posted(verbs, v) <==> x in entries && entries[x].verb == v;
    }
  }

  lemma NounAdded(before: Postings<(string, string)>, after: Postings<(string, string)>,
                  entries: Entries, id: EntryId, e: Entry)
    requires NounIndex(before, entries) && id !in entries
    requires forall t, n, x :: x in Posted(after, (t, n)) <==>
      if x == id && Takes(e.constraints, t, n) then true else x in Posted(before, (t, n))
    ensures NounIndex(after, entries[id := e])
  {
    hide Takes;
  }

  lemma TakesOneMore(constraints: seq<NounConstraint>, i: nat)
    requires i < |constraints|
    ensures forall t, n :: Takes(constraints[..i + 1], t, n) <==>
      Takes(constraints[..i], t, n) || (n == constraints[i].name && t in constraints[i].types)
  {
    assert constraints[..i + 1] == constraints[..i] + [constraints[i]];
    forall t, n ensures Takes(constraints[..i + 1], t, n) <==>
      Takes(constraints[..i], t, n) || (n == constraints[i].name && t in constraints[i].types)
    {
      if n == constraints[i].name && t in constraints[i].types {
        assert constraints[i] in constraints[..i + 1];
      }
      if Takes(constraints[..i], t, n) {
        var c :| c in constraints[..i] && c.name == n && t in c.types;
        assert c in constraints[..i + 1];
      }
    }
  }

  /** Enters an id under every (type, noun name) of its constraints, or takes it out there. */
  method Post(p: Postings<(string, string)>, constraints: seq<NounConstraint>, id: EntryId, enter: bool)
    returns (r: Postings<(string, string)>)
    ensures forall t, n, x :: x in Posted(r, (t, n)) <==>
      if x == id && Takes(constraints, t, n) then enter else x in Posted(p, (t, n))
  {
    r := p;
    for i := 0 to |constraints|
      invariant forall t, n, x :: x in Posted(r, (t, n)) <==>
        if x == id && Takes(constraints[..i], t, n) then enter else x in Posted(p, (t, n))
    {
      var c := constraints[i];
      ghost var before := r;
      for j := 0 to |c.types|
        invariant forall t, n, x :: x in Posted(r, (t, n)) <==>
          if x == id && n == c.name && t in c.types[..j] then enter else x in Posted(before, (t, n))
      {
        var key := (c.types[j], c.name);
        assert c.types[..j + 1] == c.types[..j] + [c.types[j]];
        ghost var last := r;
        r := r[key := if enter then Posted(r, key) + {id} else Posted(r, key) - {id}];
        forall t, n, x ensures x in Posted(r, (t, n)) <==>
          if x == id && n == c.name && t in c.types[..j + 1] then enter else x in Posted(before, (t, n))
        {
          assert x in Posted(last, (t, n)) <==>
            if x == id && n == c.name && t in c.types[..j] then enter else x in Posted(before, (t, n));
        }
      }
      assert c.types[..|c.types|] == c.types;
      TakesOneMore(constraints, i);
    }
    assert constraints[..|constraints|] == constraints;
  }

  // ---------------------------------------------------------------- entries that change during a query

  /** The entries with the verb. */
  ghost function OfVerb(entries: Entries, verb: string): Entries {
    map id | id in entries && entries[id].verb == verb :: entries[id]
  }

  lemma TakesOfAnswer(e: Entry, answers: map<string, Answer>)
    ensures Accepts(e, Types(answers)) <==>
      forall n :: n in answers ==> exists t :: t in answers[n].types && Takes(e.constraints, t, n)
  {
    if Accepts(e, Types(answers)) {
      forall n | n in answers ensures exists t :: t in answers[n].types && Takes(e.constraints, t, n) {
        assert n in Types(answers);
      }
    }
  }

  /** If no entry with the query's verb changes, whatever happens to others, the survivors are the entries
      that fit at the end. */
  lemma SteadyVerbSurvivorsFit(atStart: Entries, verb: string, answers: map<string, Answer>, now: Entries)
    requires OfVerb(atStart, verb) == OfVerb(now, verb)
    requires forall n :: n in answers ==> OfVerb(answers[n].entries, verb) == OfVerb(now, verb)
    ensures Surviving(atStart, verb, answers) == Fitting(now, verb, Types(answers))
  {
    var part := OfVerb(now, verb);
    forall id ensures id in Surviving(atStart, verb, answers) <==> id in Fitting(now, verb, Types(answers)) {
      assert id in atStart && atStart[id].verb == verb <==> id in OfVerb(atStart, verb);
      if id in part {
        assert id in OfVerb(atStart, verb);
        TakesOfAnswer(now[id], answers);
        forall n | n in answers
          ensures AcceptedAt(answers[n], id, n) <==>
            exists t :: t in answers[n].types && Takes(now[id].constraints, t, n)
        {
          assert id in OfVerb(answers[n].entries, verb) && OfVerb(answers[n].entries, verb)[id] == part[id];
        }
      }
    }
  }

  predicate SameAt(e: Entries, f: Entries, id: EntryId) {
    (id in e <==> id in f) && (id in e ==> e[id] == f[id])
  }

  /** The entry was the same at the start and at every answer as it is now. */
  ghost predicate Untouched(atStart: Entries, answers: map<string, Answer>, now: Entries, id: EntryId) {
    SameAt(atStart, now, id) && forall n :: n in answers ==> SameAt(answers[n].entries, now, id)
  }

  lemma UntouchedSurvivesIfFit(atStart: Entries, verb: string, answers: map<string, Answer>, now: Entries, id: EntryId)
    requires Untouched(atStart, answers, now, id)
    ensures id in Surviving(atStart, verb, answers) <==> id in Fitting(now, verb, Types(answers))
  {
    if id in now {
      TakesOfAnswer(now[id], answers);
      forall n | n in answers
        ensures AcceptedAt(answers[n], id, n) <==> exists t :: t in answers[n].types && Takes(now[id].constraints, t, n)
      {
        assert SameAt(answers[n].entries, now, id);
      }
    }
  }

  /** When the result agrees with the entries at the end. It has none that does not fit then if and only if no
      entry that was replaced survives although it has got another verb or lost the types of a noun answered
      before; and it lacks none that fits then if and only if no entry that came or was replaced fits although
      it did not at the start or at an answer. */
  lemma ResultIsFilter(atStart: Entries, verb: string, answers: map<string, Answer>, now: Entries)
    ensures Surviving(atStart, verb, answers) <= Fitting(now, verb, Types(answers)) <==>
      forall id :: !Untouched(atStart, answers, now, id) && id in Surviving(atStart, verb, answers) ==>
        id in now && now[id].verb == verb && Accepts(now[id], Types(answers))
    ensures Fitting(now, verb, Types(answers)) <= Surviving(atStart, verb, answers) <==>
      forall id :: !Untouched(atStart, answers, now, id) && id in Fitting(now, verb, Types(answers)) ==>
        id in atStart && atStart[id].verb == verb && forall n :: n in answers ==> AcceptedAt(answers[n], id, n)
  {
    var survivors, fitting := Surviving(atStart, verb, answers), Fitting(now, verb, Types(answers));
    forall id | Untouched(atStart, answers, now, id) ensures id in survivors <==> id in fitting {
      UntouchedSurvivesIfFit(atStart, verb, answers, now, id);
    }
  }

  /** What an answer accepts is an entry at that time. */
  lemma SurvivorsAreEntries(atStart: Entries, verb: string, answers: map<string, Answer>, name: string)
    requires name in answers
    ensures Surviving(atStart, verb, answers) <= answers[name].entries.Keys
  {
    forall id | id in Surviving(atStart, verb, answers) ensures id in answers[name].entries {
      assert AcceptedAt(answers[name], id, name);
    }
  }

  ghost function Results(entries: Entries, ids: set<EntryId>): map<EntryId, Found>
    requires ids <= entries.Keys
  {
    map id | id in ids :: Found(entries[id].binary, entries[id].localName)
  }

  lemma Smaller(s: set<string>, t: set<string>, x: string)
    requires s < t && x in t && x !in s
    ensures |s + {x}| == |s| + 1 <= |t|
    ensures |s + {x}| == |t| <==> s + {x} == t
  {
    var more := s + {x};
    if more != t {
      var y :| y in t && y !in more;
      assert |t| == |more + {y} + (t - more - {y})| by { assert more + {y} + (t - more - {y}) == t; }
    }
    assert |t| == |more| + |t - more| by { assert more + (t - more) == t; }
  }

  class Resolver {
    var entries: Entries
    var verbToEntries: Postings<string>
    var nounTypeToEntries: Postings<(string, string)>

    /** Both indexes hold exactly what the entries say. */
    ghost predicate Valid()
      reads this
    {
      VerbIndex(verbToEntries, entries) && NounIndex(nounTypeToEntries, entries)
    }

    constructor ()
      ensures Valid() && entries == map[]
    {
      entries, verbToEntries, nounTypeToEntries := map[], map[], map[];
    }

    /** A new entry takes the place of one with the same id. */
    method OnNewManifestEntry(sourceName: string, idIn: string, newEntry: Entry)
      requires Valid()
      modifies this
      ensures Valid() && entries == old(entries)[(sourceName, idIn) := newEntry]
    {
      hide VerbIndex, NounIndex, Takes;
      var id := (sourceName, idIn);
      if id in entries {
        OnRemoveManifestEntry(sourceName, idIn);
      }
      ghost var others, nouns := entries, nounTypeToEntries;
      VerbAdded(verbToEntries, entries, id, newEntry);
      entries := entries[id := newEntry];
      verbToEntries := verbToEntries[newEntry.verb := Posted(verbToEntries, newEntry.verb) + {id}];
      nounTypeToEntries := Post(nounTypeToEntries, newEntry.constraints, id, true);
      NounAdded(nouns, nounTypeToEntries, others, id, newEntry);
    }

    method OnRemoveManifestEntry(sourceName: string, idIn: string)
      requires Valid()
      modifies this
      ensures Valid() && entries == old(entries) - {(sourceName, idIn)}
    {
      hide VerbIndex, Takes;
      var id := (sourceName, idIn);
      if id !in entries {
        return;
      }
      var entry := entries[id];
      VerbRemoved(verbToEntries, entries, id);
      verbToEntries := verbToEntries[entry.verb := Posted(verbToEntries, entry.verb) - {id}];
      nounTypeToEntries := Post(nounTypeToEntries, entry.constraints, id, false);
      entries := entries - {id};
    }
  }

  /** One query. It waits for the types of each of its nouns, which arrive in any order, while entries may
      come, change and go. */
  class FindModulesCall {
    const resolver: Resolver
    const verb: Option<string>
    const nouns: set<string>

    var candidates: set<EntryId>
    var countdown: nat
    var result: Option<map<EntryId, Found>>

    /** The nouns answered, the entries at the start, and how often the query has come to its end. */
    ghost var answers: map<string, Answer>
    ghost var atStart: Entries
    ghost var finished: nat

    /** The query is open. */
    ghost predicate Waiting()
      reads this
    {
      && verb.Some?
      && answers.Keys < nouns
      && countdown == |nouns| - |answers.Keys|
      && candidates == Surviving(atStart, verb.value, answers)
      && result == None && finished == 0
    }

    /** The query has come to its end, once, and every survivor is an entry and has become a result. */
    ghost predicate Ended()
      reads this, resolver
    {
      && verb.Some?
      && finished == 1
      && Surviving(atStart, verb.value, answers) <= resolver.entries.Keys
      && result == Some(Results(resolver.entries, Surviving(atStart, verb.value, answers)))
    }

    /** The result has every survivor and nothing else, each with its binary and its local name as they are now. */
    ghost predicate Resolved()
      reads this, resolver
    {
      && verb.Some? && result.Some?
      && (forall id :: id in result.value <==> Survives(atStart, verb.value, answers, id))
      && forall id :: id in result.value ==>
           && id in resolver.entries
           && result.value[id].binary == resolver.entries[id].binary
           && result.value[id].localName == resolver.entries[id].localName
    }

    constructor (resolver: Resolver, verb: Option<string>, nouns: set<string>)
      ensures this.resolver == resolver && this.verb == verb && this.nouns == nouns
      ensures answers == map[] && result == None && finished == 0
    {
      this.resolver, this.verb, this.nouns := resolver, verb, nouns;
      candidates, countdown, result, answers, atStart, finished := {}, 0, None, map[], map[], 0;
    }

    /** Starts the query. Without a verb, or with one that no entry ever had, the result is empty and
        no noun is looked at. */
    method Run()
      requires resolver.Valid() && answers == map[] && result == None && finished == 0
      modifies this
      ensures unchanged(this`answers) && atStart == resolver.entries
      ensures verb.None? ==> result == Some(map[]) && finished == 0
      ensures verb.Some? && verb.value !in resolver.verbToEntries ==>
        && result == Some(map[]) && finished == 0
        && forall more :: Surviving(atStart, verb.value, more) == {}
      ensures verb.Some? && verb.value in resolver.verbToEntries ==> if nouns == {} then Ended() else Waiting()
      ensures verb.Some? && nouns == {} ==> Resolved()
    {
      atStart := resolver.entries;
      if verb.None? {
        result := Some(map[]);
        return;
      }
      assert forall id :: id in Posted(resolver.verbToEntries, verb.value) <==>
        id in atStart && atStart[id].verb == verb.value;
      if verb.value !in resolver.verbToEntries {
        result := Some(map[]);
        return;
      }
      candidates := resolver.verbToEntries[verb.value];
      assert candidates == Surviving(atStart, verb.value, map[]) by {
        assert forall id :: id in candidates <==> id in Posted(resolver.verbToEntries, verb.value);
      }
      if nouns == {} {
        Finally();
        return;
      }
      countdown := |nouns|;
    }

    /** The types of one noun arrive, and the last ones end the query. Whatever has come, changed or gone
        meanwhile, no survivor is missing then: each has just been found among the entries. */
    method OnNounTypes(name: string, types: seq<string>)
      requires resolver.Valid() && Waiting() && name in nouns && name !in answers
      modifies this
      ensures answers == old(answers)[name := Answer(resolver.entries, types)] && atStart == old(atStart)
      ensures if answers.Keys == nouns then Ended() && Resolved() else Waiting()
    {
      ProcessNounTypes(name, types);
      ghost var before := answers;
      answers := answers[name := Answer(resolver.entries, types)];
      assert answers.Keys == before.Keys + {name};
      Smaller(before.Keys, nouns, name);
      countdown := countdown - 1;
      if countdown == 0 {
        SurvivorsAreEntries(atStart, verb.value, answers, name);
        Finally();
      }
    }

    method ProcessNounTypes(name: string, types: seq<string>)
      requires resolver.Valid() && verb.Some? && name !in answers
      requires candidates == Surviving(atStart, verb.value, answers)
      modifies this`candidates
      ensures candidates == Surviving(atStart, verb.value, answers[name := Answer(resolver.entries, types)])
    {
      var nounTypeEntries: set<EntryId> := {};
      for i := 0 to |types|
        invariant forall id :: id in nounTypeEntries <==>
          exists t :: t in types[..i] && id in Posted(resolver.nounTypeToEntries, (t, name))
      {
        assert types[..i + 1] == types[..i] + [types[i]];
        if (types[i], name) in resolver.nounTypeToEntries {
          nounTypeEntries := nounTypeEntries + resolver.nounTypeToEntries[(types[i], name)];
        }
      }
      assert types[..|types|] == types;
      ghost var a := Answer(resolver.entries, types);
      OneMoreAnswer(atStart, verb.value, answers, name, a);
      assert forall id :: id in nounTypeEntries <==> AcceptedAt(a, id, name);
      candidates := candidates * nounTypeEntries;
    }

    /** Every candidate becomes a result, as the entry is now. */
    method Finally()
      requires verb.Some? && result == None && finished == 0
      requires candidates == Surviving(atStart, verb.value, answers) <= resolver.entries.Keys
      modifies this`result, this`finished
      ensures Ended() && Resolved()
    {
      finished := finished + 1;
      var modules: map<EntryId, Found> := map[];
      var left := candidates;
      while left != {}
        invariant left <= candidates && finished == 1
        invariant modules.Keys == candidates - left
        invariant forall id :: id in modules ==>
          modules[id] == Found(resolver.entries[id].binary, resolver.entries[id].localName)
        decreases left
      {
        var id :| id in left;
        var entry := resolver.entries[id];
        modules := modules[id := Found(entry.binary, entry.localName)];
        left := left - {id};
      }
      assert modules == Results(resolver.entries, candidates);
      forall id ensures id in candidates <==> Survives(atStart, verb.value, answers, id) {
        SurvivingSurvives(atStart, verb.value, answers, id);
      }
      result := Some(modules);
    }
  }

  /** A query whose result holds a module of another verb: the entry is replaced, under its id, while the
      query waits for its noun, and still takes the noun's type. */
  method StaleResult(verb: string, other: string, noun: string, t: string) returns (r: Resolver, call: FindModulesCall)
    requires verb != other
    ensures call.resolver == r && call.verb == Some(verb) && call.result.Some?
    ensures ("", "") in call.result.value && ("", "") in r.entries && r.entries[("", "")].verb == other
    ensures ("", "") !in Fitting(r.entries, verb, Types(call.answers))
  {
    hide Survives;
    r := new Resolver();
    var before := Entry(verb, "", "", [NounConstraint(noun, [t])]);
    var after := before.(verb := other);
    r.OnNewManifestEntry("", "", before);
    call := new FindModulesCall(r, Some(verb), {noun});
    assert r.entries[("", "")].verb == verb;
    assert ("", "") in Posted(r.verbToEntries, verb);
    call.Run();
    r.OnNewManifestEntry("", "", after);
    call.OnNounTypes(noun, [t]);
    assert call.answers == map[noun := Answer(r.entries, [t])];
    assert after.constraints[0] in after.constraints && t in [t] && Takes(after.constraints, t, noun);
    assert AcceptedAt(call.answers[noun], ("", ""), noun);
  }
}
