/** The inverted index over context metadata: from encoded field values to value ids. */
module ContextIndexes {
  import opened ContextGraphs
  import opened Options

  datatype Focus = FOCUSED | NOT_FOCUSED
  datatype StoryMeta = StoryMeta(id: Option<string>, focused: Option<Focus>)
  datatype ModuleMeta = ModuleMeta(url: Option<string>, path: Option<seq<string>>)
  datatype EntityMeta = EntityMeta(topic: Option<string>, types: Option<seq<string>>)
  datatype LinkMeta = LinkMeta(modulePath: Option<seq<string>>, name: Option<string>)

  /** Absent metadata and metadata with no field set are the same here. */
  datatype Metadata = Metadata(
    story: Option<StoryMeta>, mod: Option<ModuleMeta>, link: Option<LinkMeta>, entity: Option<EntityMeta>)

  datatype ValueType = STORY | MODULE | AGENT | ENTITY | LINK

  type Term = string

  const NUL: char := '\0'

  // ---------------------------------------------------------------- encoding

  function TypeTerm(t: ValueType): Term {
    "t" + match t { case STORY => "1" case MODULE => "2" case AGENT => "3" case ENTITY => "4" case LINK => "5" }
  }

  function FocusText(f: Focus): string {
    if f == FOCUSED then "1" else "0"
  }

  function PathText(path: seq<string>): string {
    if path == [] then "" else [NUL] + path[0] + PathText(path[1..])
  }

  function StoryTerms(m: Metadata): set<Term> {
    if m.story.None? then {} else
      (if m.story.value.id.Some? then {"si" + m.story.value.id.value} else {}) +
      (if m.story.value.focused.Some? then {"sf" + FocusText(m.story.value.focused.value)} else {})
  }

  function ModuleTerms(m: Metadata): set<Term> {
    if m.mod.None? then {} else
      (if m.mod.value.url.Some? then {"mu" + m.mod.value.url.value} else {}) +
      (if m.mod.value.path.Some? then {"mp" + PathText(m.mod.value.path.value)} else {})
  }

  function EntityTerms(m: Metadata): set<Term> {
    if m.entity.None? then {} else
      (if m.entity.value.topic.Some? then {"et" + m.entity.value.topic.value} else {}) +
      (if m.entity.value.types.Some? then set t | t in m.entity.value.types.value :: "ey" + t else {})
  }

  function Terms(t: ValueType, m: Metadata): set<Term> {
    StoryTerms(m) + ModuleTerms(m) + EntityTerms(m) + {TypeTerm(t)}
  }

  // ---------------------------------------------------------------- what a query means

  /** The parts a NUL-separated text splits into. */
  function Split(s: string): (parts: seq<string>)
    ensures parts != []
  {
    if s == "" then [""]
    else
      var rest := Split(s[1..]);
      if s[0] == NUL then [""] + rest else [[s[0]] + rest[0]] + rest[1..]
  }

  /** A path up to what the encoding can tell apart: every part cut at its NULs. */
  function Canonical(path: seq<string>): seq<string> {
    if path == [] then [] else Split(path[0]) + Canonical(path[1..])
  }

  predicate NulFree(path: seq<string>) {
    forall part :: part in path ==> NUL !in part
  }

  /** The type is the selector's and every field the selector sets has the selector's value; of the
      entity types, all that the selector lists are present. */
  ghost predicate Matches(t: ValueType, m: Metadata, selType: ValueType, sel: Metadata) {
    && t == selType
    && (sel.story.Some? && sel.story.value.id.Some? ==>
         m.story.Some? && m.story.value.id == sel.story.value.id)
    && (sel.story.Some? && sel.story.value.focused.Some? ==>
         m.story.Some? && m.story.value.focused == sel.story.value.focused)
    && (sel.mod.Some? && sel.mod.value.url.Some? ==>
         m.mod.Some? && m.mod.value.url == sel.mod.value.url)
    && (sel.mod.Some? && sel.mod.value.path.Some? ==>
         && m.mod.Some? && m.mod.value.path.Some?
         && Canonical(m.mod.value.path.value) == Canonical(sel.mod.value.path.value))
    && (sel.entity.Some? && sel.entity.value.topic.Some? ==>
         m.entity.Some? && m.entity.value.topic == sel.entity.value.topic)
    && (sel.entity.Some? && sel.entity.value.types.Some? ==>
         forall e :: e in sel.entity.value.types.value ==>
           m.entity.Some? && m.entity.value.types.Some? && e in m.entity.value.types.value)
  }

  // ---------------------------------------------------------------- the encoding is injective

  lemma {:induction false} SplitNulFree(s: string)
    ensures NulFree(Split(s))
    ensures NUL !in s ==> Split(s) == [s]
  {
    if s != "" {
      SplitNulFree(s[1..]);
      var rest := Split(s[1..]);
      assert rest == [rest[0]] + rest[1..];
      assert s == [s[0]] + s[1..];
    }
  }

  lemma {:induction false} CanonicalNulFree(path: seq<string>)
    ensures NulFree(Canonical(path))
    ensures NulFree(path) ==> Canonical(path) == path
  {
    if path != [] {
      SplitNulFree(path[0]);
      CanonicalNulFree(path[1..]);
      assert path == [path[0]] + path[1..];
    }
  }

  lemma {:induction false} PathTextConcat(p: seq<string>, q: seq<string>)
    ensures PathText(p + q) == PathText(p) + PathText(q)
  {
    if p == [] {
      assert p + q == q;
    } else {
      PathTextConcat(p[1..], q);
      assert (p + q)[1..] == p[1..] + q;
    }
  }

  lemma SplitStep(s: string)
    requires s != ""
    ensures var rest := Split(s[1..]);
      Split(s) == if s[0] == NUL then [""] + rest else [[s[0]] + rest[0]] + rest[1..]
  {
  }

  lemma PathTextCons(part: string, rest: seq<string>)
    ensures PathText([part] + rest) == [NUL] + (part + PathText(rest))
  {
    assert ([part] + rest)[1..] == rest;
  }

  lemma SameTail(a: string, b: string)
    requires [NUL] + a == [NUL] + b
    ensures a == b
  {
    assert ([NUL] + a)[1..] == a && ([NUL] + b)[1..] == b;
  }

  lemma LongerFirstPart(c: char, part: string, rest: seq<string>, text: string)
    requires PathText([part] + rest) == [NUL] + text
    ensures PathText([[c] + part] + rest) == [NUL] + ([c] + text)
  {
    PathTextCons(part, rest);
    PathTextCons([c] + part, rest);
    hide PathText;
    var tail := PathText(rest);
    SameTail(part + tail, text);
    assert [c] + part + tail == [c] + (part + tail);
  }

  lemma {:induction false} PathTextOfSplit(s: string)
    ensures PathText(Split(s)) == [NUL] + s
  {
    if s == "" {
      assert PathText([""]) == [NUL] + "" + PathText([]);
    } else {
      var rest := Split(s[1..]);
      PathTextOfSplit(s[1..]);
      SplitStep(s);
      hide PathText, Split;
      assert s == [s[0]] + s[1..];
      if s[0] == NUL {
        PathTextCons("", rest);
        assert "" + PathText(rest) == PathText(rest);
      } else {
        assert rest == [rest[0]] + rest[1..];
        LongerFirstPart(s[0], rest[0], rest[1..], s[1..]);
      }
    }
  }

  lemma {:induction false} PathTextOfCanonical(path: seq<string>)
    ensures PathText(Canonical(path)) == PathText(path)
  {
    if path != [] {
      PathTextConcat(Split(path[0]), Canonical(path[1..]));
      PathTextOfSplit(path[0]);
      PathTextOfCanonical(path[1..]);
    }
  }

  function FirstNul(s: string): nat {
    if s == "" || s[0] == NUL then 0 else 1 + FirstNul(s[1..])
  }

  lemma {:induction false} FirstNulAfter(x: string, a: string)
    requires NUL !in x && (a == "" || a[0] == NUL)
    ensures FirstNul(x + a) == |x|
  {
    if x == "" {
      assert x + a == a;
    } else {
      assert (x + a)[1..] == x[1..] + a;
      FirstNulAfter(x[1..], a);
    }
  }

  lemma SamePrefix(x: string, a: string, y: string, b: string)
    requires x + a == y + b && NUL !in x && NUL !in y
    requires (a == "" || a[0] == NUL) && (b == "" || b[0] == NUL)
    ensures x == y && a == b
  {
    FirstNulAfter(x, a);
    FirstNulAfter(y, b);
    assert (x + a)[..|x|] == x && (y + b)[..|y|] == y;
    assert (x + a)[|x|..] == a && (y + b)[|y|..] == b;
  }

  /** Texts of NUL-free paths tell the paths apart: the first part ends at the next NUL. */
  lemma {:induction false} PathTextInjective(p: seq<string>, q: seq<string>)
    requires NulFree(p) && NulFree(q) && PathText(p) == PathText(q)
    ensures p == q
  {
    if p == [] || q == [] {
      assert |PathText(p)| == 0;
    } else {
      var a, b := PathText(p[1..]), PathText(q[1..]);
      assert p[0] + a == PathText(p)[1..] && q[0] + b == PathText(q)[1..];
      SamePrefix(p[0], a, q[0], b);
      PathTextInjective(p[1..], q[1..]);
      assert p == [p[0]] + p[1..] && q == [q[0]] + q[1..];
    }
  }

  /** Two paths have one encoding exactly when they agree once their parts are cut at NULs. */
  lemma PathsCollide(p: seq<string>, q: seq<string>)
    ensures PathText(p) == PathText(q) <==> Canonical(p) == Canonical(q)
  {
    PathTextOfCanonical(p);
    PathTextOfCanonical(q);
    CanonicalNulFree(p);
    CanonicalNulFree(q);
    if PathText(p) == PathText(q) {
      PathTextInjective(Canonical(p), Canonical(q));
    }
  }

  /** NUL-free paths are told apart from each other. */
  lemma NulFreePathsDiffer(p: seq<string>, q: seq<string>)
    requires NulFree(p) && NulFree(q)
    ensures PathText(p) == PathText(q) <==> p == q
  {
    PathsCollide(p, q);
    CanonicalNulFree(p);
    CanonicalNulFree(q);
  }

  /** A part with a NUL in it is taken for two parts. */
  lemma NulPathsCollide(a: string, b: string)
    ensures PathText([a + [NUL] + b]) == PathText([a, b]) && [a + [NUL] + b] != [a, b]
  {
    assert PathText([b]) == [NUL] + b + PathText([]);
    assert PathText([a, b]) == [NUL] + a + PathText([b]);
    assert PathText([a + [NUL] + b]) == [NUL] + (a + [NUL] + b) + PathText([]);
    assert |[a, b]| == 2;
  }

  lemma Prefixed(a: string, b: string, x: string, y: string)
    requires |a| == |b| == 2
    ensures a + x == b + y <==> a == b && x == y
  {
    if a + x == b + y {
      assert a == (a + x)[..2] && b == (b + y)[..2];
      assert x == (a + x)[2..] && y == (b + y)[2..];
    }
  }

  lemma StoryTag(m: Metadata, tag: string, x: string)
    requires |tag| == 2
    ensures tag + x in StoryTerms(m) <==>
      || (tag == "si" && m.story.Some? && m.story.value.id == Some(x))
      || (tag == "sf" && m.story.Some? && m.story.value.focused.Some? && x == FocusText(m.story.value.focused.value))
  {
    if m.story.Some? {
      if m.story.value.id.Some? { Prefixed(tag, "si", x, m.story.value.id.value); }
      if m.story.value.focused.Some? { Prefixed(tag, "sf", x, FocusText(m.story.value.focused.value)); }
    }
  }

  lemma ModuleTag(m: Metadata, tag: string, x: string)
    requires |tag| == 2
    ensures tag + x in ModuleTerms(m) <==>
      || (tag == "mu" && m.mod.Some? && m.mod.value.url == Some(x))
      || (tag == "mp" && m.mod.Some? && m.mod.value.path.Some? && x == PathText(m.mod.value.path.value))
  {
    if m.mod.Some? {
      if m.mod.value.url.Some? { Prefixed(tag, "mu", x, m.mod.value.url.value); }
      if m.mod.value.path.Some? { Prefixed(tag, "mp", x, PathText(m.mod.value.path.value)); }
    }
  }

  lemma EntityTag(m: Metadata, tag: string, x: string)
    requires |tag| == 2
    ensures tag + x in EntityTerms(m) <==>
      || (tag == "et" && m.entity.Some? && m.entity.value.topic == Some(x))
      || (tag == "ey" && m.entity.Some? && m.entity.value.types.Some? && x in m.entity.value.types.value)
  {
    if m.entity.Some? {
      if m.entity.value.topic.Some? { Prefixed(tag, "et", x, m.entity.value.topic.value); }
      if m.entity.value.types.Some? {
        forall e | e in m.entity.value.types.value ensures tag + x == "ey" + e <==> tag == "ey" && x == e {
          Prefixed(tag, "ey", x, e);
        }
      }
    }
  }

  /** Which terms a value has: a term of one field is never mistaken for a term of another. */
  lemma TermsByTag(t: ValueType, m: Metadata, tag: string, x: string)
    requires |tag| == 2 && tag[0] != 't'
    ensures tag + x in Terms(t, m) <==>
      tag + x in StoryTerms(m) || tag + x in ModuleTerms(m) || tag + x in EntityTerms(m)
  {
    assert (tag + x)[0] == tag[0] && TypeTerm(t)[0] == 't';
  }

  lemma Tags(t: ValueType, m: Metadata, tag: string, x: string)
    requires tag in ["si", "sf", "mu", "mp", "et", "ey"]
    ensures tag + x in Terms(t, m) <==>
      match tag[0]
      case 's' => tag + x in StoryTerms(m)
      case 'm' => tag + x in ModuleTerms(m)
      case _ => tag + x in EntityTerms(m)
  {
    TermsByTag(t, m, tag, x);
    StoryTag(m, tag, x);
    ModuleTag(m, tag, x);
    EntityTag(m, tag, x);
  }

  lemma TypeTermIn(t: ValueType, m: Metadata, s: ValueType)
    ensures TypeTerm(s) in Terms(t, m) <==> s == t
  {
    assert TypeTerm(s)[0] == 't';
    forall k | k in StoryTerms(m) + ModuleTerms(m) + EntityTerms(m) ensures k[0] != 't' {
    }
    assert TypeTerm(s)[1] == TypeTerm(t)[1] <==> s == t;
  }

  lemma StoryTermsDecide(t: ValueType, m: Metadata, sel: Metadata)
    ensures StoryTerms(sel) <= Terms(t, m) <==>
      && (sel.story.Some? && sel.story.value.id.Some? ==>
           m.story.Some? && m.story.value.id == sel.story.value.id)
      && (sel.story.Some? && sel.story.value.focused.Some? ==>
           m.story.Some? && m.story.value.focused == sel.story.value.focused)
  {
    if sel.story.Some? {
      if sel.story.value.id.Some? {
        Tags(t, m, "si", sel.story.value.id.value);
        StoryTag(m, "si", sel.story.value.id.value);
      }
      if sel.story.value.focused.Some? {
        Tags(t, m, "sf", FocusText(sel.story.value.focused.value));
        StoryTag(m, "sf", FocusText(sel.story.value.focused.value));
        assert FocusText(FOCUSED)[0] != FocusText(NOT_FOCUSED)[0];
      }
    }
  }

  lemma ModuleTermsDecide(t: ValueType, m: Metadata, sel: Metadata)
    ensures ModuleTerms(sel) <= Terms(t, m) <==>
      && (sel.mod.Some? && sel.mod.value.url.Some? ==>
           m.mod.Some? && m.mod.value.url == sel.mod.value.url)
      && (sel.mod.Some? && sel.mod.value.path.Some? ==>
           && m.mod.Some? && m.mod.value.path.Some?
           && Canonical(m.mod.value.path.value) == Canonical(sel.mod.value.path.value))
  {
    if sel.mod.Some? {
      if sel.mod.value.url.Some? {
        Tags(t, m, "mu", sel.mod.value.url.value);
        ModuleTag(m, "mu", sel.mod.value.url.value);
      }
      if sel.mod.value.path.Some? {
        Tags(t, m, "mp", PathText(sel.mod.value.path.value));
        ModuleTag(m, "mp", PathText(sel.mod.value.path.value));
        if m.mod.Some? && m.mod.value.path.Some? {
          PathsCollide(m.mod.value.path.value, sel.mod.value.path.value);
        }
      }
    }
  }

  lemma EntityTermsDecide(t: ValueType, m: Metadata, sel: Metadata)
    ensures EntityTerms(sel) <= Terms(t, m) <==>
      && (sel.entity.Some? && sel.entity.value.topic.Some? ==>
           m.entity.Some? && m.entity.value.topic == sel.entity.value.topic)
      && (sel.entity.Some? && sel.entity.value.types.Some? ==>
           forall e :: e in sel.entity.value.types.value ==>
             m.entity.Some? && m.entity.value.types.Some? && e in m.entity.value.types.value)
  {
    if sel.entity.Some? {
      if sel.entity.value.topic.Some? {
        Tags(t, m, "et", sel.entity.value.topic.value);
        EntityTag(m, "et", sel.entity.value.topic.value);
      }
      if sel.entity.value.types.Some? {
        forall e | e in sel.entity.value.types.value
          ensures "ey" + e in EntityTerms(sel)
          ensures "ey" + e in Terms(t, m) <==>
            m.entity.Some? && m.entity.value.types.Some? && e in m.entity.value.types.value
        {
          Tags(t, m, "ey", e);
          EntityTag(m, "ey", e);
        }
      }
    }
  }

  /** The terms of a selector are all among a value's terms exactly when the value matches it. */
  lemma TermsDecideMatch(t: ValueType, m: Metadata, selType: ValueType, sel: Metadata)
    ensures Terms(selType, sel) <= Terms(t, m) <==> Matches(t, m, selType, sel)
  {
    TypeTermIn(t, m, selType);
    StoryTermsDecide(t, m, sel);
    ModuleTermsDecide(t, m, sel);
    EntityTermsDecide(t, m, sel);
  }

  // ---------------------------------------------------------------- the index

  method AppendPath(prefix: string, path: seq<string>) returns (text: string)
    ensures text == prefix + PathText(path)
  {
    text := prefix;
    for i := 0 to |path|
      invariant text + PathText(path[i..]) == prefix + PathText(path)
    {
      assert path[i..][1..] == path[i + 1..];
      assert text + ([NUL] + path[i] + PathText(path[i + 1..])) == text + [NUL] + path[i] + PathText(path[i + 1..]);
      text := text + [NUL] + path[i];
    }
    assert path[|path|..] == [];
  }

  method InsertTypes(terms: set<Term>, types: seq<string>) returns (ret: set<Term>)
    ensures ret == terms + set t | t in types :: "ey" + t
  {
    ret := terms;
    for i := 0 to |types|
      invariant ret == terms + set t | t in types[..i] :: "ey" + t
    {
      assert types[..i + 1] == types[..i] + [types[i]];
      ret := ret + {"ey" + types[i]};
    }
    assert types[..|types|] == types;
  }

  method InsertStory(terms: set<Term>, story: StoryMeta) returns (ret: set<Term>)
    ensures ret == terms + StoryTerms(Metadata(Some(story), None, None, None))
  {
    ret := terms;
    if story.id.Some? {
      ret := ret + {"si" + story.id.value};
    }
    if story.focused.Some? {
      ret := ret + {"sf" + if story.focused.value == FOCUSED then "1" else "0"};
    }
  }

  method InsertModule(terms: set<Term>, mod: ModuleMeta) returns (ret: set<Term>)
    ensures ret == terms + ModuleTerms(Metadata(None, Some(mod), None, None))
  {
    ret := terms;
    if mod.url.Some? {
      ret := ret + {"mu" + mod.url.value};
    }
    if mod.path.Some? {
      var text := AppendPath("mp", mod.path.value);
      ret := ret + {text};
    }
  }

  method InsertEntity(terms: set<Term>, entity: EntityMeta) returns (ret: set<Term>)
    ensures ret == terms + EntityTerms(Metadata(None, None, None, Some(entity)))
  {
    ret := terms;
    if entity.topic.Some? {
      ret := ret + {"et" + entity.topic.value};
    }
    if entity.types.Some? {
      ret := InsertTypes(ret, entity.types.value);
    }
  }

  /** Fills a set with the terms of a value, as the index stores them. */
  method EncodeMetadataAndType(nodeType: ValueType, metadata: Metadata) returns (ret: set<Term>)
    ensures ret == Terms(nodeType, metadata)
  {
    ret := {};
    if metadata.story.Some? {
      ret := InsertStory(ret, metadata.story.value);
    }
    assert ret == StoryTerms(metadata);
    if metadata.mod.Some? {
      ret := InsertModule(ret, metadata.mod.value);
    }
    assert ret == StoryTerms(metadata) + ModuleTerms(metadata);
    if metadata.entity.Some? {
      ret := InsertEntity(ret, metadata.entity.value);
    }
    assert ret == StoryTerms(metadata) + ModuleTerms(metadata) + EntityTerms(metadata);
    ret := ret + {TypeTerm(nodeType)};
  }

  class ContextIndex {
    var index: map<Term, set<Id>>

    ghost function Postings(k: Term): set<Id>
      reads this
    {
      if k in index then index[k] else {}
    }

    constructor ()
      ensures forall k :: Postings(k) == {}
    {
      index := map[];
    }

    method Add(id: Id, t: ValueType, metadata: Metadata)
      modifies this
      ensures forall k :: Postings(k) == old(Postings(k)) + (if k in Terms(t, metadata) then {id} else {})
    {
      var keys := EncodeMetadataAndType(t, metadata);
      var left := keys;
      while left != {}
        invariant left <= keys
        invariant forall k :: Postings(k) == old(Postings(k)) + (if k in keys - left then {id} else {})
        decreases left
      {
        var key :| key in left;
        index := index[key := (if key in index then index[key] else {}) + {id}];
        left := left - {key};
      }
    }

    method Remove(id: Id, t: ValueType, metadata: Metadata)
      modifies this
      ensures forall k :: Postings(k) == old(Postings(k)) - (if k in Terms(t, metadata) then {id} else {})
    {
      var keys := EncodeMetadataAndType(t, metadata);
      var left := keys;
      while left != {}
        invariant left <= keys
        invariant forall k :: Postings(k) == old(Postings(k)) - (if k in keys - left then {id} else {})
        decreases left
      {
        var key :| key in left;
        index := index[key := (if key in index then index[key] else {}) - {id}];
        left := left - {key};
      }
    }

    /** Adds to `out` the ids that stand under every term of the selector. Looking a term up makes an
        empty entry for it. */
    method Query(t: ValueType, metadata: Metadata, out: set<Id>) returns (r: set<Id>)
      modifies this
      ensures forall k :: Postings(k) == old(Postings(k))
      ensures forall id :: id in r <==> id in out || forall k :: k in Terms(t, metadata) ==> id in Postings(k)
    {
      var keys := EncodeMetadataAndType(t, metadata);
      assert TypeTerm(t) in keys;
      if keys == {} {
        return out;
      }
      var first :| first in keys;
      if first !in index { index := index[first := {}]; }
      var ret := index[first];
      var left := keys - {first};
      assert keys - left == {first};
      while left != {}
        invariant left <= keys
        invariant forall k :: Postings(k) == old(Postings(k))
        invariant forall id :: id in ret <==> forall k :: k in keys - left ==> id in Postings(k)
        decreases left
      {
        var key :| key in left;
        if key !in index { index := index[key := {}]; }
        ghost var before := ret;
        ret := ret * index[key];
        forall id ensures id in ret <==> forall k :: k in keys - (left - {key}) ==> id in Postings(k) {
          assert id in before <==> forall k :: k in keys - left ==> id in Postings(k);
          assert forall k :: k in keys - (left - {key}) <==> k in keys - left || k == key;
        }
        left := left - {key};
      }
      r := out + ret;
    }
  }
}
