// The continuity audit: what an episode's opening contradicts in the state the last
// one ended in, and whether explanations or an override let production proceed.
module Continuity {
  import opened Prelude
  import opened Text
  import Hooks

  /** A Python dict: insertion order, one value per key. */
  type Dict<V> = seq<(string, V)>

  datatype Character = Character(
    location: Option<string>,
    wardrobe: Option<seq<string>>,
    injuries: Option<seq<string>>,
    heldProps: Option<seq<string>>,
    relationships: Option<Dict<string>>,
    facts: Option<seq<string>>)

  datatype Prop = Prop(owner: Option<string>, location: Option<string>, condition: Option<string>)

  datatype Scene = Scene(
    characters: Dict<Character>,
    props: Dict<Prop>,
    location: Option<string>,
    time: Option<string>,
    weather: Option<string>)

  predicate IsDict<V>(d: Dict<V>) {
    forall i, j :: 0 <= i < j < |d| ==> d[i].0 != d[j].0
  }

  function Get<V>(d: Dict<V>, key: string): Option<V> {
    if d == [] then None else if d[0].0 == key then Some(d[0].1) else Get(d[1..], key)
  }

  /** Dicts inside dicts: what Python's types already guarantee of a state. */
  predicate IsScene(s: Scene) {
    && IsDict(s.characters) && IsDict(s.props)
    && forall i :: 0 <= i < |s.characters| && s.characters[i].1.relationships.Some? ==>
        IsDict(s.characters[i].1.relationships.value)
  }

  // ------------------------------------------------------------------ conflicts

  datatype SceneField = SceneLocation | StoryTime | Weather

  datatype CharacterField = CharacterLocation | Wardrobe | Injuries | HeldProps | Relationships | RevealedFacts

  datatype PropField = Owner | PropLocation | Condition

  /** What a conflict is about. */
  datatype Subject =
    | OfScene(s: SceneField)
    | OfCharacter(id: string)
    | OfCharacterField(id: string, f: CharacterField)
    | OfRelationship(id: string, person: string)
    | OfProp(id: string)
    | OfPropField(id: string, p: PropField)

  function SceneName(s: SceneField): string {
    match s case SceneLocation => "scene_location" case StoryTime => "story_time" case Weather => "weather"
  }

  function CharacterName(f: CharacterField): string {
    match f
    case CharacterLocation => "location" case Wardrobe => "wardrobe" case Injuries => "injuries"
    case HeldProps => "held_props" case Relationships => "relationships" case RevealedFacts => "revealed_facts"
  }

  function PropName(p: PropField): string {
    match p case Owner => "owner" case PropLocation => "location" case Condition => "condition"
  }

  /** The path string callers name a conflict by. */
  function Path(s: Subject): string {
    match s
    case OfScene(f) => SceneName(f)
    case OfCharacter(id) => "characters." + id
    case OfCharacterField(id, f) => "characters." + id + "." + CharacterName(f)
    case OfRelationship(id, person) => "characters." + id + ".relationships." + person
    case OfProp(id) => "props." + id
    case OfPropField(id, p) => "props." + id + "." + PropName(p)
  }

  /** sorted(proposed) != sorted(inherited) where both are lists, != otherwise. */
  predicate ListKept(inherited: Option<seq<string>>, proposed: Option<seq<string>>) {
    inherited.Some? ==> proposed.Some? && multiset(proposed.value) == multiset(inherited.value)
  }

  predicate TextKept(inherited: Option<string>, proposed: Option<string>) {
    inherited.Some? ==> proposed == inherited
  }

  predicate FactsKept(inherited: Option<seq<string>>, proposed: Option<seq<string>>) {
    inherited.Some? ==>
      proposed.Some? && forall i :: 0 <= i < |inherited.value| ==> inherited.value[i] in proposed.value
  }

  function If(kept: bool, subject: Subject): seq<Subject> {
    if kept then [] else [subject]
  }

  function SceneConflicts(a: Scene, b: Scene): seq<Subject> {
    If(TextKept(a.location, b.location), OfScene(SceneLocation))
    + If(TextKept(a.time, b.time), OfScene(StoryTime))
    + If(TextKept(a.weather, b.weather), OfScene(Weather))
  }

  function PeopleConflicts(id: string, people: Dict<string>, opening: Dict<string>): seq<Subject> {
    if people == [] then []
    else
      var n := |people| - 1;
      PeopleConflicts(id, people[..n], opening)
      + If(Get(opening, people[n].0) == Some(people[n].1), OfRelationship(id, people[n].0))
  }

  function RelationshipConflicts(id: string, previous: Character, opening: Character): seq<Subject> {
    if previous.relationships.None? then []
    else if opening.relationships.None? then [OfCharacterField(id, Relationships)]
    else PeopleConflicts(id, previous.relationships.value, opening.relationships.value)
  }

  function FieldConflicts(id: string, previous: Character, opening: Character): seq<Subject> {
    If(TextKept(previous.location, opening.location), OfCharacterField(id, CharacterLocation))
    + If(ListKept(previous.wardrobe, opening.wardrobe), OfCharacterField(id, Wardrobe))
    + If(ListKept(previous.injuries, opening.injuries), OfCharacterField(id, Injuries))
    + If(ListKept(previous.heldProps, opening.heldProps), OfCharacterField(id, HeldProps))
  }

  function CharacterConflicts(id: string, previous: Character, opening: Option<Character>): seq<Subject> {
    if opening.None? then [OfCharacter(id)]
    else
      FieldConflicts(id, previous, opening.value)
      + RelationshipConflicts(id, previous, opening.value)
      + If(FactsKept(previous.facts, opening.value.facts), OfCharacterField(id, RevealedFacts))
  }

  function CastConflicts(characters: Dict<Character>, b: Scene): seq<Subject> {
    if characters == [] then []
    else
      var n := |characters| - 1;
      CastConflicts(characters[..n], b)
      + CharacterConflicts(characters[n].0, characters[n].1, Get(b.characters, characters[n].0))
  }

  function PropConflicts(id: string, previous: Prop, opening: Option<Prop>): seq<Subject> {
    if opening.None? then [OfProp(id)]
    else
      If(TextKept(previous.owner, opening.value.owner), OfPropField(id, Owner))
      + If(TextKept(previous.location, opening.value.location), OfPropField(id, PropLocation))
      + If(TextKept(previous.condition, opening.value.condition), OfPropField(id, Condition))
  }

  function StageConflicts(props: Dict<Prop>, b: Scene): seq<Subject> {
    if props == [] then []
    else
      var n := |props| - 1;
      StageConflicts(props[..n], b) + PropConflicts(props[n].0, props[n].1, Get(b.props, props[n].0))
  }

  function RawConflicts(a: Scene, b: Scene): seq<Subject> {
    SceneConflicts(a, b) + CastConflicts(a.characters, b) + StageConflicts(a.props, b)
  }

  // ----------------------------------------------- the loops that gather them

  method AppendIf(conflicts: seq<Subject>, kept: bool, subject: Subject) returns (r: seq<Subject>)
    ensures r == conflicts + If(kept, subject)
  {
    if kept {
      return conflicts;
    }
    return conflicts + [subject];
  }

  method GatherPeople(id: string, people: Dict<string>, opening: Dict<string>) returns (r: seq<Subject>)
    ensures r == PeopleConflicts(id, people, opening)
  {
    r := [];
    for i := 0 to |people|
      invariant r == PeopleConflicts(id, people[..i], opening)
    {
      assert people[..i + 1][..i] == people[..i];
      r := AppendIf(r, Get(opening, people[i].0) == Some(people[i].1), OfRelationship(id, people[i].0));
    }
    assert people[..|people|] == people;
  }

  method GatherFields(id: string, previous: Character, opening: Character) returns (r: seq<Subject>)
    ensures r == FieldConflicts(id, previous, opening)
  {
    r := AppendIf([], TextKept(previous.location, opening.location), OfCharacterField(id, CharacterLocation));
    r := AppendIf(r, ListKept(previous.wardrobe, opening.wardrobe), OfCharacterField(id, Wardrobe));
    r := AppendIf(r, ListKept(previous.injuries, opening.injuries), OfCharacterField(id, Injuries));
    r := AppendIf(r, ListKept(previous.heldProps, opening.heldProps), OfCharacterField(id, HeldProps));
  }

  method GatherCharacter(id: string, previous: Character, opening: Character) returns (r: seq<Subject>)
    ensures r == CharacterConflicts(id, previous, Some(opening))
  {
    r := GatherFields(id, previous, opening);
    if previous.relationships.Some? {
      if opening.relationships.None? {
        r := r + [OfCharacterField(id, Relationships)];
      } else {
        var people := GatherPeople(id, previous.relationships.value, opening.relationships.value);
        r := r + people;
      }
    }
    r := AppendIf(r, FactsKept(previous.facts, opening.facts), OfCharacterField(id, RevealedFacts));
  }

  method GatherProp(id: string, previous: Prop, opening: Prop) returns (r: seq<Subject>)
    ensures r == PropConflicts(id, previous, Some(opening))
  {
    r := AppendIf([], TextKept(previous.owner, opening.owner), OfPropField(id, Owner));
    r := AppendIf(r, TextKept(previous.location, opening.location), OfPropField(id, PropLocation));
    r := AppendIf(r, TextKept(previous.condition, opening.condition), OfPropField(id, Condition));
  }

  method GatherCast(characters: Dict<Character>, b: Scene) returns (r: seq<Subject>)
    ensures r == CastConflicts(characters, b)
  {
    r := [];
    for i := 0 to |characters|
      invariant r == CastConflicts(characters[..i], b)
    {
      assert characters[..i + 1][..i] == characters[..i];
      var (id, previous) := characters[i];
      var opening := Get(b.characters, id);
      if opening.None? {
        r := r + [OfCharacter(id)];
        continue;
      }
      var found := GatherCharacter(id, previous, opening.value);
      r := r + found;
    }
    assert characters[..|characters|] == characters;
  }

  method GatherStage(props: Dict<Prop>, b: Scene) returns (r: seq<Subject>)
    ensures r == StageConflicts(props, b)
  {
    r := [];
    for i := 0 to |props|
      invariant r == StageConflicts(props[..i], b)
    {
      assert props[..i + 1][..i] == props[..i];
      var (id, previous) := props[i];
      var opening := Get(b.props, id);
      if opening.None? {
        r := r + [OfProp(id)];
        continue;
      }
      var found := GatherProp(id, previous, opening.value);
      r := r + found;
    }
    assert props[..|props|] == props;
  }

  method GatherScene(a: Scene, b: Scene) returns (r: seq<Subject>)
    ensures r == SceneConflicts(a, b)
  {
    r := AppendIf([], TextKept(a.location, b.location), OfScene(SceneLocation));
    r := AppendIf(r, TextKept(a.time, b.time), OfScene(StoryTime));
    r := AppendIf(r, TextKept(a.weather, b.weather), OfScene(Weather));
  }

  method GatherConflicts(a: Scene, b: Scene) returns (conflicts: seq<Subject>)
    ensures conflicts == RawConflicts(a, b)
  {
    conflicts := GatherScene(a, b);
    var cast := GatherCast(a.characters, b);
    conflicts := conflicts + cast;
    var stage := GatherStage(a.props, b);
    conflicts := conflicts + stage;
  }

  // ------------------------------------------------------- the relation between states

  predicate PeopleKept(people: Dict<string>, opening: Dict<string>) {
    forall i :: 0 <= i < |people| ==> Get(opening, people[i].0) == Some(people[i].1)
  }

  predicate RelationshipsKept(previous: Character, opening: Character) {
    previous.relationships.Some? ==>
      opening.relationships.Some? && PeopleKept(previous.relationships.value, opening.relationships.value)
  }

  /** What was known of a character still holds; what was unknown may become anything. */
  predicate CharacterKept(previous: Character, opening: Character) {
    && TextKept(previous.location, opening.location)
    && ListKept(previous.wardrobe, opening.wardrobe)
    && ListKept(previous.injuries, opening.injuries)
    && ListKept(previous.heldProps, opening.heldProps)
    && RelationshipsKept(previous, opening)
    && FactsKept(previous.facts, opening.facts)
  }

  predicate PropKept(previous: Prop, opening: Prop) {
    && TextKept(previous.owner, opening.owner)
    && TextKept(previous.location, opening.location)
    && TextKept(previous.condition, opening.condition)
  }

  predicate SceneKept(a: Scene, b: Scene) {
    TextKept(a.location, b.location) && TextKept(a.time, b.time) && TextKept(a.weather, b.weather)
  }

  predicate CastKept(characters: Dict<Character>, b: Dict<Character>) {
    forall i :: 0 <= i < |characters| ==>
      Get(b, characters[i].0).Some? && CharacterKept(characters[i].1, Get(b, characters[i].0).value)
  }

  predicate StageKept(props: Dict<Prop>, b: Dict<Prop>) {
    forall i :: 0 <= i < |props| ==> Get(b, props[i].0).Some? && PropKept(props[i].1, Get(b, props[i].0).value)
  }

  predicate Consistent(a: Scene, b: Scene) {
    SceneKept(a, b) && CastKept(a.characters, b.characters) && StageKept(a.props, b.props)
  }

  lemma {:induction false} PeopleConflictsIff(id: string, people: Dict<string>, opening: Dict<string>)
    ensures PeopleConflicts(id, people, opening) == [] <==> PeopleKept(people, opening)
  {
    if people != [] {
      PeopleConflictsIff(id, people[..|people| - 1], opening);
    }
  }

  lemma CharacterConflictsIff(id: string, previous: Character, opening: Character)
    ensures CharacterConflicts(id, previous, Some(opening)) == [] <==> CharacterKept(previous, opening)
  {
    if previous.relationships.Some? && opening.relationships.Some? {
      PeopleConflictsIff(id, previous.relationships.value, opening.relationships.value);
    }
    assert FieldConflicts(id, previous, opening) == [] <==>
             TextKept(previous.location, opening.location) && ListKept(previous.wardrobe, opening.wardrobe)
             && ListKept(previous.injuries, opening.injuries) && ListKept(previous.heldProps, opening.heldProps);
  }

  lemma {:induction false} CastKeptSplit(characters: Dict<Character>, b: Dict<Character>)
    requires characters != []
    ensures var n := |characters| - 1;
            CastKept(characters, b) <==>
              && CastKept(characters[..n], b)
              && Get(b, characters[n].0).Some? && CharacterKept(characters[n].1, Get(b, characters[n].0).value)
  {
  }

  lemma OneCharacterIff(id: string, previous: Character, opening: Option<Character>)
    ensures CharacterConflicts(id, previous, opening) == [] <==> opening.Some? && CharacterKept(previous, opening.value)
  {
    if opening.Some? {
      CharacterConflictsIff(id, previous, opening.value);
    }
  }

  lemma {:induction false} CastConflictsIff(characters: Dict<Character>, b: Scene)
    ensures CastConflicts(characters, b) == [] <==> CastKept(characters, b.characters)
  {
    if characters != [] {
      var n := |characters| - 1;
      CastConflictsIff(characters[..n], b);
      OneCharacterIff(characters[n].0, characters[n].1, Get(b.characters, characters[n].0));
      CastKeptSplit(characters, b.characters);
    }
  }

  lemma {:induction false} StageKeptSplit(props: Dict<Prop>, b: Dict<Prop>)
    requires props != []
    ensures var n := |props| - 1;
            StageKept(props, b) <==>
              StageKept(props[..n], b) && Get(b, props[n].0).Some? && PropKept(props[n].1, Get(b, props[n].0).value)
  {
  }

  lemma {:induction false} StageConflictsIff(props: Dict<Prop>, b: Scene)
    ensures StageConflicts(props, b) == [] <==> StageKept(props, b.props)
  {
    if props != [] {
      var n := |props| - 1;
      StageConflictsIff(props[..n], b);
      StageKeptSplit(props, b.props);
    }
  }

  predicate SaysTheSame(known: Option<string>, now: Option<string>) {
    known.None? || (now.Some? && now.value == known.value)
  }

  /** The same things, each as often, in any order. */
  ghost predicate SameThings(known: Option<seq<string>>, now: Option<seq<string>>) {
    known.None?
    || (now.Some? && forall thing: string :: multiset(now.value)[thing] == multiset(known.value)[thing])
  }

  ghost predicate StillRevealed(known: Option<seq<string>>, now: Option<seq<string>>) {
    known.None? || (now.Some? && forall fact: string :: fact in known.value ==> fact in now.value)
  }

  predicate StillRelated(known: Option<Dict<string>>, now: Option<Dict<string>>) {
    known.None? || (now.Some? && forall person :: person in known.value ==> Get(now.value, person.0) == Some(person.1))
  }

  ghost predicate Remembered(known: Character, now: Character) {
    && SaysTheSame(known.location, now.location) && SameThings(known.wardrobe, now.wardrobe)
    && SameThings(known.injuries, now.injuries) && SameThings(known.heldProps, now.heldProps)
    && StillRelated(known.relationships, now.relationships) && StillRevealed(known.facts, now.facts)
  }

  /** The opening says again whatever the last ending said, and may add to it. */
  ghost predicate NothingForgotten(a: Scene, b: Scene) {
    && SaysTheSame(a.location, b.location) && SaysTheSame(a.time, b.time) && SaysTheSame(a.weather, b.weather)
    && (forall c :: c in a.characters ==> exists now :: Get(b.characters, c.0) == Some(now) && Remembered(c.1, now))
    && (forall p :: p in a.props ==>
          exists now :: Get(b.props, p.0) == Some(now)
                        && SaysTheSame(p.1.owner, now.owner) && SaysTheSame(p.1.location, now.location)
                        && SaysTheSame(p.1.condition, now.condition))
  }

  lemma RememberedIs(known: Character, now: Character)
    ensures CharacterKept(known, now) <==> Remembered(known, now)
  {
    ListKeptIs(known.wardrobe, now.wardrobe);
    ListKeptIs(known.injuries, now.injuries);
    ListKeptIs(known.heldProps, now.heldProps);
    if known.relationships.Some? && now.relationships.Some? {
      assert PeopleKept(known.relationships.value, now.relationships.value) <==>
               StillRelated(known.relationships, now.relationships) by {
        forall i | 0 <= i < |known.relationships.value|
          ensures known.relationships.value[i] in known.relationships.value {}
      }
    }
    assert FactsKept(known.facts, now.facts) <==> StillRevealed(known.facts, now.facts);
  }

  lemma ListKeptIs(known: Option<seq<string>>, now: Option<seq<string>>)
    ensures ListKept(known, now) <==> SameThings(known, now)
  {
    if known.Some? && now.Some? && SameThings(known, now) {
      assert multiset(now.value) == multiset(known.value);
    }
  }

  lemma {:induction false} CastRemembered(characters: Dict<Character>, b: Dict<Character>)
    ensures CastKept(characters, b) <==>
              forall c :: c in characters ==> exists now :: Get(b, c.0) == Some(now) && Remembered(c.1, now)
  {
    forall c: Character, d: Character ensures CharacterKept(c, d) <==> Remembered(c, d) {
      RememberedIs(c, d);
    }
    if forall c :: c in characters ==> exists now :: Get(b, c.0) == Some(now) && Remembered(c.1, now) {
      forall i | 0 <= i < |characters|
        ensures Get(b, characters[i].0).Some? && CharacterKept(characters[i].1, Get(b, characters[i].0).value)
      {
        assert characters[i] in characters;
      }
    }
  }

  lemma {:induction false} StageRemembered(props: Dict<Prop>, b: Dict<Prop>)
    ensures StageKept(props, b) <==>
              forall p :: p in props ==>
                exists now :: Get(b, p.0) == Some(now)
                              && SaysTheSame(p.1.owner, now.owner) && SaysTheSame(p.1.location, now.location)
                              && SaysTheSame(p.1.condition, now.condition)
  {
    if StageKept(props, b) {
      forall p | p in props
        ensures exists now :: Get(b, p.0) == Some(now)
                              && SaysTheSame(p.1.owner, now.owner) && SaysTheSame(p.1.location, now.location)
                              && SaysTheSame(p.1.condition, now.condition)
      {
        var i :| 0 <= i < |props| && props[i] == p;
        assert PropKept(props[i].1, Get(b, props[i].0).value);
      }
    } else {
      var i :| 0 <= i < |props| && !(Get(b, props[i].0).Some? && PropKept(props[i].1, Get(b, props[i].0).value));
      assert props[i] in props;
    }
  }

  lemma {:induction false} NoConflictsIffConsistent(a: Scene, b: Scene)
    ensures RawConflicts(a, b) == [] <==> Consistent(a, b)
  {
    CastConflictsIff(a.characters, b);
    StageConflictsIff(a.props, b);
  }

  /** The audit finds nothing exactly when the opening keeps everything known. */
  lemma NoConflictsIffNothingForgotten(a: Scene, b: Scene)
    ensures RawConflicts(a, b) == [] <==> NothingForgotten(a, b)
  {
    NoConflictsIffConsistent(a, b);
    CastRemembered(a.characters, b.characters);
    StageRemembered(a.props, b.props);
  }

  lemma {:induction false} GetAt<V>(d: Dict<V>, i: nat)
    requires IsDict(d) && i < |d|
    ensures Get(d, d[i].0) == Some(d[i].1)
  {
    if i > 0 {
      GetAt(d[1..], i - 1);
    }
  }

  lemma {:induction false} GetFinds<V>(d: Dict<V>, key: string)
    ensures Get(d, key).Some? ==> exists i :: 0 <= i < |d| && d[i] == (key, Get(d, key).value)
  {
    if d != [] && d[0].0 != key {
      GetFinds(d[1..], key);
      if Get(d, key).Some? {
        var i :| 0 <= i < |d[1..]| && d[1..][i] == (key, Get(d, key).value);
      }
    }
  }

  lemma CharacterKeptReflexive(c: Character)
    requires c.relationships.Some? ==> IsDict(c.relationships.value)
    ensures CharacterKept(c, c)
  {
    if c.relationships.Some? {
      forall i | 0 <= i < |c.relationships.value|
        ensures Get(c.relationships.value, c.relationships.value[i].0) == Some(c.relationships.value[i].1)
      {
        GetAt(c.relationships.value, i);
      }
    }
  }

  /** Ending a scene and opening it unchanged never conflicts. */
  lemma ConsistencyIsReflexive(a: Scene)
    requires IsScene(a)
    ensures RawConflicts(a, a) == []
  {
    forall i | 0 <= i < |a.characters|
      ensures Get(a.characters, a.characters[i].0) == Some(a.characters[i].1)
      ensures CharacterKept(a.characters[i].1, a.characters[i].1)
    {
      GetAt(a.characters, i);
      CharacterKeptReflexive(a.characters[i].1);
    }
    forall i | 0 <= i < |a.props| ensures Get(a.props, a.props[i].0) == Some(a.props[i].1) {
      GetAt(a.props, i);
    }
    NoConflictsIffConsistent(a, a);
  }

  lemma PeopleKeptTransitive(p: Dict<string>, q: Dict<string>, r: Dict<string>)
    requires PeopleKept(p, q) && PeopleKept(q, r)
    ensures PeopleKept(p, r)
  {
    forall i | 0 <= i < |p| ensures Get(r, p[i].0) == Some(p[i].1) {
      GetFinds(q, p[i].0);
    }
  }

  lemma CharacterKeptTransitive(c: Character, d: Character, e: Character)
    requires CharacterKept(c, d) && CharacterKept(d, e)
    ensures CharacterKept(c, e)
  {
    if c.relationships.Some? {
      PeopleKeptTransitive(c.relationships.value, d.relationships.value, e.relationships.value);
    }
    if c.facts.Some? {
      forall i | 0 <= i < |c.facts.value| ensures c.facts.value[i] in e.facts.value {}
    }
  }

  lemma CastKeptTransitive(a: Dict<Character>, b: Dict<Character>, c: Dict<Character>)
    requires CastKept(a, b) && CastKept(b, c)
    ensures CastKept(a, c)
  {
    forall i | 0 <= i < |a|
      ensures Get(c, a[i].0).Some? && CharacterKept(a[i].1, Get(c, a[i].0).value)
    {
      GetFinds(b, a[i].0);
      var j :| 0 <= j < |b| && b[j] == (a[i].0, Get(b, a[i].0).value);
      CharacterKeptTransitive(a[i].1, b[j].1, Get(c, a[i].0).value);
    }
  }

  lemma StageKeptTransitive(a: Dict<Prop>, b: Dict<Prop>, c: Dict<Prop>)
    requires StageKept(a, b) && StageKept(b, c)
    ensures StageKept(a, c)
  {
    forall i | 0 <= i < |a| ensures Get(c, a[i].0).Some? && PropKept(a[i].1, Get(c, a[i].0).value) {
      GetFinds(b, a[i].0);
      var j :| 0 <= j < |b| && b[j] == (a[i].0, Get(b, a[i].0).value);
    }
  }

  /** Episodes that each open consistently with the last are consistent end to end. */
  lemma ConsistencyIsTransitive(a: Scene, b: Scene, c: Scene)
    requires RawConflicts(a, b) == [] && RawConflicts(b, c) == []
    ensures RawConflicts(a, c) == []
  {
    NoConflictsIffConsistent(a, b);
    NoConflictsIffConsistent(b, c);
    CastKeptTransitive(a.characters, b.characters, c.characters);
    StageKeptTransitive(a.props, b.props, c.props);
    NoConflictsIffConsistent(a, c);
  }

  /** b' is b with characters, props or revealed facts added, in any order. */
  predicate Grows(b: Scene, b': Scene) {
    && b'.location == b.location && b'.time == b.time && b'.weather == b.weather
    && (forall i :: 0 <= i < |b.characters| ==>
          var grown := Get(b'.characters, b.characters[i].0);
          && grown.Some? && grown.value.(facts := b.characters[i].1.facts) == b.characters[i].1
          && FactsKept(b.characters[i].1.facts, grown.value.facts))
    && (forall i :: 0 <= i < |b.props| ==> Get(b'.props, b.props[i].0) == Some(b.props[i].1))
  }

  /** Additions to an opening never create a conflict. */
  lemma AdditionsKeepConsistency(a: Scene, b: Scene, b': Scene)
    requires IsScene(b) && RawConflicts(a, b) == [] && Grows(b, b')
    ensures RawConflicts(a, b') == []
  {
    forall i | 0 <= i < |b.characters|
      ensures Get(b'.characters, b.characters[i].0).Some?
      ensures CharacterKept(b.characters[i].1, Get(b'.characters, b.characters[i].0).value)
    {
      CharacterKeptReflexive(b.characters[i].1);
    }
    NoConflictsIffConsistent(b, b');
    ConsistencyIsTransitive(a, b, b');
  }

  // -------------------------------------------------------------- distinct paths

  predicate DotFree(s: string) {
    forall i :: 0 <= i < |s| ==> s[i] != '.'
  }

  lemma NoDotNoCut(a: string, b: string, y: string)
    requires DotFree(a)
    ensures a != b + "." + y
  {
    assert (b + "." + y)[|b|] == '.';
  }

  lemma SamePrefix(p: string, x: string, y: string)
    requires p + x == p + y
    ensures x == y
  {
    assert (p + x)[|p|..] == x && (p + y)[|p|..] == y;
  }

  /** What follows "characters." or "props." in a path: an id, and a rest after a dot. */
  datatype Tail = Bare(id: string) | Dotted(id: string, rest: string)

  function TailText(t: Tail): string {
    match t case Bare(id) => id case Dotted(id, rest) => id + "." + rest
  }

  /** What may follow an id and its dot in a path. */
  predicate IsRest(cast: bool, w: string) {
    if cast then (exists f: CharacterField :: w == CharacterName(f)) || "relationships." <= w
    else exists p: PropField :: w == PropName(p)
  }

  /** One id is another, a dot, and what may follow it. */
  predicate SpellsOut(cast: bool, x: string, y: string) {
    |x| < |y| && y[..|x| + 1] == x + "." && IsRest(cast, y[|x| + 1..])
  }

  lemma NamesAreDotFree(cast: bool, w: string)
    requires IsRest(cast, w) && (cast ==> !("relationships." <= w))
    ensures DotFree(w)
  {
    if cast {
      var f: CharacterField :| w == CharacterName(f);
      CharacterNamesDiffer(f, f);
    } else {
      var p: PropField :| w == PropName(p);
      PropNamesDiffer(p, p);
    }
  }

  /** A rest ends, or is cut at a dot, only where another rest does. */
  lemma RestCut(cast: bool, w: string, k: nat)
    requires IsRest(cast, w) && k <= |w| && (k == |w| || w[k] == '.')
    ensures IsRest(cast, w[..k])
  {
    if k == |w| {
      assert w[..k] == w;
    } else if cast && "relationships." <= w {
      assert w[..14] == "relationships.";
      assert forall i :: 0 <= i < 13 ==> w[i] == "relationships."[i];
      if k == 13 {
        assert w[..k] == CharacterName(Relationships);
      } else {
        assert "relationships." <= w[..k];
      }
    } else {
      NamesAreDotFree(cast, w);
    }
  }

  predicate HasRest(cast: bool, t: Tail) {
    t.Dotted? ==> IsRest(cast, t.rest)
  }

  lemma LongerIdSpells(cast: bool, s: Tail, t: Tail)
    requires HasRest(cast, s) && HasRest(cast, t) && TailText(s) == TailText(t) && |s.id| < |t.id|
    ensures SpellsOut(cast, s.id, t.id)
  {
    var text, k := TailText(s), |t.id| - |s.id| - 1;
    assert text[..|t.id|] == t.id;
    assert t.id[..|s.id| + 1] == text[..|s.id| + 1] == s.id + ".";
    assert s.rest == text[|s.id| + 1..];
    assert t.id[|s.id| + 1..] == s.rest[..k];
    if k < |s.rest| {
      assert s.rest[k] == text[|t.id|] == '.';
    }
    RestCut(cast, s.rest, k);
  }

  lemma TailsDiffer(cast: bool, s: Tail, t: Tail)
    requires HasRest(cast, s) && HasRest(cast, t) && TailText(s) == TailText(t)
    requires !SpellsOut(cast, s.id, t.id) && !SpellsOut(cast, t.id, s.id)
    ensures s == t
  {
    if |s.id| < |t.id| {
      LongerIdSpells(cast, s, t);
    } else if |t.id| < |s.id| {
      LongerIdSpells(cast, t, s);
    } else {
      assert TailText(s)[..|s.id|] == s.id && TailText(t)[..|t.id|] == t.id;
      if s.Dotted? && t.Dotted? {
        assert TailText(s)[|s.id| + 1..] == s.rest && TailText(t)[|t.id| + 1..] == t.rest;
      }
    }
  }

  function TailOf(s: Subject): Tail
    requires !s.OfScene?
  {
    match s
    case OfCharacter(id) => Bare(id)
    case OfCharacterField(id, f) => Dotted(id, CharacterName(f))
    case OfRelationship(id, person) => Dotted(id, "relationships." + person)
    case OfProp(id) => Bare(id)
    case OfPropField(id, p) => Dotted(id, PropName(p))
  }

  predicate OfCast(s: Subject) {
    s.OfCharacter? || s.OfCharacterField? || s.OfRelationship?
  }

  lemma Reassociate(p: string, id: string, rest: string)
    ensures p + id + "." + rest == p + (id + "." + rest)
  {
  }

  lemma PathIsTail(s: Subject)
    requires !s.OfScene?
    ensures Path(s) == (if OfCast(s) then "characters." else "props.") + TailText(TailOf(s))
    ensures |Path(s)| > 0 && Path(s)[0] == if OfCast(s) then 'c' else 'p'
  {
    match s
    case OfCharacter(_) =>
    case OfCharacterField(id, f) => Reassociate("characters.", id, CharacterName(f));
    case OfRelationship(id, person) => RelationshipPath(id, person);
    case OfProp(_) =>
    case OfPropField(id, p) => Reassociate("props.", id, PropName(p));
  }

  lemma RelationshipPath(id: string, person: string)
    ensures "characters." + id + ".relationships." + person == "characters." + (id + "." + ("relationships." + person))
  {
  }

  lemma CharacterNamesDiffer(f: CharacterField, g: CharacterField)
    ensures DotFree(CharacterName(f))
    ensures CharacterName(f) == CharacterName(g) ==> f == g
  {
  }

  lemma PropNamesDiffer(p: PropField, q: PropField)
    ensures DotFree(PropName(p))
    ensures PropName(p) == PropName(q) ==> p == q
  {
  }

  lemma RelationshipNotField(f: CharacterField, person: string)
    ensures CharacterName(f) != "relationships." + person
  {
    NoDotNoCut(CharacterName(f), "relationships", person);
  }

  /** Among subjects of one kind of thing, the tail says which. */
  lemma SameTailSameSubject(s: Subject, t: Subject)
    requires !s.OfScene? && !t.OfScene? && OfCast(s) == OfCast(t) && TailOf(s) == TailOf(t)
    ensures s == t
  {
    match (s, t)
    case (OfCharacterField(_, f), OfCharacterField(_, g)) => CharacterNamesDiffer(f, g);
    case (OfCharacterField(_, f), OfRelationship(_, person)) => RelationshipNotField(f, person);
    case (OfRelationship(_, person), OfCharacterField(_, f)) => RelationshipNotField(f, person);
    case (OfRelationship(_, p), OfRelationship(_, q)) => SamePrefix("relationships.", p, q);
    case (OfPropField(_, p), OfPropField(_, q)) => PropNamesDiffer(p, q);
    case _ =>
  }

  lemma TailHasRest(s: Subject)
    requires !s.OfScene?
    ensures HasRest(OfCast(s), TailOf(s))
  {
  }

  lemma SceneNamesAreShort(f: SceneField, g: SceneField)
    ensures DotFree(SceneName(f))
    ensures SceneName(f) == SceneName(g) ==> f == g
  {
  }

  lemma SceneNotOther(f: SceneField, t: Subject)
    requires !t.OfScene?
    ensures SceneName(f) != Path(t)
  {
    SceneNamesAreShort(f, f);
    PathIsTail(t);
    if OfCast(t) {
      assert Path(t)[10] == '.';
    } else {
      assert Path(t)[5] == '.';
    }
  }

  /** Neither subject's id spells out what the other's path adds to its id. */
  predicate KeptApart(s: Subject, t: Subject) {
    !s.OfScene? && !t.OfScene? && OfCast(s) == OfCast(t) ==>
      !SpellsOut(OfCast(s), s.id, t.id) && !SpellsOut(OfCast(s), t.id, s.id)
  }

  lemma PathsTellConflictsApart(s: Subject, t: Subject)
    requires KeptApart(s, t) && Path(s) == Path(t)
    ensures s == t
  {
    if s.OfScene? && t.OfScene? {
    } else if s.OfScene? {
      SceneNotOther(s.s, t);
    } else if t.OfScene? {
      SceneNotOther(t.s, s);
    } else {
      PathIsTail(s);
      PathIsTail(t);
      SamePrefix(if OfCast(s) then "characters." else "props.", TailText(TailOf(s)), TailText(TailOf(t)));
      TailHasRest(s);
      TailHasRest(t);
      TailsDiffer(OfCast(s), TailOf(s), TailOf(t));
      SameTailSameSubject(s, t);
    }
  }

  // ------------------------------------------------- no conflict is listed twice

  /** The character or prop a conflict belongs to, None for the scene's own fields. */
  function OwnerOf(s: Subject): Option<(bool, string)> {
    if s.OfScene? then None else Some((OfCast(s), s.id))
  }

  predicate AllOwned(subjects: seq<Subject>, owner: Option<(bool, string)>) {
    forall i :: 0 <= i < |subjects| ==> OwnerOf(subjects[i]) == owner
  }

  lemma UniqueConcat<T>(s: seq<T>, t: seq<T>)
    requires Unique(s) && Unique(t) && forall i, j :: 0 <= i < |s| && 0 <= j < |t| ==> s[i] != t[j]
    ensures Unique(s + t)
  {
  }

  predicate PeopleOf(subjects: seq<Subject>, id: string, people: Dict<string>) {
    forall i :: 0 <= i < |subjects| ==>
      && subjects[i].OfRelationship? && subjects[i].id == id
      && exists j :: 0 <= j < |people| && people[j].0 == subjects[i].person
  }

  lemma {:induction false} PeopleConflictsUnique(id: string, people: Dict<string>, opening: Dict<string>)
    requires IsDict(people)
    ensures Unique(PeopleConflicts(id, people, opening)) && PeopleOf(PeopleConflicts(id, people, opening), id, people)
  {
    if people != [] {
      var n := |people| - 1;
      PeopleConflictsUnique(id, people[..n], opening);
      var before := PeopleConflicts(id, people[..n], opening);
      forall i | 0 <= i < |before|
        ensures before[i] != OfRelationship(id, people[n].0)
        ensures exists j :: 0 <= j < |people| && people[j].0 == before[i].person
      {
        var j :| 0 <= j < n && people[..n][j].0 == before[i].person;
      }
    }
  }

  lemma FieldConflictsUnique(id: string, previous: Character, opening: Character)
    ensures Unique(FieldConflicts(id, previous, opening))
    ensures forall i :: 0 <= i < |FieldConflicts(id, previous, opening)| ==>
              var s := FieldConflicts(id, previous, opening)[i];
              s.OfCharacterField? && s.id == id && !s.f.Relationships? && !s.f.RevealedFacts?
  {
  }

  lemma {:induction false} CharacterConflictsUnique(id: string, previous: Character, opening: Option<Character>)
    requires previous.relationships.Some? ==> IsDict(previous.relationships.value)
    ensures Unique(CharacterConflicts(id, previous, opening))
    ensures AllOwned(CharacterConflicts(id, previous, opening), Some((true, id)))
  {
    if opening.Some? {
      FieldConflictsUnique(id, previous, opening.value);
      var relationships := RelationshipConflicts(id, previous, opening.value);
      if previous.relationships.Some? && opening.value.relationships.Some? {
        PeopleConflictsUnique(id, previous.relationships.value, opening.value.relationships.value);
      }
      assert forall i :: 0 <= i < |relationships| ==>
               relationships[i].OfRelationship? || relationships[i] == OfCharacterField(id, Relationships);
    }
  }

  /** Every conflict listed belongs to one of these, listed by key. */
  predicate OwnedBy<V>(subjects: seq<Subject>, cast: bool, d: Dict<V>) {
    forall i :: 0 <= i < |subjects| ==>
      exists j :: 0 <= j < |d| && OwnerOf(subjects[i]) == Some((cast, d[j].0))
  }

  lemma OwnedByMore<V>(before: seq<Subject>, more: seq<Subject>, cast: bool, d: Dict<V>)
    requires d != [] && IsDict(d)
    requires Unique(before) && OwnedBy(before, cast, d[..|d| - 1])
    requires Unique(more) && AllOwned(more, Some((cast, d[|d| - 1].0)))
    ensures Unique(before + more) && OwnedBy(before + more, cast, d)
  {
    var n := |d| - 1;
    forall i, j | 0 <= i < |before| && 0 <= j < |more| ensures before[i] != more[j] {
      var k :| 0 <= k < n && OwnerOf(before[i]) == Some((cast, d[..n][k].0));
      assert d[k].0 != d[n].0;
    }
    UniqueConcat(before, more);
    forall i | 0 <= i < |before + more|
      ensures exists j :: 0 <= j < |d| && OwnerOf((before + more)[i]) == Some((cast, d[j].0))
    {
      if i < |before| {
        var k :| 0 <= k < n && OwnerOf(before[i]) == Some((cast, d[..n][k].0));
        assert d[k] == d[..n][k];
      } else {
        assert OwnerOf(more[i - |before|]) == Some((cast, d[n].0));
      }
    }
  }

  lemma {:induction false} CastConflictsUnique(characters: Dict<Character>, b: Scene)
    requires IsDict(characters)
    requires forall i :: 0 <= i < |characters| && characters[i].1.relationships.Some? ==>
        IsDict(characters[i].1.relationships.value)
    ensures Unique(CastConflicts(characters, b)) && OwnedBy(CastConflicts(characters, b), true, characters)
  {
    if characters != [] {
      var n := |characters| - 1;
      CastConflictsUnique(characters[..n], b);
      CharacterConflictsUnique(characters[n].0, characters[n].1, Get(b.characters, characters[n].0));
      OwnedByMore(CastConflicts(characters[..n], b),
                  CharacterConflicts(characters[n].0, characters[n].1, Get(b.characters, characters[n].0)), true,
                      characters);
    }
  }

  lemma PropConflictsUnique(id: string, previous: Prop, opening: Option<Prop>)
    ensures Unique(PropConflicts(id, previous, opening))
    ensures AllOwned(PropConflicts(id, previous, opening), Some((false, id)))
  {
  }

  lemma {:induction false} StageConflictsUnique(props: Dict<Prop>, b: Scene)
    requires IsDict(props)
    ensures Unique(StageConflicts(props, b)) && OwnedBy(StageConflicts(props, b), false, props)
  {
    if props != [] {
      var n := |props| - 1;
      StageConflictsUnique(props[..n], b);
      PropConflictsUnique(props[n].0, props[n].1, Get(b.props, props[n].0));
      OwnedByMore(StageConflicts(props[..n], b), PropConflicts(props[n].0, props[n].1, Get(b.props, props[n].0)),
                  false, props);
    }
  }

  lemma OwnersKeepApart<V, W>(cast: seq<Subject>, stage: seq<Subject>, c: Dict<V>, p: Dict<W>)
    requires Unique(cast) && OwnedBy(cast, true, c) && Unique(stage) && OwnedBy(stage, false, p)
    ensures Unique(cast + stage) && forall i :: 0 <= i < |cast + stage| ==> OwnerOf((cast + stage)[i]).Some?
  {
    forall i, j | 0 <= i < |cast| && 0 <= j < |stage| ensures cast[i] != stage[j] {
      assert OwnerOf(cast[i]).value.0 != OwnerOf(stage[j]).value.0;
    }
    UniqueConcat(cast, stage);
  }

  lemma SceneKeepsApart(scene: seq<Subject>, others: seq<Subject>)
    requires Unique(scene) && AllOwned(scene, None)
    requires Unique(others) && forall i :: 0 <= i < |others| ==> OwnerOf(others[i]).Some?
    ensures Unique(scene + others)
  {
    forall i, j | 0 <= i < |scene| && 0 <= j < |others| ensures scene[i] != others[j] {
      assert OwnerOf(scene[i]) != OwnerOf(others[j]);
    }
    UniqueConcat(scene, others);
  }

  lemma SceneConflictsUnique(a: Scene, b: Scene)
    ensures Unique(SceneConflicts(a, b)) && AllOwned(SceneConflicts(a, b), None)
  {
  }

  lemma PartsUnique<V, W>(scene: seq<Subject>, cast: seq<Subject>, stage: seq<Subject>, c: Dict<V>, p: Dict<W>)
    requires Unique(scene) && AllOwned(scene, None)
    requires Unique(cast) && OwnedBy(cast, true, c) && Unique(stage) && OwnedBy(stage, false, p)
    ensures Unique(scene + cast + stage)
  {
    OwnersKeepApart(cast, stage, c, p);
    SceneKeepsApart(scene, cast + stage);
    assert scene + cast + stage == scene + (cast + stage);
  }

  lemma ConflictsUnique(a: Scene, b: Scene)
    requires IsScene(a)
    ensures Unique(RawConflicts(a, b))
  {
    SceneConflictsUnique(a, b);
    CastConflictsUnique(a.characters, b);
    StageConflictsUnique(a.props, b);
    PartsUnique(SceneConflicts(a, b), CastConflicts(a.characters, b), StageConflicts(a.props, b), a.characters,
                a.props);
  }

  function Ids<V>(d: Dict<V>): (ids: seq<string>)
    ensures |ids| == |d| && forall i :: 0 <= i < |d| ==> ids[i] == d[i].0
  {
    seq(|d|, i requires 0 <= i < |d| => d[i].0)
  }

  predicate NoneSpellsOut(cast: bool, ids: seq<string>) {
    forall i, j :: 0 <= i < |ids| && 0 <= j < |ids| ==> !SpellsOut(cast, ids[i], ids[j])
  }

  predicate PathsDiffer(conflicts: seq<Subject>) {
    forall i, j :: 0 <= i < j < |conflicts| ==> Path(conflicts[i]) != Path(conflicts[j])
  }

  predicate DistinctPaths(a: Scene, b: Scene) {
    PathsDiffer(RawConflicts(a, b))
  }

  lemma OwnerIsListed(a: Scene, b: Scene, i: nat)
    requires IsScene(a) && i < |RawConflicts(a, b)| && !RawConflicts(a, b)[i].OfScene?
    ensures var s := RawConflicts(a, b)[i]; s.id in if OfCast(s) then Ids(a.characters) else Ids(a.props)
  {
    SceneConflictsUnique(a, b);
    CastConflictsUnique(a.characters, b);
    StageConflictsUnique(a.props, b);
  }

  lemma NoSpellingNoSharing(a: Scene, b: Scene)
    requires IsScene(a) && NoneSpellsOut(true, Ids(a.characters)) && NoneSpellsOut(false, Ids(a.props))
    ensures DistinctPaths(a, b)
  {
    var conflicts := RawConflicts(a, b);
    ConflictsUnique(a, b);
    forall i, j | 0 <= i < j < |conflicts| ensures Path(conflicts[i]) != Path(conflicts[j]) {
      if !conflicts[i].OfScene? && !conflicts[j].OfScene? {
        OwnerIsListed(a, b, i);
        OwnerIsListed(a, b, j);
      }
      if Path(conflicts[i]) == Path(conflicts[j]) {
        PathsTellConflictsApart(conflicts[i], conflicts[j]);
      }
    }
  }

  // ------------------------------------------------------- and when they are shared

  const UNKNOWN := Character(None, None, None, None, None, None)

  const KNOWN := Character(Some("here"), Some(["coat"]), Some(["cut"]), Some(["key"]), Some([]), Some(["secret"]))

  const UNKNOWN_PROP := Prop(None, None, None)

  const KNOWN_PROP := Prop(Some("owner"), Some("here"), Some("whole"))

  /** A character before and after it loses what `w` stands for in a path. */
  function Losing(w: string): (Character, Character) {
    if "relationships." <= w then
      (UNKNOWN.(relationships := Some([(w[14..], "friend")])), UNKNOWN.(relationships := Some([])))
    else (KNOWN, UNKNOWN)
  }

  lemma EverythingLost(id: string, f: CharacterField)
    ensures OfCharacterField(id, f) in CharacterConflicts(id, KNOWN, Some(UNKNOWN))
  {
    var fields := FieldConflicts(id, KNOWN, UNKNOWN);
    assert fields == [OfCharacterField(id, CharacterLocation), OfCharacterField(id, Wardrobe),
                      OfCharacterField(id, Injuries), OfCharacterField(id, HeldProps)];
    assert CharacterConflicts(id, KNOWN, Some(UNKNOWN))
           == fields + [OfCharacterField(id, Relationships)] + [OfCharacterField(id, RevealedFacts)];
    assert OfCharacterField(id, f) in fields || f == Relationships || f == RevealedFacts by {
      match f
      case CharacterLocation => assert fields[0] == OfCharacterField(id, f);
      case Wardrobe => assert fields[1] == OfCharacterField(id, f);
      case Injuries => assert fields[2] == OfCharacterField(id, f);
      case HeldProps => assert fields[3] == OfCharacterField(id, f);
      case Relationships =>
      case RevealedFacts =>
    }
  }

  lemma PersonLost(id: string, person: string)
    ensures var related := UNKNOWN.(relationships := Some([(person, "friend")]));
            OfRelationship(id, person)
            in CharacterConflicts(id, related, Some(UNKNOWN.(relationships := Some([]))))
  {
    var people := [(person, "friend")];
    assert people[..0] == [];
    assert PeopleConflicts(id, people, []) == [OfRelationship(id, person)];
  }

  lemma PrefixAndRest(p: string, w: string)
    requires p <= w
    ensures p + w[|p|..] == w
  {
  }

  lemma FieldLoses(id: string, f: CharacterField, w: string)
    requires w == CharacterName(f) && !("relationships." <= w)
    ensures OfCharacterField(id, f) in CharacterConflicts(id, Losing(w).0, Some(Losing(w).1))
  {
    EverythingLost(id, f);
    assert Losing(w) == (KNOWN, UNKNOWN);
  }

  lemma PersonLoses(id: string, w: string)
    requires "relationships." <= w
    ensures OfRelationship(id, w[14..]) in CharacterConflicts(id, Losing(w).0, Some(Losing(w).1))
    ensures TailOf(OfRelationship(id, w[14..])) == Dotted(id, w)
  {
    PersonLost(id, w[14..]);
    PrefixAndRest("relationships.", w);
  }

  lemma CharacterLoses(id: string, w: string, lost: seq<Subject>) returns (s: Subject)
    requires IsRest(true, w) && lost == CharacterConflicts(id, Losing(w).0, Some(Losing(w).1))
    ensures s in lost && !s.OfScene? && OfCast(s) && TailOf(s) == Dotted(id, w)
  {
    if "relationships." <= w {
      PersonLoses(id, w);
      s := OfRelationship(id, w[14..]);
    } else {
      var f: CharacterField :| w == CharacterName(f);
      FieldLoses(id, f, w);
      s := OfCharacterField(id, f);
    }
  }

  lemma PropLoses(id: string, w: string) returns (s: Subject)
    requires IsRest(false, w)
    ensures s in PropConflicts(id, KNOWN_PROP, Some(UNKNOWN_PROP))
    ensures !s.OfScene? && !OfCast(s) && TailOf(s) == Dotted(id, w)
  {
    var p: PropField :| w == PropName(p);
    s := OfPropField(id, p);
  }

  lemma {:induction false} CastHolds(characters: Dict<Character>, b: Scene, k: nat, s: Subject)
    requires k < |characters|
    requires s in CharacterConflicts(characters[k].0, characters[k].1, Get(b.characters, characters[k].0))
    ensures s in CastConflicts(characters, b)
  {
    if k < |characters| - 1 {
      CastHolds(characters[..|characters| - 1], b, k, s);
    }
  }

  lemma {:induction false} StageHolds(props: Dict<Prop>, b: Scene, k: nat, s: Subject)
    requires k < |props| && s in PropConflicts(props[k].0, props[k].1, Get(b.props, props[k].0))
    ensures s in StageConflicts(props, b)
  {
    if k < |props| - 1 {
      StageHolds(props[..|props| - 1], b, k, s);
    }
  }

  lemma TwoShareAPath(conflicts: seq<Subject>, s: Subject, t: Subject)
    requires s in conflicts && t in conflicts && s != t && Path(s) == Path(t)
    ensures !PathsDiffer(conflicts)
  {
    var i :| 0 <= i < |conflicts| && conflicts[i] == s;
    var j :| 0 <= j < |conflicts| && conflicts[j] == t;
    if i < j {
      assert Path(conflicts[i]) == Path(conflicts[j]);
    } else {
      assert Path(conflicts[j]) == Path(conflicts[i]);
    }
  }

  lemma SharedPath(a: Scene, b: Scene, s: Subject, t: Subject)
    requires s in RawConflicts(a, b) && t in RawConflicts(a, b) && s != t && Path(s) == Path(t)
    ensures !DistinctPaths(a, b)
  {
    TwoShareAPath(RawConflicts(a, b), s, t);
  }

  /** These ids, with one of them as given and nothing known of the others. */
  function DictOf<V>(ids: seq<string>, i: int, value: V, unknown: V): (d: Dict<V>)
    ensures Ids(d) == ids && forall k :: 0 <= k < |d| ==> d[k].1 == if k == i then value else unknown
  {
    seq(|ids|, k requires 0 <= k < |ids| => (ids[k], if k == i then value else unknown))
  }

  lemma CharactersShare(a: Scene, b: Scene, i: nat, j: nat, w: string)
    requires i < |a.characters| && j < |a.characters| && IsRest(true, w) && a.characters[i].1 == Losing(w).0
    requires b.characters == [(a.characters[i].0, Losing(w).1)]
    requires a.characters[j].0 == a.characters[i].0 + "." + w
    ensures !DistinctPaths(a, b)
  {
    var x, y := a.characters[i].0, a.characters[j].0;
    assert |y| > |x|;
    var s := CharacterLoses(x, w, CharacterConflicts(x, Losing(w).0, Some(Losing(w).1)));
    CastHolds(a.characters, b, i, s);
    assert Get(b.characters, y) == None by { assert b.characters[1..] == []; }
    CastHolds(a.characters, b, j, OfCharacter(y));
    PathIsTail(s);
    SharedPath(a, b, s, OfCharacter(y));
  }

  lemma PropsShare(a: Scene, b: Scene, i: nat, j: nat, w: string)
    requires i < |a.props| && j < |a.props| && IsRest(false, w) && a.props[i].1 == KNOWN_PROP
    requires b.props == [(a.props[i].0, UNKNOWN_PROP)]
    requires a.props[j].0 == a.props[i].0 + "." + w
    ensures !DistinctPaths(a, b)
  {
    var x, y := a.props[i].0, a.props[j].0;
    assert |y| > |x|;
    var s := PropLoses(x, w);
    StageHolds(a.props, b, i, s);
    assert Get(b.props, y) == None by { assert b.props[1..] == []; }
    StageHolds(a.props, b, j, OfProp(y));
    PathIsTail(s);
    SharedPath(a, b, s, OfProp(y));
  }

  lemma SpelledCharactersShare(cast: seq<string>, stage: seq<string>, i: nat, j: nat) returns (a: Scene, b: Scene)
    requires Unique(cast) && Unique(stage) && i < |cast| && j < |cast| && SpellsOut(true, cast[i], cast[j])
    ensures IsScene(a) && IsScene(b) && Ids(a.characters) == cast && Ids(a.props) == stage && !DistinctPaths(a, b)
  {
    var w := cast[j][|cast[i]| + 1..];
    var (before, after) := Losing(w);
    a := Scene(DictOf(cast, i, before, UNKNOWN), DictOf(stage, -1, UNKNOWN_PROP, UNKNOWN_PROP), None, None, None);
    b := Scene([(cast[i], after)], [], None, None, None);
    assert Ids(a.characters)[i] == cast[i] && Ids(a.characters)[j] == cast[j] == cast[i] + "." + w;
    CharactersShare(a, b, i, j, w);
  }

  lemma SpelledPropsShare(cast: seq<string>, stage: seq<string>, i: nat, j: nat) returns (a: Scene, b: Scene)
    requires Unique(cast) && Unique(stage) && i < |stage| && j < |stage| && SpellsOut(false, stage[i], stage[j])
    ensures IsScene(a) && IsScene(b) && Ids(a.characters) == cast && Ids(a.props) == stage && !DistinctPaths(a, b)
  {
    var w := stage[j][|stage[i]| + 1..];
    a := Scene(DictOf(cast, -1, UNKNOWN, UNKNOWN), DictOf(stage, i, KNOWN_PROP, UNKNOWN_PROP), None, None, None);
    b := Scene([], [(stage[i], UNKNOWN_PROP)], None, None, None);
    assert Ids(a.props)[i] == stage[i] && Ids(a.props)[j] == stage[j] == stage[i] + "." + w;
    PropsShare(a, b, i, j, w);
  }

  /** Whatever was known and whatever opens: the conflicts of every audit over these ids are
      on different paths, so that explaining or overriding one never covers another, exactly
      when no character id and no prop id spells out a field of another. */
  lemma ConflictsHaveDistinctPaths(cast: seq<string>, stage: seq<string>)
    requires Unique(cast) && Unique(stage)
    ensures (forall a, b :: IsScene(a) && IsScene(b) && Ids(a.characters) == cast && Ids(a.props) == stage ==>
               DistinctPaths(a, b))
            <==> NoneSpellsOut(true, cast) && NoneSpellsOut(false, stage)
  {
    if NoneSpellsOut(true, cast) && NoneSpellsOut(false, stage) {
      forall a, b | IsScene(a) && IsScene(b) && Ids(a.characters) == cast && Ids(a.props) == stage
        ensures DistinctPaths(a, b)
      {
        NoSpellingNoSharing(a, b);
      }
    } else if !NoneSpellsOut(true, cast) {
      var i, j :| 0 <= i < |cast| && 0 <= j < |cast| && SpellsOut(true, cast[i], cast[j]);
      var a, b := SpelledCharactersShare(cast, stage, i, j);
    } else {
      var i, j :| 0 <= i < |stage| && 0 <= j < |stage| && SpellsOut(false, stage[i], stage[j]);
      var a, b := SpelledPropsShare(cast, stage, i, j);
    }
  }

  lemma SpelledHasDot(cast: bool, x: string, y: string)
    requires SpellsOut(cast, x, y)
    ensures !DotFree(y)
  {
    assert y[|x|] == (x + ".")[|x|];
  }

  /** Ids without dots are always safe. */
  lemma DotFreeIdsNeverSpell(cast: bool, ids: seq<string>)
    requires forall i :: 0 <= i < |ids| ==> DotFree(ids[i])
    ensures NoneSpellsOut(cast, ids)
  {
    forall i, j | 0 <= i < |ids| && 0 <= j < |ids| ensures !SpellsOut(cast, ids[i], ids[j]) {
      if SpellsOut(cast, ids[i], ids[j]) {
        SpelledHasDot(cast, ids[i], ids[j]);
      }
    }
  }

  lemma OneMoved(id: string, here: string, there: string)
    requires here != there
    ensures CharacterConflicts(id, UNKNOWN.(location := Some(here)), Some(UNKNOWN.(location := Some(there))))
            == [OfCharacterField(id, CharacterLocation)]
  {
  }

  lemma OneMovedOneGone(id: string, here: string, there: string, cast: Dict<Character>, opening: Scene)
    requires here != there
    requires cast == [(id, UNKNOWN.(location := Some(here))), (id + ".location", UNKNOWN)]
    requires opening == Scene([(id, UNKNOWN.(location := Some(there)))], [], None, None, None)
    ensures CastConflicts(cast, opening) == [OfCharacterField(id, CharacterLocation), OfCharacter(id + ".location")]
  {
    assert |id + ".location"| > |id|;
    assert cast[..1] == [cast[0]] && cast[..1][..0] == [];
    assert Get(opening.characters, id) == Some(UNKNOWN.(location := Some(there)));
    OneMoved(id, here, there);
    assert CastConflicts(cast[..1], opening) == [OfCharacterField(id, CharacterLocation)];
    assert Get(opening.characters, id + ".location") == None by { assert opening.characters[1..] == []; }
  }

  lemma OnlyCastConflicts(a: Scene, b: Scene, found: seq<Subject>)
    requires a == Scene(a.characters, [], None, None, None) && found == CastConflicts(a.characters, b)
    ensures RawConflicts(a, b) == found
  {
    assert SceneConflicts(a, b) == [] && StageConflicts([], b) == [];
  }

  lemma LocationPath(id: string)
    ensures Path(OfCharacterField(id, CharacterLocation)) == Path(OfCharacter(id + ".location"))
  {
    Reassociate("characters.", id, "location");
    assert id + "." + "location" == id + ".location";
  }

  /** What sharing looks like. One character moved and another, whose id spells out the
      first one's location, is gone: the audit lists both, under one path. */
  lemma DottedIdsCanCollide(id: string, here: string, there: string)
    requires here != there
    ensures var cast := [(id, UNKNOWN.(location := Some(here))), (id + ".location", UNKNOWN)];
            var ended := Scene(cast, [], None, None, None);
            var opening := Scene([(id, UNKNOWN.(location := Some(there)))], [], None, None, None);
            && IsScene(ended) && IsScene(opening)
            && RawConflicts(ended, opening) == [OfCharacterField(id, CharacterLocation), OfCharacter(id + ".location")]
            && Path(OfCharacterField(id, CharacterLocation)) == Path(OfCharacter(id + ".location"))
  {
    var cast := [(id, UNKNOWN.(location := Some(here))), (id + ".location", UNKNOWN)];
    var opening := Scene([(id, UNKNOWN.(location := Some(there)))], [], None, None, None);
    assert |id + ".location"| > |id|;
    OneMovedOneGone(id, here, there, cast, opening);
    OnlyCastConflicts(Scene(cast, [], None, None, None), opening, CastConflicts(cast, opening));
    LocationPath(id);
  }

  // ------------------------------------------------------------------ the audit

  datatype Snapshot = Snapshot(id: string, scene: Scene, hooks: seq<string>)

  datatype Finding = Finding(subject: Subject, path: string, explanation: string, overridden: bool)

  datatype Audit = Audit(canProceed: bool, findings: seq<Finding>, hooks: Hooks.Status)

  function Paths(subjects: seq<Subject>): (paths: seq<string>)
    ensures |paths| == |subjects| && forall i :: 0 <= i < |paths| ==> paths[i] == Path(subjects[i])
  {
    if subjects == [] then [] else Paths(subjects[..|subjects| - 1]) + [Path(subjects[|subjects| - 1])]
  }

  function Explanation(explanations: map<string, string>, path: string): string {
    if path in explanations then Strip(explanations[path]) else ""
  }

  /** The override names precisely the current conflicts, each at least once. */
  predicate NamesExactly(named: seq<string>, paths: seq<string>) {
    && (forall i :: 0 <= i < |named| ==> named[i] in paths)
    && (forall i :: 0 <= i < |paths| ==> paths[i] in named)
  }

  /** What the audit must decide, said without its loops and flags. */
  predicate MayProceed(inherited: Option<Snapshot>, opening: Scene, explanations: map<string, string>,
                       allowed: Option<seq<string>>, review: Option<Hooks.Review>) {
    inherited.Some? ==>
      && Cleared(Paths(RawConflicts(inherited.value.scene, opening)), explanations, allowed)
      && (inherited.value.hooks != [] ==>
            Hooks.AuditHookReview(Hooks.Snapshot(inherited.value.id, inherited.value.hooks), review) == Hooks.Accepted)
  }

  /** An override names exactly these paths, or without one each of them is explained. */
  predicate Cleared(paths: seq<string>, explanations: map<string, string>, allowed: Option<seq<string>>) {
    && (allowed.Some? ==> Elements(allowed.value) == Elements(paths))
    && (allowed.None? ==> forall path :: path in paths ==> path in explanations && |Strip(explanations[path])| > 0)
  }

  function Elements(paths: seq<string>): set<string> {
    set path | path in paths
  }

  lemma NamesExactlyIs(named: seq<string>, paths: seq<string>)
    ensures NamesExactly(named, paths) <==> Elements(named) == Elements(paths)
  {
    if Elements(named) == Elements(paths) {
      forall i | 0 <= i < |named| ensures named[i] in paths { assert named[i] in Elements(named); }
      forall i | 0 <= i < |paths| ensures paths[i] in named { assert paths[i] in Elements(paths); }
    }
  }

  predicate Settled(explanations: map<string, string>, allowed: Option<seq<string>>, path: string) {
    Explanation(explanations, path) != "" || (allowed.Some? && path in allowed.value)
  }

  /** A conflict as it is reported: its explanation without outer whitespace, and whether the
      override names it. */
  function FindingOn(conflict: Subject, path: string, explanations: map<string, string>,
                     allowed: Option<seq<string>>): Finding
  {
    Finding(conflict, path, if path in explanations then Strip(explanations[path]) else "",
            allowed.Some? && path in allowed.value)
  }

  method ResolveConflicts(conflicts: seq<Subject>, paths: seq<string>, explanations: map<string, string>,
                          allowed: Option<seq<string>>)
    returns (findings: seq<Finding>, blocked: bool)
    requires |paths| == |conflicts|
    ensures |findings| == |conflicts|
    ensures forall i :: 0 <= i < |conflicts| ==>
              findings[i] == FindingOn(conflicts[i], paths[i], explanations, allowed)
    ensures blocked <==> exists i :: 0 <= i < |paths| && !Settled(explanations, allowed, paths[i])
  {
    findings, blocked := [], false;
    for i := 0 to |conflicts|
      invariant |findings| == i
      invariant forall k :: 0 <= k < i ==> findings[k] == FindingOn(conflicts[k], paths[k], explanations, allowed)
      invariant blocked <==> exists k :: 0 <= k < i && !Settled(explanations, allowed, paths[k])
    {
      var explanation := Explanation(explanations, paths[i]);
      var overridden := allowed.Some? && paths[i] in allowed.value;
      if explanation == "" && !overridden {
        blocked := true;
      }
      findings := findings + [Finding(conflicts[i], paths[i], explanation, overridden)];
    }
  }

  method Unresolved(conflicts: seq<Subject>, paths: seq<string>) returns (findings: seq<Finding>)
    requires |paths| == |conflicts|
    ensures |findings| == |conflicts|
    ensures forall i :: 0 <= i < |conflicts| ==> findings[i] == Finding(conflicts[i], paths[i], "", false)
  {
    findings := [];
    for i := 0 to |conflicts|
      invariant |findings| == i
      invariant forall k :: 0 <= k < i ==> findings[k] == Finding(conflicts[k], paths[k], "", false)
    {
      findings := findings + [Finding(conflicts[i], paths[i], "", false)];
    }
  }

  predicate HooksReviewed(status: Hooks.Status) {
    status == Hooks.NotRequired || status == Hooks.Accepted
  }

  lemma SettledByOverride(explanations: map<string, string>, named: seq<string>, paths: seq<string>)
    requires NamesExactly(named, paths)
    ensures forall i :: 0 <= i < |paths| ==> Settled(explanations, Some(named), paths[i])
  {
  }

  lemma SettledByExplanations(explanations: map<string, string>, paths: seq<string>)
    ensures (forall i :: 0 <= i < |paths| ==> Settled(explanations, None, paths[i]))
            <==> forall path :: path in paths ==> path in explanations && |Strip(explanations[path])| > 0
  {
    if forall path :: path in paths ==> path in explanations && |Strip(explanations[path])| > 0 {
      forall i | 0 <= i < |paths| ensures Settled(explanations, None, paths[i]) {
        assert paths[i] in paths;
      }
    }
  }

  lemma ClearedIs(paths: seq<string>, explanations: map<string, string>, allowed: Option<seq<string>>)
    ensures Cleared(paths, explanations, allowed) <==>
              && (allowed.Some? ==> NamesExactly(allowed.value, paths))
              && (forall i :: 0 <= i < |paths| ==> Settled(explanations, allowed, paths[i]))
  {
    if allowed.None? {
      SettledByExplanations(explanations, paths);
    } else {
      NamesExactlyIs(allowed.value, paths);
      if NamesExactly(allowed.value, paths) {
        SettledByOverride(explanations, allowed.value, paths);
      }
    }
  }

  /** The report lists the conflicts in order under their paths, each with its explanation and
      override, or with neither where the override does not match. */
  predicate Reports(audit: Audit, conflicts: seq<Subject>, paths: seq<string>, explanations: map<string, string>,
                    allowed: Option<seq<string>>)
    requires |paths| == |conflicts|
  {
    && |audit.findings| == |conflicts|
    && forall i :: 0 <= i < |conflicts| ==>
         audit.findings[i] == if allowed.Some? && Elements(allowed.value) != Elements(paths)
                              then Finding(conflicts[i], paths[i], "", false)
                              else FindingOn(conflicts[i], paths[i], explanations, allowed)
  }

  method AuditContinuity(inherited: Option<Snapshot>, opening: Scene, explanations: map<string, string>,
                         allowed: Option<seq<string>>, review: Option<Hooks.Review>) returns (audit: Audit)
    ensures audit.canProceed <==> MayProceed(inherited, opening, explanations, allowed, review)
    ensures inherited.None? ==> audit.findings == []
    ensures inherited.Some? ==>
              var conflicts := RawConflicts(inherited.value.scene, opening);
              Reports(audit, conflicts, Paths(conflicts), explanations, allowed)
  {
    if inherited.None? {
      return Audit(true, [], Hooks.NotRequired);
    }
    var conflicts := GatherConflicts(inherited.value.scene, opening);
    var paths := Paths(conflicts);
    var status := Hooks.AuditHookReview(Hooks.Snapshot(inherited.value.id, inherited.value.hooks), review);
    ClearedIs(paths, explanations, allowed);
    if allowed.Some? {
      NamesExactlyIs(allowed.value, paths);
    }
    if allowed.Some? && !NamesExactly(allowed.value, paths) {
      var raw := Unresolved(conflicts, paths);
      return Audit(false, raw, Hooks.NotRequired);
    }
    var findings, blocked := ResolveConflicts(conflicts, paths, explanations, allowed);
    return Audit(!blocked && HooksReviewed(status), findings, status);
  }

  /** A request's override as the data model accepts it: 1 to 100 paths, stripped,
      none blank, none repeated. */
  predicate ValidOverride(named: seq<string>) {
    1 <= |named| <= 100 && Unique(named) && forall i :: 0 <= i < |named| ==> Stripped(named[i]) && named[i] != ""
  }

  predicate Overridable(paths: seq<string>) {
    1 <= |Dedupe(paths)| <= 100 && forall i :: 0 <= i < |paths| ==> Stripped(paths[i])
  }

  lemma {:induction false} DedupeOverrides(paths: seq<string>)
    requires Overridable(paths) && forall i :: 0 <= i < |paths| ==> paths[i] != ""
    ensures ValidOverride(Dedupe(paths)) && NamesExactly(Dedupe(paths), paths)
  {
    DedupeKeeps(paths);
    forall i | 0 <= i < |Dedupe(paths)| ensures Dedupe(paths)[i] in paths {}
  }

  lemma OverriddenIsOverridable(named: seq<string>, paths: seq<string>)
    requires ValidOverride(named) && NamesExactly(named, paths)
    ensures Overridable(paths)
  {
    DedupeKeeps(paths);
    forall x ensures x in named <==> x in Dedupe(paths) {
      if x in named { assert x in paths; }
      if x in paths { assert x in named; }
    }
    SameElementsSameLength(named, Dedupe(paths));
    forall i | 0 <= i < |paths| ensures Stripped(paths[i]) {
      var j :| 0 <= j < |named| && named[j] == paths[i];
    }
  }

  /** Some override can clear an audit's conflicts exactly when there are between one
      and a hundred distinct paths and none of them ends in whitespace, as a path
      whose last id does. */
  lemma {:induction false} OverrideExistsIff(a: Scene, b: Scene)
    ensures var paths := Paths(RawConflicts(a, b));
            (exists named :: ValidOverride(named) && NamesExactly(named, paths)) <==> Overridable(paths)
  {
    var conflicts := RawConflicts(a, b);
    var paths := Paths(conflicts);
    forall i | 0 <= i < |paths| ensures paths[i] != "" {}
    if Overridable(paths) {
      DedupeOverrides(paths);
    }
    if named :| ValidOverride(named) && NamesExactly(named, paths) {
      OverriddenIsOverridable(named, paths);
    }
  }
}
