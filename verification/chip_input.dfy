/**
  The skill chip input. Its list operations build new arrays and hand them
  to `onChange`, which the Skills step wires to the store's `setSkills`;
  its own state is the text typed so far and whether suggestions are
  shown. Names are compared after lower-casing, without trimming.
 */
module ChipInput {
  import opened Js
  import opened FormTypes
  import opened SeqOps
  import opened FormState

  /** `a.toLowerCase() === b.toLowerCase()`. */
  predicate SameName(a: string, b: string) {
    Lower(a) == Lower(b)
  }

  /** `skills.some(s => s.name.toLowerCase() === name.toLowerCase())`. */
  predicate HasSkillNamed(skills: seq<Skill>, name: string) {
    exists i :: 0 <= i < |skills| && SameName(skills[i].name, name)
  }

  /** No two chips carry the same name, ignoring case. */
  predicate DistinctNames(skills: seq<Skill>) {
    forall i, j :: 0 <= i < j < |skills| ==> !SameName(skills[i].name, skills[j].name)
  }

  /** The list `handleAddSkill(name)` passes on; an unchanged list when nothing is added. */
  function AddSkill(skills: seq<Skill>, name: string): (r: seq<Skill>)
    ensures name != "" ==> HasSkillNamed(r, name)
    ensures |r| == |skills| + 1 <==> name != "" && !HasSkillNamed(skills, name)
    ensures |r| == |skills| + 1 ==> r[..|skills|] == skills && r[|skills|] == Skill(name, None)
    ensures |r| != |skills| + 1 ==> r == skills
  {
    if name != "" && !HasSkillNamed(skills, name) then
      var r := skills + [Skill(name, None)];
      assert SameName(r[|skills|].name, name);
      r
    else skills
  }

  /** The list `handleYearsChange(index, years)` passes on. */
  function WithYears(skills: seq<Skill>, index: int, years: real): (r: seq<Skill>)
    ensures |r| == |skills|
    ensures forall i :: 0 <= i < |r| ==> r[i].name == skills[i].name
    ensures 0 <= index < |skills| ==> r[index].years == Some(years)
    ensures forall i :: 0 <= i < |r| && i != index ==> r[i] == skills[i]
  {
    seq(|skills|, i requires 0 <= i < |skills| => if i == index then skills[i].(years := Some(years)) else skills[i])
  }

  /** `predefinedSkills.filter(...)`: contains the typed text, ignoring case, and not chosen yet. */
  function Suggestions(predefined: seq<string>, skills: seq<Skill>, input: string): (r: seq<string>)
    ensures forall x :: x in r <==> x in predefined && Includes(Lower(x), Lower(input)) && !HasSkillNamed(skills, x)
    ensures IsSubsequence(r, predefined)
    decreases |predefined|
  {
    if predefined == [] then []
    else
      var x := predefined[0];
      var rest := Suggestions(predefined[1..], skills, input);
      assert forall y :: y in predefined <==> y == x || y in predefined[1..];
      if Includes(Lower(x), Lower(input)) && !HasSkillNamed(skills, x) then
        [x] + rest
      else
        SubsequenceCons(rest, predefined[1..], x);
        assert [x] + predefined[1..] == predefined;
        rest
  }

  /** `a` is `b` with some elements dropped, the others kept in order. */
  predicate IsSubsequence<T(==)>(a: seq<T>, b: seq<T>)
    decreases |b|
  {
    if a == [] then true
    else if b == [] then false
    else if a[0] == b[0] then IsSubsequence(a[1..], b[1..])
    else IsSubsequence(a, b[1..])
  }

  lemma {:induction false} SubsequenceDropFirst<T>(a: seq<T>, b: seq<T>)
    requires a != [] && IsSubsequence(a, b)
    ensures IsSubsequence(a[1..], b)
    decreases |b|, 0
  {
    if a[0] != b[0] {
      SubsequenceDropFirst(a, b[1..]);
      SubsequenceCons(a[1..], b[1..], b[0]);
      assert [b[0]] + b[1..] == b;
    } else {
      SubsequenceCons(a[1..], b[1..], b[0]);
      assert [b[0]] + b[1..] == b;
    }
  }

  /** Putting an element in front of `b` keeps `a` a subsequence of it. */
  lemma {:induction false} SubsequenceCons<T>(a: seq<T>, b: seq<T>, x: T)
    requires IsSubsequence(a, b)
    ensures IsSubsequence(a, [x] + b)
    decreases |b|, 1
  {
    var xb := [x] + b;
    assert xb[1..] == b;
    if a != [] && a[0] == x {
      SubsequenceDropFirst(a, b);
    }
  }

  /** Appending a skill after a membership test keeps the names distinct. */
  lemma AddSkillKeepsDistinct(skills: seq<Skill>, name: string)
    requires DistinctNames(skills)
    ensures DistinctNames(AddSkill(skills, name))
  {
    var r := AddSkill(skills, name);
    if |r| == |skills| + 1 {
      forall i, j | 0 <= i < j < |r|
        ensures !SameName(r[i].name, r[j].name)
      {
        if j == |skills| {
          assert r[i] == skills[i];
        } else {
          assert r[i] == skills[i] && r[j] == skills[j];
        }
      }
    }
  }

  /** Any run of additions, starting from a list of distinct names, keeps the names distinct. */
  function AddAll(skills: seq<Skill>, names: seq<string>): seq<Skill>
    decreases |names|
  {
    if names == [] then skills else AddAll(AddSkill(skills, names[0]), names[1..])
  }

  lemma {:induction false} AddAllKeepsDistinct(skills: seq<Skill>, names: seq<string>)
    requires DistinctNames(skills)
    ensures DistinctNames(AddAll(skills, names))
    decreases |names|
  {
    if names != [] {
      AddSkillKeepsDistinct(skills, names[0]);
      AddAllKeepsDistinct(AddSkill(skills, names[0]), names[1..]);
    }
  }

  /** Adding the same name twice is adding it once. */
  lemma AddSkillIdempotent(skills: seq<Skill>, name: string)
    ensures AddSkill(AddSkill(skills, name), name) == AddSkill(skills, name)
  {
  }

  /** Removing a chip or setting its years never makes two names collide. */
  lemma EditsKeepDistinct(skills: seq<Skill>, index: int, years: real)
    requires DistinctNames(skills)
    ensures DistinctNames(Without(skills, index))
    ensures DistinctNames(WithYears(skills, index, years))
  {
    RemoveKeepsDistinct(skills, index);
    var r := WithYears(skills, index, years);
    assert forall i :: 0 <= i < |r| ==> r[i].name == skills[i].name;
  }

  lemma RemoveKeepsDistinct(skills: seq<Skill>, index: int)
    requires DistinctNames(skills)
    ensures DistinctNames(Without(skills, index))
  {
    var r := Without(skills, index);
    if 0 <= index < |skills| {
      assert |r| == |skills| - 1;
      forall i, j | 0 <= i < j < |r|
        ensures !SameName(r[i].name, r[j].name)
      {
        var i' := if i < index then i else i + 1;
        var j' := if j < index then j else j + 1;
        assert i' < j';
        assert r[i] == skills[i'] && r[j] == skills[j'];
      }
    }
  }

  /** A name that differs from a chosen one only in case is not added, and nothing is trimmed. */
  lemma CaseExample()
    ensures AddSkill([Skill("React", None)], "react") == [Skill("React", None)]
    ensures AddSkill([Skill("React", None)], " React") == [Skill("React", None), Skill(" React", None)]
  {
    assert Lower("React") == Lower("react") by {
      assert Lower("React") == "react";
    }
    assert !SameName("React", " React") by {
      assert Lower(" React")[0] == ' ';
    }
  }

  /** Picking an offered suggestion always adds it: suggestions are never already chosen. */
  lemma SuggestionAlwaysAdded(predefined: seq<string>, skills: seq<Skill>, input: string, x: string)
    requires x in Suggestions(predefined, skills, input) && x != ""
    ensures AddSkill(skills, x) == skills + [Skill(x, None)]
  {
  }

  /** With nothing typed, every predefined skill not yet chosen is offered. */
  lemma EmptyInputOffersAll(predefined: seq<string>, skills: seq<Skill>, x: string)
    requires x in predefined && !HasSkillNamed(skills, x)
    ensures x in Suggestions(predefined, skills, "")
  {
    IncludesEmpty(Lower(x));
  }

  /** The chip input's own state, bound to the store whose skills it edits. */
  class ChipInput {
    const store: FormStore
    const predefined: seq<string>
    var inputValue: string
    var showSuggestions: bool

    constructor(store: FormStore, predefined: seq<string>)
      ensures this.store == store && this.predefined == predefined
      ensures inputValue == "" && !showSuggestions
    {
      this.store := store;
      this.predefined := predefined;
      inputValue := "";
      showSuggestions := false;
    }

    function FilteredSuggestions(): seq<string>
      reads this, store
    {
      Suggestions(predefined, store.skills, inputValue)
    }

    /** The suggestion list is drawn only when switched on and non-empty. */
    predicate SuggestionsVisible()
      reads this, store
    {
      showSuggestions && |FilteredSuggestions()| > 0
    }

    /**
      Typing replaces the text and switches suggestions on; the list is then
      drawn exactly when some predefined skill matches the new text.
     */
    method HandleInputChange(value: string)
      modifies this
      ensures inputValue == value && showSuggestions
      ensures SuggestionsVisible() <==> |Suggestions(predefined, store.skills, value)| > 0
    {
      inputValue := value;
      showSuggestions := true;
    }

    /**
      Only an addition that goes through clears the text and hides the
      suggestions; a refused name stays in the box.
     */
    method HandleAddSkill(name: string)
      modifies this, store
      ensures store.Snapshot() == old(store.Snapshot()).(skills := AddSkill(old(store.skills), name))
      ensures var added := name != "" && !HasSkillNamed(old(store.skills), name);
        if added then inputValue == "" && !showSuggestions && !SuggestionsVisible()
        else inputValue == old(inputValue) && showSuggestions == old(showSuggestions)
    {
      if name != "" && !HasSkillNamed(store.skills, name) {
        store.SetSkills(store.skills + [Skill(name, None)]);
        inputValue := "";
        showSuggestions := false;
      }
    }

    /**
      Enter adds the typed text when there is any; as with a click, the box
      is cleared and the suggestions hidden only when the skill is added.
     */
    method HandleEnter()
      modifies this, store
      ensures store.Snapshot() == old(store.Snapshot()).(skills := AddSkill(old(store.skills), old(inputValue)))
      ensures var added := old(inputValue) != "" && !HasSkillNamed(old(store.skills), old(inputValue));
        if added then inputValue == "" && !showSuggestions
        else inputValue == old(inputValue) && showSuggestions == old(showSuggestions)
    {
      if inputValue != "" {
        HandleAddSkill(inputValue);
      }
    }

    method HandleRemoveSkill(index: int)
      modifies store
      ensures store.Snapshot() == old(store.Snapshot()).(skills := Without(old(store.skills), index))
    {
      store.SetSkills(Without(store.skills, index));
    }

    method HandleYearsChange(index: int, years: real)
      modifies store
      ensures store.Snapshot() == old(store.Snapshot()).(skills := WithYears(old(store.skills), index, years))
    {
      store.SetSkills(WithYears(store.skills, index, years));
    }
  }
}
