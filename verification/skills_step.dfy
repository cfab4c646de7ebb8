/**
  The Skills step: the chip input bound to the store's skills, and two
  buttons that move the step without any check.
 */
module SkillsScreen {
  import opened Js
  import opened FormTypes
  import opened FormState
  import opened ChipInput

  /** The skills the chip input suggests, in display order. */
  const PredefinedSkills: seq<string> := ["React", "Node.js", "Python", "Docker", "TypeScript", "JavaScript"]

  /** With an empty list and nothing typed, every predefined skill is suggested, in the same order. */
  lemma AllSuggestedAtFirst()
    ensures Suggestions(PredefinedSkills, [], "") == PredefinedSkills
  {
    forall x | x in PredefinedSkills
      ensures x in Suggestions(PredefinedSkills, [], "")
    {
      EmptyInputOffersAll(PredefinedSkills, [], x);
    }
    SuggestionsOfAll(PredefinedSkills, [], "");
  }

  /** When the filter keeps every element, the result is the whole list. */
  lemma {:induction false} SuggestionsOfAll(predefined: seq<string>, skills: seq<Skill>, input: string)
    requires forall x :: x in predefined ==> x in Suggestions(predefined, skills, input)
    ensures Suggestions(predefined, skills, input) == predefined
    decreases |predefined|
  {
    if predefined != [] {
      var x := predefined[0];
      assert x in predefined;
      assert Includes(Lower(x), Lower(input)) && !HasSkillNamed(skills, x);
      forall y | y in predefined[1..]
        ensures y in Suggestions(predefined[1..], skills, input)
      {
        assert y in predefined;
      }
      SuggestionsOfAll(predefined[1..], skills, input);
    }
  }

  class SkillsStep {
    const store: FormStore
    const chips: ChipInput

    constructor(store: FormStore)
      ensures this.store == store && chips.store == store && chips.predefined == PredefinedSkills
      ensures fresh(chips)
    {
      this.store := store;
      chips := new ChipInput(store, PredefinedSkills);
    }

    /** Next advances even with no skills at all. */
    method HandleNext()
      modifies store
      ensures store.Snapshot() == old(store.Snapshot()).(step := old(store.step) + 1)
    {
      store.NextStep();
    }

    method HandlePrevious()
      modifies store
      ensures store.Snapshot() == old(store.Snapshot()).(step := old(store.step) - 1)
    {
      store.PrevStep();
    }
  }
}
