/** The skill list editor of the skill-entry page (src/pages/SkillInput.tsx):
    the list operations and the derived predicates as functions, and the
    page's state (`inputValue`, `skills`, `isAnalyzing`) as a class whose
    event handlers update it. */
module SkillInput {
  import JsText

  /** The quick-pick chips offered under the list. */
  const Suggestions: seq<string> :=
    ["React", "Excel", "Writing", "Graphic Design", "Public Speaking", "Data Analysis"]

  /** No entry appears twice (entries are compared case-sensitively). */
  predicate Distinct(skills: seq<string>) {
    forall i, j :: 0 <= i < j < |skills| ==> skills[i] != skills[j]
  }

  /** The invariant the editor keeps: entries are distinct, non-empty and
      carry no white space at either end. */
  predicate WellFormed(skills: seq<string>) {
    && Distinct(skills)
    && (forall x :: x in skills ==> x != "" && JsText.IsTrimmed(x))
  }

  /** A list headed by `x` is distinct exactly when its tail is and does
      not hold `x`. */
  lemma DistinctCons(x: string, rest: seq<string>)
    ensures Distinct([x] + rest) <==> x !in rest && Distinct(rest)
  {
    var r := [x] + rest;
    if x !in rest && Distinct(rest) {
      forall i, j | 0 <= i < j < |r| ensures r[i] != r[j] {
        assert r[j] == rest[j - 1];
        if i > 0 {
          assert r[i] == rest[i - 1];
        }
      }
    }
    if Distinct(r) {
      forall i, j | 0 <= i < j < |rest| ensures rest[i] != rest[j] {
        assert rest[i] == r[i + 1] && rest[j] == r[j + 1];
      }
      forall j | 0 <= j < |rest| ensures rest[j] != x {
        assert rest[j] == r[j + 1] && r[0] == x;
        assert 0 < j + 1 < |r|;
      }
    }
  }

  /** The guard of `handleAddSkill`: the trimmed text is non-empty and not
      listed yet. */
  predicate Accepts(skills: seq<string>, skill: string) {
    var trimmed := JsText.Trim(skill);
    trimmed != "" && trimmed !in skills
  }

  /** The list after `handleAddSkill(skill)`: the list changes exactly when
      the guard accepts, and then by the trimmed text appended at the end,
      everything before it staying in place. */
  function WithSkill(skills: seq<string>, skill: string): (r: seq<string>)
    ensures |r| >= |skills| && r[..|skills|] == skills
    ensures r != skills <==> Accepts(skills, skill)
    ensures r != skills ==> r == skills + [JsText.Trim(skill)]
  {
    var trimmed := JsText.Trim(skill);
    if trimmed != "" && trimmed !in skills then skills + [trimmed] else skills
  }

  /** `skills.filter(s => s !== skill)`: every copy of `skill` goes, nothing
      else does, and the list never grows. */
  function Without(skills: seq<string>, skill: string): (r: seq<string>)
    ensures forall x :: x in r <==> x in skills && x != skill
    ensures |r| <= |skills|
  {
    if skills == [] then []
    else (if skills[0] == skill then [] else [skills[0]]) + Without(skills[1..], skill)
  }

  /** Filtering distributes over concatenation, so the survivors keep their
      relative order. */
  lemma {:induction false} WithoutConcat(a: seq<string>, b: seq<string>, skill: string)
    ensures Without(a + b, skill) == Without(a, skill) + Without(b, skill)
  {
    if a == [] {
      assert a + b == b;
    } else {
      assert (a + b)[0] == a[0] && (a + b)[1..] == a[1..] + b;
      WithoutConcat(a[1..], b, skill);
    }
  }

  /** Removing a value that is not listed changes nothing. */
  lemma {:induction false} WithoutAbsent(skills: seq<string>, skill: string)
    requires skill !in skills
    ensures Without(skills, skill) == skills
  {
    if skills != [] {
      WithoutAbsent(skills[1..], skill);
      assert [skills[0]] + skills[1..] == skills;
    }
  }

  /** Adding a new skill and then removing it restores the original list. */
  lemma AddThenRemove(skills: seq<string>, skill: string)
    requires Accepts(skills, skill)
    ensures Without(WithSkill(skills, skill), JsText.Trim(skill)) == skills
  {
    var trimmed := JsText.Trim(skill);
    WithoutConcat(skills, [trimmed], trimmed);
    WithoutAbsent(skills, trimmed);
    assert Without([trimmed], trimmed) == [];
  }

  /** Adding keeps the list well formed. */
  lemma AddKeepsWellFormed(skills: seq<string>, skill: string)
    requires WellFormed(skills)
    ensures WellFormed(WithSkill(skills, skill))
  {
    var r := WithSkill(skills, skill);
    if r != skills {
      var trimmed := JsText.Trim(skill);
      assert r == skills + [trimmed];
      forall i, j | 0 <= i < j < |r| ensures r[i] != r[j] {
        if j == |skills| {
          assert r[i] == skills[i];
        }
      }
    }
  }

  /** Removing keeps the list well formed. */
  lemma {:induction false} RemoveKeepsWellFormed(skills: seq<string>, skill: string)
    requires WellFormed(skills)
    ensures WellFormed(Without(skills, skill))
  {
    if skills != [] {
      var tail := skills[1..];
      assert skills == [skills[0]] + tail;
      DistinctCons(skills[0], tail);
      RemoveKeepsWellFormed(tail, skill);
      var rest := Without(tail, skill);
      if skills[0] != skill {
        DistinctCons(skills[0], rest);
      }
    }
  }

  /** Adding the same text a second time changes nothing. */
  lemma AddTwice(skills: seq<string>, skill: string)
    ensures WithSkill(WithSkill(skills, skill), skill) == WithSkill(skills, skill)
  {
  }

  /** A suggestion chip is disabled when the suggestion is already listed. */
  predicate SuggestionDisabled(skills: seq<string>, suggestion: string) {
    suggestion in skills
  }

  /** A suggestion chip is disabled exactly when clicking it would not add
      it; clicking an enabled chip appends the suggestion as it is. */
  lemma SuggestionChip(skills: seq<string>, i: nat)
    requires i < |Suggestions|
    ensures SuggestionDisabled(skills, Suggestions[i]) <==> !Accepts(skills, Suggestions[i])
    ensures !SuggestionDisabled(skills, Suggestions[i]) ==>
      WithSkill(skills, Suggestions[i]) == skills + [Suggestions[i]]
  {
    var s := Suggestions[i];
    assert s != "" && !JsText.IsWhiteSpace(s[0]) && !JsText.IsWhiteSpace(s[|s| - 1]);
    assert JsText.Trim(s) == s;
  }

  /** The "Generate" button is disabled while the list is empty. */
  predicate GenerateDisabled(skills: seq<string>) {
    |skills| == 0
  }

  /** The button is disabled exactly for the empty list, so an accepted
      add always enables it. */
  lemma GenerateButton(skills: seq<string>, skill: string)
    ensures GenerateDisabled(skills) <==> skills == []
    ensures Accepts(skills, skill) ==> !GenerateDisabled(WithSkill(skills, skill))
  {
  }

  /** What the live preview panel shows. */
  datatype PreviewPanel = AnalyzingState | EmptyState | OpportunityList

  /** The preview: the analyzing state first, else the empty state for an
      empty list, else the list of opportunities. */
  function Preview(isAnalyzing: bool, skills: seq<string>): (p: PreviewPanel)
    ensures p == AnalyzingState <==> isAnalyzing
    ensures p == EmptyState <==> !isAnalyzing && GenerateDisabled(skills)
    ensures p == OpportunityList <==> !isAnalyzing && !GenerateDisabled(skills)
  {
    if isAnalyzing then AnalyzingState
    else if |skills| == 0 then EmptyState
    else OpportunityList
  }

  /** The state of one skill-entry page. `pendingTimers` counts the
      analysis timers started and not yet fired. */
  class SkillInputPage {
    var inputValue: string
    var skills: seq<string>
    var isAnalyzing: bool
    var pendingTimers: nat

    /** The list is well formed, and nothing is being analyzed once every
        timer has fired. */
    ghost predicate Valid()
      reads this
    {
      WellFormed(skills) && (pendingTimers == 0 ==> !isAnalyzing)
    }

    constructor ()
      ensures Valid()
      ensures inputValue == "" && skills == [] && !isAnalyzing && pendingTimers == 0
    {
      inputValue, skills, isAnalyzing, pendingTimers := "", [], false, 0;
    }

    /** The text field's `onChange`. */
    method Type(text: string)
      requires Valid()
      modifies this`inputValue
      ensures Valid() && inputValue == text
    {
      inputValue := text;
    }

    /** `handleAddSkill`: on an accepted entry the trimmed text is appended,
        the field is cleared and an analysis starts; on a blank or a
        duplicate entry nothing at all changes. */
    method HandleAddSkill(skill: string)
      requires Valid()
      modifies this
      ensures Valid()
      ensures skills == WithSkill(old(skills), skill)
      ensures Accepts(old(skills), skill) ==>
        inputValue == "" && isAnalyzing && pendingTimers == old(pendingTimers) + 1
      ensures !Accepts(old(skills), skill) ==>
        inputValue == old(inputValue) && isAnalyzing == old(isAnalyzing) && pendingTimers == old(pendingTimers)
    {
      var before := skills;
      AddKeepsWellFormed(before, skill);
      var trimmed := JsText.Trim(skill);
      if trimmed != "" && trimmed !in skills {
        assert WithSkill(before, skill) == before + [trimmed];
        skills := before + [trimmed];
        inputValue := "";
        TriggerAIAnalysis();
      } else {
        assert WithSkill(before, skill) == before;
      }
    }

    /** `removeSkill`: drops every entry equal to `skill`, keeping the order
        of the rest. */
    method RemoveSkill(skill: string)
      requires Valid()
      modifies this`skills
      ensures Valid()
      ensures skills == Without(old(skills), skill)
    {
      RemoveKeepsWellFormed(skills, skill);
      skills := Without(skills, skill);
    }

    /** `triggerAIAnalysis`: shows the analyzing state and starts a timer. */
    method TriggerAIAnalysis()
      modifies this`isAnalyzing, this`pendingTimers
      ensures isAnalyzing && pendingTimers == old(pendingTimers) + 1
    {
      isAnalyzing := true;
      pendingTimers := pendingTimers + 1;
    }

    /** One analysis timer fires: the analyzing state ends, even when a later
        analysis still has its timer running. */
    method AnalysisTimerFires()
      requires Valid() && pendingTimers > 0
      modifies this`isAnalyzing, this`pendingTimers
      ensures Valid()
      ensures !isAnalyzing && pendingTimers == old(pendingTimers) - 1
    {
      isAnalyzing := false;
      pendingTimers := pendingTimers - 1;
    }
  }

  /** Adding two skills in a row and letting the first timer fire ends the
      analyzing state while the second timer is still running, and the
      preview then lists opportunities. */
  method TwoAddsOneTimer(first: string, second: string) returns (panel: PreviewPanel, pending: nat)
    requires JsText.Trim(first) != "" && JsText.Trim(second) != ""
    requires JsText.Trim(first) != JsText.Trim(second)
    ensures panel == OpportunityList && pending == 1
  {
    var page := new SkillInputPage();
    page.HandleAddSkill(first);
    page.HandleAddSkill(second);
    page.AnalysisTimerFires();
    panel := Preview(page.isAnalyzing, page.skills);
    pending := page.pendingTimers;
  }
}
