/**
 * The selection state of the solution configurator (main.js,
 * `initializeSolutionConfigurator`): the industry cards, the challenge
 * checkboxes, the "Get strategy" button and the solution panel.
 */
module Configurator {
  import opened Wrappers
  import Solutions

  /** `challenges` with every occurrence of `c` filtered out, the rest in order. */
  function Without(challenges: seq<string>, c: string): (r: seq<string>)
    ensures |r| <= |challenges|
    ensures forall x :: x in r <==> x in challenges && x != c
  {
    if challenges == [] then []
    else (if challenges[0] == c then [] else [challenges[0]]) + Without(challenges[1..], c)
  }

  /** No challenge occurs twice. */
  ghost predicate NoDuplicates(s: seq<string>)
  {
    forall i, j :: 0 <= i < j < |s| ==> s[i] != s[j]
  }

  /** `x` occurs somewhere before `y`. */
  ghost predicate Precedes(s: seq<string>, x: string, y: string)
  {
    exists i, j :: 0 <= i < j < |s| && s[i] == x && s[j] == y
  }

  lemma PrecedesCons(s: seq<string>, x: string, y: string)
    requires s != []
    ensures Precedes(s, x, y) <==> (s[0] == x && y in s[1..]) || Precedes(s[1..], x, y)
  {
    if Precedes(s, x, y) {
      var i, j :| 0 <= i < j < |s| && s[i] == x && s[j] == y;
      if i == 0 {
        assert s[1..][j - 1] == y;
      } else {
        assert s[1..][i - 1] == x && s[1..][j - 1] == y;
      }
    }
    if s[0] == x && y in s[1..] {
      var j :| 0 <= j < |s[1..]| && s[1..][j] == y;
      assert s[0] == x && s[j + 1] == y;
    }
    if Precedes(s[1..], x, y) {
      var i, j :| 0 <= i < j < |s[1..]| && s[1..][i] == x && s[1..][j] == y;
      assert s[i + 1] == x && s[j + 1] == y;
    }
  }

  /** Filtering `c` out keeps the relative order of every other challenge. */
  lemma {:induction false} WithoutKeepsOrder(s: seq<string>, c: string, x: string, y: string)
    requires x != c && y != c
    ensures Precedes(Without(s, c), x, y) <==> Precedes(s, x, y)
  {
    if s != [] {
      var rest := Without(s[1..], c);
      WithoutKeepsOrder(s[1..], c, x, y);
      PrecedesCons(s, x, y);
      if s[0] != c {
        assert Without(s, c) == [s[0]] + rest;
        assert ([s[0]] + rest)[1..] == rest;
        PrecedesCons([s[0]] + rest, x, y);
      } else {
        assert Without(s, c) == rest;
      }
    }
  }

  /** Filtering keeps a list free of duplicates. */
  lemma {:induction false} WithoutNoDuplicates(s: seq<string>, c: string)
    requires NoDuplicates(s)
    ensures NoDuplicates(Without(s, c))
  {
    if s != [] {
      WithoutNoDuplicates(s[1..], c);
      var rest := Without(s[1..], c);
      assert s[0] !in s[1..];
      assert s[0] !in rest;
    }
  }

  /** Filtering out a challenge that is not there changes nothing. */
  lemma {:induction false} WithoutAbsent(s: seq<string>, c: string)
    requires c !in s
    ensures Without(s, c) == s
  {
    if s != [] {
      WithoutAbsent(s[1..], c);
      assert [s[0]] + s[1..] == s;
    }
  }

  /**
   * There is a flag for each option, the selected challenges are options,
   * each flag is set exactly when its challenge is selected, and none is
   * selected twice.
   */
  ghost predicate Agree(options: seq<string>, checked: map<string, bool>, selected: seq<string>)
  {
    && (forall c :: c in checked <==> c in options)
    && (forall c :: c in selected ==> c in options)
    && (forall c :: c in checked ==> (checked[c] <==> c in selected))
    && NoDuplicates(selected)
  }

  /** Toggling one option, as a click does, keeps the flags and the selection in agreement. */
  lemma ToggleKeepsAgreement(options: seq<string>, checked: map<string, bool>, selected: seq<string>, c: string)
    requires Agree(options, checked, selected)
    requires c in options
    ensures c in checked
    ensures Agree(options, checked[c := !checked[c]],
                  if checked[c] then Without(selected, c) else selected + [c])
  {
    if checked[c] {
      WithoutNoDuplicates(selected, c);
    }
  }

  /** What the solution panel shows. */
  datatype Panel = Prompt | Recommendations(solutions: seq<Solutions.Solution>)

  class Configurator {
    /** `data-industry` of each industry card, in page order. */
    const cardIndustries: seq<string>
    /** `data-challenge` of each challenge checkbox, in page order. */
    const options: seq<string>
    /** The recommendation table `getSolutions` consults. */
    const table: Solutions.Table

    /** Whether each card carries the highlight ring. */
    var active: array<bool>
    /** `selectedIndustry`: null until a card is clicked. */
    var selectedIndustry: Option<string>
    /** `selectedChallenges`, in the order they were checked. */
    var selectedChallenges: seq<string>
    /** The `checked` flag of each challenge checkbox, by its challenge. */
    var checked: map<string, bool>
    /** The "Get strategy" button is enabled (not `disabled`). */
    var buttonEnabled: bool
    /** The content of the solution panel. */
    var panel: Panel

    /** `selectedIndustry && selectedChallenges.length > 0`, with JavaScript truthiness. */
    predicate Ready()
      reads this`selectedIndustry, this`selectedChallenges
    {
      selectedIndustry.Some? && selectedIndustry.value != "" && |selectedChallenges| > 0
    }

    /** What `updateSolutionContent` puts in the panel for the current selection. */
    function PanelFor(): Panel
      reads this`selectedIndustry, this`selectedChallenges
    {
      if Ready() then Recommendations(Solutions.Recommend(table, selectedIndustry.value, selectedChallenges))
      else Prompt
    }

    /** The cards and the selection agree. */
    ghost predicate CardsValid()
      reads this`active, this`selectedIndustry, active
    {
      && active.Length == |cardIndustries|
      && (forall j, k :: 0 <= j < k < active.Length && active[j] ==> !active[k])
      && (forall k :: 0 <= k < active.Length && active[k] ==> selectedIndustry == Some(cardIndustries[k]))
      && (selectedIndustry.Some? ==> exists k :: 0 <= k < active.Length && active[k])
    }

    /** The checkboxes and `selectedChallenges` agree. */
    ghost predicate ChallengesValid()
      reads this`checked, this`selectedChallenges
    {
      NoDuplicates(options) && Agree(options, checked, selectedChallenges)
    }

    /** The whole invariant: selection, checkboxes, button and panel agree. */
    ghost predicate Valid()
      reads this, active
    {
      CardsValid() && ChallengesValid() && buttonEnabled == Ready() && panel == PanelFor()
    }

    /** The page on load: nothing selected, nothing checked, the button disabled, the prompt shown. */
    constructor (cardIndustries: seq<string>, options: seq<string>, table: Solutions.Table)
      requires NoDuplicates(options)
      ensures Valid() && fresh(active)
      ensures this.cardIndustries == cardIndustries && this.options == options && this.table == table
      ensures selectedIndustry == None && selectedChallenges == []
      ensures forall c :: c in options ==> c in checked && !checked[c]
      ensures !buttonEnabled && panel == Prompt
    {
      this.cardIndustries := cardIndustries;
      this.options := options;
      this.table := table;
      active := new bool[|cardIndustries|](_ => false);
      selectedIndustry := None;
      selectedChallenges := [];
      checked := map c | c in options :: false;
      buttonEnabled := false;
      panel := Prompt;
    }

    /** `updateSolutionContent`: the prompt unless the selection is complete, else the recommendations. */
    method UpdateSolutionContent()
      requires CardsValid() && ChallengesValid()
      modifies this`panel
      ensures CardsValid() && ChallengesValid()
      ensures panel == PanelFor()
    {
      if selectedIndustry.None? || selectedIndustry.value == "" || |selectedChallenges| == 0 {
        panel := Prompt;
        return;
      }
      var solutions := Solutions.GetSolutions(table, selectedIndustry.value, selectedChallenges);
      panel := Recommendations(solutions);
    }

    /** `checkFormCompletion`: enable the button exactly when the selection is complete. */
    method CheckFormCompletion()
      requires CardsValid() && ChallengesValid() && panel == PanelFor()
      modifies this`buttonEnabled
      ensures Valid()
    {
      if selectedIndustry.Some? && selectedIndustry.value != "" && |selectedChallenges| > 0 {
        buttonEnabled := true;
      } else {
        buttonEnabled := false;
      }
    }

    /** A click on card `k`: only that card is highlighted and its industry is selected. */
    method SelectIndustry(k: nat)
      requires Valid()
      requires k < |cardIndustries|
      modifies this, active
      ensures Valid()
      ensures forall j :: 0 <= j < active.Length ==> (active[j] <==> j == k)
      ensures selectedIndustry == Some(cardIndustries[k])
      ensures selectedChallenges == old(selectedChallenges) && checked == old(checked)
      ensures active == old(active)
    {
      for j := 0 to active.Length
        modifies active
        invariant forall i :: 0 <= i < j ==> !active[i]
      {
        active[j] := false;
      }
      active[k] := true;
      selectedIndustry := Some(cardIndustries[k]);
      UpdateSolutionContent();
      CheckFormCompletion();
    }

    /**
     * A click on challenge option `k`: uncheck it and filter its challenge
     * out of the selection, or check it and append the challenge.
     */
    method ToggleChallenge(k: nat)
      requires Valid()
      requires k < |options|
      modifies this
      ensures Valid()
      ensures var c := options[k];
              && c in old(checked) && c in checked
              && checked == old(checked)[c := !old(checked)[c]]
              && selectedChallenges == if old(checked)[c] then Without(old(selectedChallenges), c)
                                       else old(selectedChallenges) + [c]
      ensures selectedIndustry == old(selectedIndustry)
      ensures active == old(active)
    {
      var challenge := options[k];
      ToggleKeepsAgreement(options, checked, selectedChallenges, challenge);
      if checked[challenge] {
        checked := checked[challenge := false];
        selectedChallenges := Without(selectedChallenges, challenge);
      } else {
        checked := checked[challenge := true];
        selectedChallenges := selectedChallenges + [challenge];
      }
      assert CardsValid() && ChallengesValid();
      UpdateSolutionContent();
      CheckFormCompletion();
    }

    /**
     * With every option one of the four challenges and a chosen industry whose
     * lists are well formed, the panel shows min(3, 2k) solutions for k
     * selected challenges.
     */
    lemma PanelShowsUpToThree()
      requires Valid() && Ready()
      requires forall c :: c in options ==> c in Solutions.Challenges
      requires selectedIndustry.value in table && Solutions.WellFormed(table[selectedIndustry.value])
      ensures panel.Recommendations?
      ensures var k := |selectedChallenges|;
              |panel.solutions| == if 2 * k <= Solutions.MaxShown then 2 * k else Solutions.MaxShown
    {
      Solutions.RecommendCount(table, selectedIndustry.value, selectedChallenges);
    }

    /** The button is enabled exactly when an industry is chosen and a challenge is selected. */
    lemma ButtonMatchesSelection()
      requires Valid()
      ensures buttonEnabled <==> selectedIndustry.Some? && selectedIndustry.value != "" && selectedChallenges != []
      ensures buttonEnabled <==> panel.Recommendations?
    {
    }
  }
}
