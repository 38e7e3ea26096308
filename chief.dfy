/**
 * Chief Justice selection for a court session: the justices' strengths
 * table with base scores, the case-type categories, the keyword selector,
 * and the rotation history that proposes the least recently chosen justice.
 */
module ChiefSelector {
  import opened Text
  import opened Selection

  /** GetJusticeStrengths, in table order, with each justice's base Chief Justice score. */
  const JusticeTable: seq<Candidate> := [
    Candidate("claude", "Claude", ["nuanced reasoning", "ethics", "balanced analysis",
                                   "constitutional interpretation", "mediating disagreements"], 10),
    Candidate("gpt", "GPT", ["structured analysis", "precedent research", "clear opinions", "systematic reasoning"], 8),
    Candidate("gemini", "Gemini", ["research", "information synthesis", "broad perspective", "fact-checking"], 7),
    Candidate("groq", "Groq (Llama)", ["quick analysis", "direct reasoning", "efficient deliberation"], 5)
  ]

  const EthicsKeywords: seq<string> := ["ethics", "rights", "freedom", "privacy", "constitutional", "liberty", "discrimination"]
  const TechnicalKeywords: seq<string> := ["procedure", "jurisdiction", "standing", "statutory", "regulation", "administrative"]
  const CaseResearchKeywords: seq<string> := ["historical", "precedent", "comparative", "international", "analysis"]

  /** getCaseTypeBonus's three categories: ethics +5 claude, technical +4 gpt, research +3 gemini. */
  const CaseCategories: seq<Category> := [
    Category(EthicsKeywords, "claude", 5),
    Category(TechnicalKeywords, "gpt", 4),
    Category(CaseResearchKeywords, "gemini", 3)
  ]

  /** The bonus a case type gives a justice. */
  function CaseBonus(resolution: string, aiId: string): nat
  {
    if aiId == "claude" && Hit(resolution, EthicsKeywords) then 5
    else if aiId == "gpt" && Hit(resolution, TechnicalKeywords) then 4
    else if aiId == "gemini" && Hit(resolution, CaseResearchKeywords) then 3
    else 0
  }

  /**
   * getCaseTypeBonus: each justice gains only from its own category, and
   * groq and justices outside the table never gain.
   */
  lemma CaseTypeBonus(resolution: string, aiId: string)
    ensures CategoryBonus(resolution, CaseCategories, aiId) == CaseBonus(resolution, aiId)
    ensures aiId != "claude" && aiId != "gpt" && aiId != "gemini" ==> CategoryBonus(resolution, CaseCategories, aiId) == 0
  {
    var c := CaseCategories;
    assert c[..1][..0] == [];
    assert c[..2][..1] == c[..1];
    assert c[..3] == c;
    assert c[..1][0] == Category(EthicsKeywords, "claude", 5);
    assert c[..2][1] == Category(TechnicalKeywords, "gpt", 4);
    assert c[2] == Category(CaseResearchKeywords, "gemini", 3);
    var b1 := CategoryBonus(resolution, c[..1], aiId);
    assert b1 == CategoryBonus(resolution, c[..1][..0], aiId)
                 + (if c[..1][0].favoured == aiId && Hit(resolution, c[..1][0].keywords) then c[..1][0].points else 0);
    var b2 := CategoryBonus(resolution, c[..2], aiId);
    assert b2 == b1 + if aiId == "gpt" && Hit(resolution, TechnicalKeywords) then 4 else 0;
    assert CategoryBonus(resolution, c, aiId) == b2 + if aiId == "gemini" && Hit(resolution, CaseResearchKeywords) then 3 else 0;
  }

  /** Every justice table entry is named, and claude is among them. */
  lemma JusticeTableShape()
    ensures NamedEntries(JusticeTable)
    ensures JusticeTable[0].aiId == "claude"
  {
  }

  /** Select: the best-scoring table justice on the panel, else the first panel member. */
  method Select(resolution: string, justices: seq<string>) returns (cj: string)
    ensures cj == Choice(ToLower(resolution), JusticeTable, CaseCategories, justices, "claude")
    ensures |justices| > 0 ==> cj in justices
    ensures |justices| == 0 ==> cj == ""
    ensures Available(JusticeTable, justices) ==> exists i | 0 <= i < |JusticeTable| :: JusticeTable[i].aiId == cj
    ensures !Available(JusticeTable, justices) && |justices| > 0 ==> cj == justices[0]
  {
    cj := Choose(ToLower(resolution), JusticeTable, CaseCategories, justices, "claude");
    JusticeTableShape();
    ChoiceInRoster(ToLower(resolution), JusticeTable, CaseCategories, justices, "claude");
    ChoiceOutsideTable(ToLower(resolution), JusticeTable, CaseCategories, justices, "claude");
  }

  /** SelectWithAnalysis: the selection and a line naming at most three of its strengths. */
  method SelectWithAnalysis(resolution: string, justices: seq<string>) returns (cj: string, analysis: string)
    ensures cj == Choice(ToLower(resolution), JusticeTable, CaseCategories, justices, "claude")
    ensures analysis == Analysis("Chief Justice", EntryOf(JusticeTable, cj))
  {
    cj := Select(resolution, justices);
    var entry := FindEntry(JusticeTable, cj);
    analysis := Analysis("Chief Justice", entry);
  }

  /** How many times a justice occurs in a run of selections. */
  function Occurrences(window: seq<string>, j: string): nat
  {
    multiset(window)[j]
  }

  /** The selections the rotation looks at: the last ten, or all when fewer. */
  function Recent(selections: seq<string>): (r: seq<string>)
    ensures |r| <= 10 && |r| <= |selections| && r == selections[|selections| - |r|..]
    ensures |selections| <= 10 ==> r == selections
  {
    if |selections| <= 10 then selections else selections[|selections| - 10..]
  }

  /** The counting loops of GetRotationCandidate: every panel justice, with its recent selections. */
  method CountRecent(justices: seq<string>, recent: seq<string>) returns (counts: map<string, nat>)
    ensures counts.Keys == set j | j in justices
    ensures forall j | j in counts :: counts[j] == Occurrences(recent, j)
  {
    counts := map[];
    var k := 0;
    while k < |justices|
      invariant 0 <= k <= |justices|
      invariant counts.Keys == set j | j in justices[..k]
      invariant forall j | j in counts :: counts[j] == 0
    {
      counts := counts[justices[k] := 0];
      k := k + 1;
      assert justices[..k] == justices[..k - 1] + [justices[k - 1]];
    }
    assert justices[..k] == justices;
    var i := 0;
    while i < |recent|
      invariant 0 <= i <= |recent|
      invariant counts.Keys == set j | j in justices
      invariant forall j | j in counts :: counts[j] == Occurrences(recent[..i], j)
    {
      assert recent[..i + 1] == recent[..i] + [recent[i]];
      if recent[i] in counts {
        counts := counts[recent[i] := counts[recent[i]] + 1];
      }
      i := i + 1;
    }
    assert recent[..i] == recent;
  }

  /** The minimum scan over the counts map, visiting keys in no particular order. */
  method LeastCounted(counts: map<string, nat>) returns (candidate: string)
    ensures |counts| > 0 ==> candidate in counts && forall j | j in counts :: counts[candidate] <= counts[j]
    ensures |counts| == 0 ==> candidate == ""
  {
    var minCount := -1;
    candidate := "";
    var unvisited := counts.Keys;
    while unvisited != {}
      invariant unvisited <= counts.Keys
      invariant minCount == -1 <==> unvisited == counts.Keys
      invariant minCount == -1 ==> candidate == ""
      invariant minCount != -1 ==> candidate in counts && minCount == counts[candidate]
      invariant forall j | j in counts.Keys - unvisited :: minCount <= counts[j]
      decreases unvisited
    {
      var j :| j in unvisited;
      if minCount == -1 || counts[j] < minCount {
        minCount := counts[j];
        candidate := j;
      }
      unvisited := unvisited - {j};
    }
    if |counts| > 0 {
      assert counts.Keys != {} by {
        var j :| j in counts.Keys;
      }
    }
  }

  /** PreviousCJHistory: every Chief Justice chosen so far, oldest first. */
  class CJHistory {
    var selections: seq<string>

    constructor ()
      ensures selections == []
    {
      selections := [];
    }

    /** Add: the selection goes at the end. */
    method Add(cj: string)
      modifies this
      ensures selections == old(selections) + [cj]
    {
      selections := selections + [cj];
    }

    /**
     * GetRotationCandidate: with no history the first justice (or ""); with
     * history a panel justice chosen least often among the recent
     * selections, ties broken in no particular order (Go walks a
     * map), or "" for an empty panel.
     */
    method RotationCandidate(justices: seq<string>) returns (candidate: string)
      ensures |selections| == 0 ==> candidate == if |justices| > 0 then justices[0] else ""
      ensures |selections| > 0 && |justices| == 0 ==> candidate == ""
      ensures |selections| > 0 && |justices| > 0 ==>
                candidate in justices
                && forall j | j in justices :: Occurrences(Recent(selections), candidate) <= Occurrences(Recent(selections), j)
    {
      if |selections| == 0 {
        if |justices| > 0 {
          return justices[0];
        }
        return "";
      }
      var counts := CountRecent(justices, Recent(selections));
      candidate := LeastCounted(counts);
      if |justices| > 0 {
        assert justices[0] in counts;
      }
    }
  }
}
