/**
 * Project-manager selection for a team session: the strengths table of the
 * four known models, the task-type categories, and the selector that scores
 * the lower-cased task without calling any model.
 */
module PMSelector {
  import opened Text
  import opened Selection

  /** GetPMStrengths, in table order; every PM entry has base score 0. */
  const PMTable: seq<Candidate> := [
    Candidate("claude", "Claude", ["nuanced reasoning", "writing", "analysis", "ethics", "explanation",
                                   "documentation", "architecture", "design"], 0),
    Candidate("gpt", "GPT", ["coding", "implementation", "debugging", "api design", "system design",
                             "data analysis", "algorithms"], 0),
    Candidate("gemini", "Gemini", ["research", "multimodal", "information synthesis", "fact checking",
                                   "summarization", "translation"], 0),
    Candidate("groq", "Groq (Llama)", ["speed", "quick iteration", "brainstorming", "rapid prototyping"], 0)
  ]

  const CodingKeywords: seq<string> := ["code", "implement", "build", "develop", "program", "function", "api", "debug", "fix"]
  const WritingKeywords: seq<string> := ["write", "document", "explain", "analyze", "review", "design", "architect", "plan"]
  const ResearchKeywords: seq<string> := ["research", "find", "search", "compare", "investigate", "summarize"]
  const QuickKeywords: seq<string> := ["quick", "fast", "simple", "prototype", "brainstorm", "iterate"]

  /** getTaskTypeBonus's four categories, each worth 3 to one model. */
  const TaskCategories: seq<Category> := [
    Category(CodingKeywords, "gpt", 3),
    Category(WritingKeywords, "claude", 3),
    Category(ResearchKeywords, "gemini", 3),
    Category(QuickKeywords, "groq", 3)
  ]

  /** The model a task type favours, if the model has one. */
  predicate Favoured(task: string, aiId: string)
  {
    (aiId == "gpt" && Hit(task, CodingKeywords))
    || (aiId == "claude" && Hit(task, WritingKeywords))
    || (aiId == "gemini" && Hit(task, ResearchKeywords))
    || (aiId == "groq" && Hit(task, QuickKeywords))
  }

  /**
   * getTaskTypeBonus: 3 when the model's own category has a keyword in the
   * task, else 0; other categories never add to it.
   */
  lemma TaskTypeBonus(task: string, aiId: string)
    ensures var b := CategoryBonus(task, TaskCategories, aiId);
            (b == 0 || b == 3) && (b == 3 <==> Favoured(task, aiId))
  {
    var c := TaskCategories;
    assert c[..1][..0] == [];
    assert c[..2][..1] == c[..1];
    assert c[..3][..2] == c[..2];
    assert c[..4] == c;
    assert c[..1][0] == Category(CodingKeywords, "gpt", 3);
    assert c[..2][1] == Category(WritingKeywords, "claude", 3);
    assert c[..3][2] == Category(ResearchKeywords, "gemini", 3);
    assert c[3] == Category(QuickKeywords, "groq", 3);
    var b1 := CategoryBonus(task, c[..1], aiId);
    assert b1 == CategoryBonus(task, c[..1][..0], aiId)
                 + (if c[..1][0].favoured == aiId && Hit(task, c[..1][0].keywords) then c[..1][0].points else 0);
    assert b1 == if aiId == "gpt" && Hit(task, CodingKeywords) then 3 else 0;
    var b2 := CategoryBonus(task, c[..2], aiId);
    assert b2 == b1 + if aiId == "claude" && Hit(task, WritingKeywords) then 3 else 0;
    var b3 := CategoryBonus(task, c[..3], aiId);
    assert b3 == b2 + if aiId == "gemini" && Hit(task, ResearchKeywords) then 3 else 0;
    assert CategoryBonus(task, c, aiId) == b3 + if aiId == "groq" && Hit(task, QuickKeywords) then 3 else 0;
  }

  /** Every PM table entry is named, and claude is among them. */
  lemma PMTableShape()
    ensures NamedEntries(PMTable)
    ensures PMTable[0].aiId == "claude"
  {
  }

  /** Select: the best-scoring table model on the roster; never a model call. */
  method Select(task: string, members: seq<string>) returns (pm: string)
    ensures pm == Choice(ToLower(task), PMTable, TaskCategories, members, "claude")
    ensures |members| > 0 ==> pm in members
    ensures |members| == 0 ==> pm == ""
    ensures Available(PMTable, members) ==> exists i | 0 <= i < |PMTable| :: PMTable[i].aiId == pm
    ensures !Available(PMTable, members) && |members| > 0 ==> pm == members[0]
  {
    pm := Choose(ToLower(task), PMTable, TaskCategories, members, "claude");
    PMTableShape();
    ChoiceInRoster(ToLower(task), PMTable, TaskCategories, members, "claude");
    ChoiceOutsideTable(ToLower(task), PMTable, TaskCategories, members, "claude");
  }

  /**
   * SelectWithAnalysis: the selection and a line naming the PM and at most
   * its first three strengths, none for a PM without a table entry.
   */
  method SelectWithAnalysis(task: string, members: seq<string>) returns (pm: string, analysis: string)
    ensures pm == Choice(ToLower(task), PMTable, TaskCategories, members, "claude")
    ensures analysis == Analysis("PM", EntryOf(PMTable, pm))
  {
    pm := Select(task, members);
    var entry := FindEntry(PMTable, pm);
    analysis := Analysis("PM", entry);
  }
}
