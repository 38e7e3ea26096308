/**
 * Keyword-scored selection of a leader from a roster, shared by the
 * project-manager selector and the Chief Justice selector. Each known
 * candidate has a table entry; a candidate's score for a lower-cased text is
 * its base score, plus the bonus of every category whose keywords hit the
 * text and which favours it, plus 2 for each strength phrase found whole in
 * the text and 1 for each word of a phrase found in it. Table entries are
 * visited in order and a later one wins only with a strictly higher score.
 */
module Selection {
  import opened Text

  datatype Candidate = Candidate(aiId: string, displayName: string, strengths: seq<string>, baseScore: nat)

  /** A task or case category: any of its keywords favours one candidate by some points. */
  datatype Category = Category(keywords: seq<string>, favoured: string, points: nat)

  /** Some keyword of the list occurs in the text. */
  predicate Hit(text: string, keywords: seq<string>)
  {
    exists k | 0 <= k < |keywords| :: Contains(text, keywords[k])
  }

  /** One point per listed word that occurs in the text. */
  function WordMatches(text: string, words: seq<string>): (r: nat)
    ensures r <= |words|
  {
    if |words| == 0 then 0
    else WordMatches(text, words[..|words| - 1]) + (if Contains(text, words[|words| - 1]) then 1 else 0)
  }

  /** 2 if the phrase occurs whole, plus 1 per word of it that occurs. */
  function PhraseScore(text: string, phrase: string): nat
  {
    (if Contains(text, phrase) then 2 else 0) + WordMatches(text, Fields(phrase))
  }

  function StrengthScore(text: string, strengths: seq<string>): nat
  {
    if |strengths| == 0 then 0
    else StrengthScore(text, strengths[..|strengths| - 1]) + PhraseScore(text, strengths[|strengths| - 1])
  }

  /** The points of every category that hits the text and favours the candidate. */
  function CategoryBonus(text: string, cats: seq<Category>, aiId: string): nat
  {
    if |cats| == 0 then 0
    else
      var c := cats[|cats| - 1];
      CategoryBonus(text, cats[..|cats| - 1], aiId) + (if c.favoured == aiId && Hit(text, c.keywords) then c.points else 0)
  }

  function Score(text: string, cand: Candidate, cats: seq<Category>): nat
  {
    cand.baseScore + CategoryBonus(text, cats, cand.aiId) + StrengthScore(text, cand.strengths)
  }

  /** The running best (id, score) after visiting the table entries in order; ("", -1) before any. */
  function Leader(text: string, table: seq<Candidate>, cats: seq<Category>, members: seq<string>): (int, string)
  {
    if |table| == 0 then (-1, "")
    else
      var (bestScore, best) := Leader(text, table[..|table| - 1], cats, members);
      var c := table[|table| - 1];
      var s := Score(text, c, cats);
      if c.aiId in members && s > bestScore then (s, c.aiId) else (bestScore, best)
  }

  /**
   * The selection: the leader; with no leader, the fallback ID when it is in
   * the roster, else the first roster member, else "".
   */
  function Choice(text: string, table: seq<Candidate>, cats: seq<Category>, members: seq<string>, fallback: string): string
  {
    var (_, best) := Leader(text, table, cats, members);
    if best != "" then best
    else if fallback in members then fallback
    else if |members| > 0 then members[0]
    else ""
  }

  predicate Available(table: seq<Candidate>, members: seq<string>)
  {
    exists i | 0 <= i < |table| :: table[i].aiId in members
  }

  predicate NamedEntries(table: seq<Candidate>)
  {
    forall i | 0 <= i < |table| :: table[i].aiId != ""
  }

  /** The first table entry with the given ID; the zero entry (no name, no strengths) when there is none. */
  function EntryOf(table: seq<Candidate>, aiId: string): (r: Candidate)
    ensures r.aiId == aiId ==> r.displayName == "" || exists i | 0 <= i < |table| :: table[i] == r
    ensures (forall i | 0 <= i < |table| :: table[i].aiId != aiId) ==> r == Candidate("", "", [], 0)
  {
    if |table| == 0 then Candidate("", "", [], 0)
    else if table[0].aiId == aiId then table[0]
    else EntryOf(table[1..], aiId)
  }

  /** The strengths an analysis line lists: the first three, or all when there are fewer. */
  function Shown(entry: Candidate): (r: seq<string>)
    ensures |r| <= 3 && |r| <= |entry.strengths| && r == entry.strengths[..|r|]
    ensures |r| < 3 ==> r == entry.strengths
  {
    if |entry.strengths| < 3 then entry.strengths else entry.strengths[..3]
  }

  /** The analysis line of SelectWithAnalysis, for a role such as "PM" or "Chief Justice". */
  function Analysis(role: string, entry: Candidate): string
  {
    "Selected " + entry.displayName + " as " + role + " based on strengths in: " + Join(Shown(entry), ", ")
  }

  // ---------------------------------------------------------------------
  // The selector's loops

  /** The lookup loop of SelectWithAnalysis: stops at the first entry with the ID. */
  method FindEntry(table: seq<Candidate>, aiId: string) returns (entry: Candidate)
    ensures entry == EntryOf(table, aiId)
  {
    entry := Candidate("", "", [], 0);
    var i := 0;
    while i < |table|
      invariant 0 <= i <= |table|
      invariant EntryOf(table, aiId) == EntryOf(table[i..], aiId)
    {
      if table[i].aiId == aiId {
        entry := table[i];
        return;
      }
      assert table[i..][1..] == table[i + 1..];
      i := i + 1;
    }
  }

  /** A keyword loop that stops at the first keyword found. */
  method FirstHit(text: string, keywords: seq<string>) returns (hit: bool)
    ensures hit <==> Hit(text, keywords)
  {
    hit := false;
    var i := 0;
    while i < |keywords|
      invariant 0 <= i <= |keywords|
      invariant forall k | 0 <= k < i :: !Contains(text, keywords[k])
    {
      if Contains(text, keywords[i]) {
        hit := true;
        break;
      }
      i := i + 1;
    }
  }

  method IsMember(aiId: string, members: seq<string>) returns (found: bool)
    ensures found <==> aiId in members
  {
    found := false;
    var i := 0;
    while i < |members|
      invariant 0 <= i <= |members|
      invariant aiId !in members[..i]
    {
      if members[i] == aiId {
        found := true;
        break;
      }
      i := i + 1;
      assert members[..i] == members[..i - 1] + [members[i - 1]];
    }
    if !found {
      assert members[..i] == members;
    }
  }

  /** The strength-phrase part of a score: the loop over phrases and their words. */
  method StrengthPoints(text: string, strengths: seq<string>) returns (score: nat)
    ensures score == StrengthScore(text, strengths)
  {
    score := 0;
    var i := 0;
    while i < |strengths|
      invariant 0 <= i <= |strengths|
      invariant score == StrengthScore(text, strengths[..i])
    {
      var phrase := strengths[i];
      var words := Fields(phrase);
      var base := score;
      if Contains(text, phrase) {
        score := score + 2;
      }
      var j := 0;
      while j < |words|
        invariant 0 <= j <= |words|
        invariant score == base + (if Contains(text, phrase) then 2 else 0) + WordMatches(text, words[..j])
      {
        assert words[..j + 1][..j] == words[..j];
        if Contains(text, words[j]) {
          score := score + 1;
        }
        j := j + 1;
      }
      assert words[..j] == words;
      assert strengths[..i + 1][..i] == strengths[..i];
      i := i + 1;
    }
    assert strengths[..i] == strengths;
  }

  /** The category bonus: one first-hit keyword loop per category. */
  method Bonus(text: string, cats: seq<Category>, aiId: string) returns (bonus: nat)
    ensures bonus == CategoryBonus(text, cats, aiId)
  {
    bonus := 0;
    var i := 0;
    while i < |cats|
      invariant 0 <= i <= |cats|
      invariant bonus == CategoryBonus(text, cats[..i], aiId)
    {
      var hit := FirstHit(text, cats[i].keywords);
      if hit && cats[i].favoured == aiId {
        bonus := bonus + cats[i].points;
      }
      assert cats[..i + 1][..i] == cats[..i];
      i := i + 1;
    }
    assert cats[..i] == cats;
  }

  /** Select: visit the table, keep the strictly best available entry, then fall back. */
  method Choose(text: string, table: seq<Candidate>, cats: seq<Category>, members: seq<string>, fallback: string)
    returns (choice: string)
    ensures choice == Choice(text, table, cats, members, fallback)
  {
    var best := "";
    var bestScore: int := -1;
    var i := 0;
    while i < |table|
      invariant 0 <= i <= |table|
      invariant (bestScore, best) == Leader(text, table[..i], cats, members)
    {
      assert table[..i + 1][..i] == table[..i];
      var c := table[i];
      var available := IsMember(c.aiId, members);
      if available {
        var score: int := c.baseScore;
        var bonus := Bonus(text, cats, c.aiId);
        var points := StrengthPoints(text, c.strengths);
        score := score + bonus + points;
        if score > bestScore {
          bestScore := score;
          best := c.aiId;
        }
      }
      i := i + 1;
    }
    assert table[..i] == table;
    if best == "" {
      var hasFallback := IsMember(fallback, members);
      if hasFallback {
        return fallback;
      }
      if |members| > 0 {
        return members[0];
      }
    }
    return best;
  }

  // ---------------------------------------------------------------------
  // What the selection guarantees

  /**
   * With named entries, the leader is empty iff no table entry is in the
   * roster; otherwise it is an available entry whose score is the highest,
   * and every earlier available entry scores strictly less (ties go to the
   * earliest entry).
   */
  lemma {:induction false} LeaderIsBest(text: string, table: seq<Candidate>, cats: seq<Category>, members: seq<string>)
    requires NamedEntries(table)
    ensures var (bestScore, best) := Leader(text, table, cats, members);
            (best == "" <==> !Available(table, members))
            && (best == "" ==> bestScore == -1)
            && (best != "" ==>
                  best in members
                  && (forall j | 0 <= j < |table| && table[j].aiId in members :: Score(text, table[j], cats) <= bestScore)
                  && exists i | 0 <= i < |table| ::
                       table[i].aiId == best && Score(text, table[i], cats) == bestScore
                       && forall j | 0 <= j < i && table[j].aiId in members :: Score(text, table[j], cats) < bestScore)
  {
    if |table| > 0 {
      var pre := table[..|table| - 1];
      LeaderIsBest(text, pre, cats, members);
      var (bestScore, best) := Leader(text, pre, cats, members);
      var c := table[|table| - 1];
      if best == "" && c.aiId !in members {
        assert !Available(table, members) by {
          forall i | 0 <= i < |table| ensures table[i].aiId !in members {
            if i < |pre| {
              assert table[i] == pre[i];
            }
          }
        }
      }
      if best != "" {
        var i :| 0 <= i < |pre| && pre[i].aiId == best && Score(text, pre[i], cats) == bestScore
                 && forall j | 0 <= j < i && pre[j].aiId in members :: Score(text, pre[j], cats) < bestScore;
        assert table[i] == pre[i];
        assert forall j | 0 <= j < i :: table[j] == pre[j];
      }
      assert forall j | 0 <= j < |pre| :: table[j] == pre[j];
      if c.aiId in members {
        assert Available(table, members);
      }
    }
  }

  /**
   * The choice is a roster member whenever the roster is non-empty, and ""
   * for an empty roster.
   */
  lemma ChoiceInRoster(text: string, table: seq<Candidate>, cats: seq<Category>, members: seq<string>, fallback: string)
    requires NamedEntries(table)
    ensures |members| > 0 ==> Choice(text, table, cats, members, fallback) in members
    ensures |members| == 0 ==> Choice(text, table, cats, members, fallback) == ""
  {
    LeaderIsBest(text, table, cats, members);
  }

  /**
   * A roster member without a table entry is chosen only when no table entry
   * is in the roster; when the fallback has a table entry, it is then the
   * first roster member that is chosen.
   */
  lemma ChoiceOutsideTable(text: string, table: seq<Candidate>, cats: seq<Category>, members: seq<string>, fallback: string)
    requires NamedEntries(table)
    requires exists i | 0 <= i < |table| :: table[i].aiId == fallback
    ensures Available(table, members) ==>
              exists i | 0 <= i < |table| :: table[i].aiId == Choice(text, table, cats, members, fallback)
    ensures !Available(table, members) ==>
              Choice(text, table, cats, members, fallback) == if |members| > 0 then members[0] else ""
  {
    LeaderIsBest(text, table, cats, members);
    if !Available(table, members) {
      assert fallback !in members;
    }
  }
}
