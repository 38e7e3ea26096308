/**
 * The assessment tool's scoring heuristic: a base score of 5, adjusted
 * for the response's length in words and for category-specific markers,
 * then clamped to [0, 10]. Every score the heuristic can produce is a
 * whole number between 3 and 9, so the clamp never changes it.
 */
module Assess {
  import opened Text

  /** The length adjustment: −2 under 10 words, +1 strictly between 50 and 500, else 0. */
  function LengthAdjustment(words: nat): (adj: int)
    ensures -2 <= adj <= 1
    ensures adj == -2 <==> words < 10
    ensures adj == 1 <==> 50 < words < 500
  {
    if words < 10 then -2 else if 50 < words && words < 500 then 1 else 0
  }

  /** Code markers: a function keyword of Python or Go, and a fenced block. */
  function CodingBonus(response: string): (b: int)
    ensures 0 <= b <= 3
    ensures b >= 2 <==> Contains(response, "def ") || Contains(response, "func ")
    ensures b % 2 == 1 <==> Contains(response, "```")
  {
    (if Contains(response, "def ") || Contains(response, "func ") then 2 else 0)
    + (if Contains(response, "```") then 1 else 0)
  }

  /** The bonus of a category: coding markers, an equation or "mph" for math, five lines for instructions. */
  function CategoryBonus(category: string, response: string): (b: int)
    ensures 0 <= b <= 3
    ensures category == "math" ==> (b == 1 <==> Contains(response, "=") || Contains(response, "mph"))
    ensures category == "instruction" ==> (b == 2 <==> |Split(TrimSpace(response), '\n')| == 5)
    ensures category != "coding" && category != "math" && category != "instruction" ==> b == 0
    ensures category == "coding" ==> b == CodingBonus(response)
    ensures category == "math" ==> b == (if Contains(response, "=") || Contains(response, "mph") then 1 else 0)
    ensures category == "instruction" ==> b == (if |Split(TrimSpace(response), '\n')| == 5 then 2 else 0)
  {
    if category == "coding" then CodingBonus(response)
    else if category == "math" then (if Contains(response, "=") || Contains(response, "mph") then 1 else 0)
    else if category == "instruction" then (if |Split(TrimSpace(response), '\n')| == 5 then 2 else 0)
    else 0
  }

  /** scoreResponse. */
  function ScoreResponse(category: string, response: string): (score: int)
    ensures 0 <= score <= 10
  {
    var raw := 5 + LengthAdjustment(|Fields(response)|) + CategoryBonus(category, response);
    if raw < 0 then 0 else if raw > 10 then 10 else raw
  }

  /**
   * The clamp never applies: the score is exactly the base plus the two
   * adjustments, and so always lies between 3 and 9.
   */
  lemma ScoreUnclamped(category: string, response: string)
    ensures ScoreResponse(category, response)
            == 5 + LengthAdjustment(|Fields(response)|) + CategoryBonus(category, response)
    ensures 3 <= ScoreResponse(category, response) <= 9
  {
    var adj := LengthAdjustment(|Fields(response)|);
    var bonus := CategoryBonus(category, response);
    assert -2 <= adj <= 1 && 0 <= bonus <= 3;
  }

  /** A category without markers is scored on length alone. */
  lemma OtherCategoriesLengthOnly(category: string, response: string)
    requires category != "coding" && category != "math" && category != "instruction"
    ensures ScoreResponse(category, response) == 5 + LengthAdjustment(|Fields(response)|)
  {
    ScoreUnclamped(category, response);
  }
}
