/**
 * The debate setup form: the values it starts from, the checks it puts on
 * what is typed and selected, the summary it shows before the debate
 * starts, and the options it hands to the debate screen. Drawing and
 * running the form are left out.
 */
module SetupForms {
  import opened Results
  import opened Text
  import Config
  import DebateTui

  /**
   * truncate: a string that fits is kept; otherwise the result is exactly
   * `maxLen` bytes, a bare prefix when `maxLen` is below 4, else a prefix
   * closed by "...".
   */
  function Truncate(s: string, maxLen: nat): (r: string)
    ensures |r| == if |s| <= maxLen then |s| else maxLen
    ensures |s| <= maxLen ==> r == s
    ensures |s| > maxLen && maxLen < 4 ==> r == s[..maxLen]
    ensures |s| > maxLen && maxLen >= 4 ==> r[..maxLen - 3] == s[..maxLen - 3] && r[maxLen - 3..] == "..."
  {
    if |s| <= maxLen then s
    else if maxLen < 4 then s[..maxLen]
    else s[..maxLen - 3] + "..."
  }

  /** Truncating again to the same length changes nothing. */
  lemma TruncateIdempotent(s: string, maxLen: nat)
    ensures Truncate(Truncate(s, maxLen), maxLen) == Truncate(s, maxLen)
  {
  }

  /** Every byte kept from the string is in its place; an ellipsis, if any, is the only thing added. */
  lemma TruncateKeepsPrefix(s: string, maxLen: nat)
    ensures var r := Truncate(s, maxLen);
            var kept := if |s| > maxLen && maxLen >= 4 then maxLen - 3 else |r|;
            kept <= |s| && r[..kept] == s[..kept] && (kept < |r| ==> r[kept..] == "...")
  {
  }

  /** The topic validators of the setup and quick forms: at least 5 bytes. */
  function TopicError(topic: string): (r: Option<string>)
    ensures r.None? <==> |topic| >= 5
    ensures r.Some? ==> r.value == "topic must be at least 5 characters"
  {
    if |topic| < 5 then Some("topic must be at least 5 characters") else None
  }

  /** The setup form's member validator: at least 2 members. */
  function CouncilError(members: seq<string>): (r: Option<string>)
    ensures r.None? <==> |members| >= 2
    ensures r.Some? ==> r.value == "select at least 2 council members"
  {
    if |members| < 2 then Some("select at least 2 council members") else None
  }

  /** The member-selection form's validator: between 2 and 6 members. */
  function SelectionError(members: seq<string>): (r: Option<string>)
    ensures r.None? <==> 2 <= |members| <= 6
    ensures |members| < 2 ==> r == Some("select at least 2 council members")
    ensures |members| > 6 ==> r == Some("maximum 6 council members")
  {
    if |members| < 2 then Some("select at least 2 council members")
    else if |members| > 6 then Some("maximum 6 council members")
    else None
  }

  /**
   * The member-selection form is the stricter of the two: what it accepts
   * the setup form accepts, and both give the same message for too few.
   */
  lemma SelectionStricter(members: seq<string>)
    ensures SelectionError(members).None? ==> CouncilError(members).None?
    ensures |members| < 2 ==> SelectionError(members) == CouncilError(members)
  {
  }

  /** The confirmation text for the given selections. */
  function Summary(topic: string, mode: string, rounds: int, memberCount: nat): string
  {
    "Topic: " + Truncate(topic, 40) + "\nMode: " + mode + "\nRounds: " + IntToString(rounds)
    + "\nMembers: " + NatToString(memberCount) + " AIs"
  }

  /** A summary's topic line holds at most 40 bytes of the topic, so a long topic cannot push the rest off the line. */
  lemma SummaryTopicBound(topic: string, mode: string, rounds: int, memberCount: nat)
    ensures var t := Truncate(topic, 40);
            |t| <= 40 && HasPrefix(Summary(topic, mode, rounds, memberCount), "Topic: " + t + "\nMode: " + mode + "\n")
  {
    var t := Truncate(topic, 40);
    var head := "Topic: " + t + "\nMode: " + mode + "\n";
    var r, m := IntToString(rounds), NatToString(memberCount);
    var s := Summary(topic, mode, rounds, memberCount);
    assert s == head + ("Rounds: " + r + "\nMembers: " + m + " AIs");
  }

  /** tui.SetupForm */
  class SetupForm {
    var topic: string
    var mode: string
    var rounds: int
    var members: seq<string>
    const config: Config.AppConfig
    var availableModels: seq<string>

    /**
     * NewSetupForm: no topic, the collaborative mode, the configured round
     * count and council, and every configured model ID once, in map order.
     */
    constructor (cfg: Config.AppConfig)
      ensures topic == "" && mode == "collaborative" && config == cfg
      ensures rounds == cfg.settings.debate.defaultRounds && members == cfg.CouncilMembers()
      ensures |availableModels| == |cfg.models.Keys|
      ensures forall id :: id in availableModels <==> id in cfg.models
      ensures forall i, j | 0 <= i < j < |availableModels| :: availableModels[i] != availableModels[j]
    {
      var ids: seq<string> := [];
      var left := cfg.models.Keys;
      while left != {}
        invariant left <= cfg.models.Keys
        invariant |ids| + |left| == |cfg.models.Keys|
        invariant forall id :: id in ids <==> id in cfg.models && id !in left
        invariant forall i, j | 0 <= i < j < |ids| :: ids[i] != ids[j]
        decreases |left|
      {
        var id :| id in left;
        ids := ids + [id];
        left := left - {id};
      }
      topic := "";
      mode := "collaborative";
      rounds := cfg.settings.debate.defaultRounds;
      members := cfg.CouncilMembers();
      config := cfg;
      availableModels := ids;
    }

    /**
     * getSummary: with no member selected the configured council is
     * counted instead, which is the three default AIs when none is
     * configured.
     */
    function GetSummary(): (r: string)
      reads this, config
      ensures |members| > 0 ==> r == Summary(topic, mode, rounds, |members|)
      ensures |members| == 0 && |config.defaultCouncil| > 0 ==> r == Summary(topic, mode, rounds, |config.defaultCouncil|)
      ensures |members| == 0 && |config.defaultCouncil| == 0 ==> r == Summary(topic, mode, rounds, 3)
    {
      var count := if |members| == 0 then |config.CouncilMembers()| else |members|;
      Summary(topic, mode, rounds, count)
    }

    /** GetOptions: the form's values and the output directory, as the debate screen's options. */
    function GetOptions(outputDir: string): (o: DebateTui.Options)
      reads this
      ensures o.topic == topic && o.mode == mode && o.rounds == rounds && o.members == members
      ensures o.outputDir == outputDir
    {
      DebateTui.Options(topic, mode, rounds, members, outputDir)
    }
  }
}
