/**
 * Approval checkpoints and milestones of a team session. Checkpoints and
 * milestones are plain records copied into their manager's list; the
 * manager and the tracker are objects whose lists grow by appending.
 * Timestamps are clock readings passed in by the caller.
 */
module Checkpoints {
  import opened Results
  import opened TeamTypes

  const PlanApproval: string := "plan_approval"
  const MilestoneKind: string := "milestone"
  const ReviewKind: string := "review"
  const DeliveryKind: string := "delivery"

  datatype Checkpoint = Checkpoint(
    id: string,
    kind: string,
    description: string,
    phase: Phase,
    createdAt: int,
    approved: bool,
    approvedAt: Option<int>,
    notes: string)

  /** NewCheckpoint: not yet approved, no approval time, no notes. */
  function NewCheckpoint(id: string, kind: string, description: string, phase: Phase, now: int): (c: Checkpoint)
    ensures !c.approved && c.approvedAt == None && c.notes == ""
    ensures c.kind == kind && c.description == description && c.phase == phase && c.createdAt == now && c.id == id
  {
    Checkpoint(id, kind, description, phase, now, false, None, "")
  }

  /** Approve: approved at `now`, with the given notes; nothing else changes. */
  function Approve(c: Checkpoint, notes: string, now: int): (r: Checkpoint)
    ensures r.approved && r.approvedAt == Some(now) && r.notes == notes
    ensures r.(approved := c.approved, approvedAt := c.approvedAt, notes := c.notes) == c
  {
    c.(approved := true, approvedAt := Some(now), notes := notes)
  }

  /** Reject: not approved, with the given notes; an earlier approval time stays. */
  function Reject(c: Checkpoint, notes: string): (r: Checkpoint)
    ensures !r.approved && r.notes == notes && r.approvedAt == c.approvedAt
    ensures r.(approved := c.approved, notes := c.notes) == c
  {
    c.(approved := false, notes := notes)
  }

  /** Rejecting an approved checkpoint keeps the time of that approval. */
  lemma RejectAfterApprove(c: Checkpoint, n1: string, n2: string, now: int)
    ensures Reject(Approve(c, n1, now), n2).approvedAt == Some(now)
    ensures !Reject(Approve(c, n1, now), n2).approved
  {
  }

  /** RequiresApproval's table: none never, major for plan approval and delivery, all and unknown levels always. */
  function NeedsApproval(level: string, kind: string): (r: bool)
    ensures level == CheckpointNone ==> !r
    ensures level == CheckpointMajor ==> (r <==> kind == PlanApproval || kind == DeliveryKind)
    ensures level != CheckpointNone && level != CheckpointMajor ==> r
  {
    if level == CheckpointNone then false
    else if level == CheckpointMajor then kind == PlanApproval || kind == DeliveryKind
    else true
  }

  /** The unapproved checkpoints, in order. */
  function Unapproved(cs: seq<Checkpoint>): (r: seq<Checkpoint>)
    ensures |r| <= |cs|
    ensures forall c | c in r :: !c.approved && c in cs
  {
    if |cs| == 0 then []
    else Unapproved(cs[..|cs| - 1]) + (if cs[|cs| - 1].approved then [] else [cs[|cs| - 1]])
  }

  /** Every unapproved checkpoint of the list is among the pending ones. */
  lemma {:induction false} UnapprovedComplete(cs: seq<Checkpoint>)
    ensures forall c | c in cs && !c.approved :: c in Unapproved(cs)
  {
    if |cs| > 0 {
      UnapprovedComplete(cs[..|cs| - 1]);
      assert forall c | c in cs :: c in cs[..|cs| - 1] || c == cs[|cs| - 1];
    }
  }

  class CheckpointManager {
    var checkpoints: seq<Checkpoint>
    const level: string
    const saveDir: string

    constructor (level: string, saveDir: string)
      ensures checkpoints == [] && this.level == level && this.saveDir == saveDir
    {
      checkpoints := [];
      this.level := level;
      this.saveDir := saveDir;
    }

    /** Add: the checkpoint goes at the end. */
    method Add(c: Checkpoint)
      modifies this
      ensures checkpoints == old(checkpoints) + [c]
    {
      checkpoints := checkpoints + [c];
    }

    function RequiresApproval(kind: string): bool
      reads this
    {
      NeedsApproval(level, kind)
    }

    /** GetPending: the filter loop over the list. */
    method GetPending() returns (pending: seq<Checkpoint>)
      ensures pending == Unapproved(checkpoints)
    {
      pending := [];
      var i := 0;
      while i < |checkpoints|
        invariant 0 <= i <= |checkpoints|
        invariant pending == Unapproved(checkpoints[..i])
      {
        assert checkpoints[..i + 1][..i] == checkpoints[..i];
        if !checkpoints[i].approved {
          pending := pending + [checkpoints[i]];
        }
        i := i + 1;
      }
      assert checkpoints[..i] == checkpoints;
    }

    function GetAll(): (r: seq<Checkpoint>)
      reads this
      ensures r == checkpoints
    {
      checkpoints
    }
  }

  datatype Milestone = Milestone(
    id: string,
    name: string,
    description: string,
    phase: Phase,
    createdAt: int,
    completed: bool,
    completedAt: Option<int>,
    artifacts: seq<string>)

  /** NewMilestone: not completed, no completion time, no artifacts. */
  function NewMilestone(id: string, name: string, description: string, phase: Phase, now: int): (m: Milestone)
    ensures !m.completed && m.completedAt == None && m.artifacts == []
    ensures m.name == name && m.description == description && m.phase == phase && m.createdAt == now && m.id == id
  {
    Milestone(id, name, description, phase, now, false, None, [])
  }

  /** Complete: completed at `now` with the given artifacts; nothing else changes. */
  function Complete(m: Milestone, artifacts: seq<string>, now: int): (r: Milestone)
    ensures r.completed && r.completedAt == Some(now) && r.artifacts == artifacts
    ensures r.(completed := m.completed, completedAt := m.completedAt, artifacts := m.artifacts) == m
  {
    m.(completed := true, completedAt := Some(now), artifacts := artifacts)
  }

  /** The milestones with the given completion state, in order. */
  function WithState(ms: seq<Milestone>, done: bool): (r: seq<Milestone>)
    ensures |r| <= |ms|
    ensures forall m | m in r :: m.completed == done && m in ms
  {
    if |ms| == 0 then []
    else WithState(ms[..|ms| - 1], done) + (if ms[|ms| - 1].completed == done then [ms[|ms| - 1]] else [])
  }

  /** The completed and the pending milestones split the list between them. */
  lemma {:induction false} MilestonesPartition(ms: seq<Milestone>)
    ensures multiset(WithState(ms, true)) + multiset(WithState(ms, false)) == multiset(ms)
  {
    if |ms| > 0 {
      var pre, last := ms[..|ms| - 1], ms[|ms| - 1];
      MilestonesPartition(pre);
      assert ms == pre + [last];
      if last.completed {
        assert WithState(ms, true) == WithState(pre, true) + [last];
        assert WithState(ms, false) == WithState(pre, false);
      } else {
        assert WithState(ms, true) == WithState(pre, true);
        assert WithState(ms, false) == WithState(pre, false) + [last];
      }
    }
  }

  /** A count out of a positive total, as a percentage, lies in [0, 100]. */
  lemma Percentage(count: nat, total: nat)
    requires 0 < total && count <= total
    ensures 0.0 <= (count as real) / (total as real) * 100.0 <= 100.0
  {
    var q := (count as real) / (total as real);
    assert q * (total as real) == count as real;
  }

  /** The completion percentage; 0 for no milestones. */
  function ProgressOf(ms: seq<Milestone>): (r: real)
    ensures 0.0 <= r <= 100.0
    ensures |ms| == 0 ==> r == 0.0
    ensures |ms| > 0 && |WithState(ms, true)| == |ms| ==> r == 100.0
  {
    if |ms| == 0 then 0.0
    else
      Percentage(|WithState(ms, true)|, |ms|);
      (|WithState(ms, true)| as real) / (|ms| as real) * 100.0
  }

  class MilestoneTracker {
    var milestones: seq<Milestone>
    const saveDir: string

    constructor (saveDir: string)
      ensures milestones == [] && this.saveDir == saveDir
    {
      milestones := [];
      this.saveDir := saveDir;
    }

    /** Add: the milestone goes at the end. */
    method Add(m: Milestone)
      modifies this
      ensures milestones == old(milestones) + [m]
    {
      milestones := milestones + [m];
    }

    function GetAll(): (r: seq<Milestone>)
      reads this
      ensures r == milestones
    {
      milestones
    }

    /** GetCompleted (done) and GetPending (not done): the filter loops over the list. */
    method Filter(done: bool) returns (r: seq<Milestone>)
      ensures r == WithState(milestones, done)
    {
      r := [];
      var i := 0;
      while i < |milestones|
        invariant 0 <= i <= |milestones|
        invariant r == WithState(milestones[..i], done)
      {
        assert milestones[..i + 1][..i] == milestones[..i];
        if milestones[i].completed == done {
          r := r + [milestones[i]];
        }
        i := i + 1;
      }
      assert milestones[..i] == milestones;
    }

    method GetCompleted() returns (r: seq<Milestone>)
      ensures r == WithState(milestones, true)
    {
      r := Filter(true);
    }

    method GetPending() returns (r: seq<Milestone>)
      ensures r == WithState(milestones, false)
    {
      r := Filter(false);
    }

    /** Progress: the share of completed milestones, as a percentage. */
    method Progress() returns (p: real)
      ensures p == ProgressOf(milestones)
      ensures 0.0 <= p <= 100.0
    {
      if |milestones| == 0 {
        return 0.0;
      }
      var completed := GetCompleted();
      p := (|completed| as real) / (|milestones| as real) * 100.0;
    }
  }
}
