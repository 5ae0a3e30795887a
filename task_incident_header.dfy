/** The incident header of a test-case task: the resolution steps it draws
    (the history so far, then the stages still ahead of the latest one),
    the step marked current, and whether the incident is resolved. */
module TaskTabIncidentManagerHeader {
  import opened Wrappers
  import opened IncidentManagerPageHeader
  import opened JavaStrings

  /** The stages ahead of a stage (`TEST_CASE_STATUS`); a stage without an
      entry has no pending steps listed. */
  type PendingStages = map<StatusType, seq<StatusType>>

  function StageName(t: StatusType): string
  {
    match t
    case New => "New"
    case Ack => "Ack"
    case Assigned => "Assigned"
    case Resolved => "Resolved"
  }

  /** `toLower` of the stage name. */
  function StageClassName(t: StatusType): (r: string)
    ensures r == ToLowerCase(StageName(t))
  {
    match t
    case New => "new"
    case Ack => "ack"
    case Assigned => "assigned"
    case Resolved => "resolved"
  }

  /** A step of the stepper, keyed by its stage. */
  datatype Step = Step(key: StatusType, className: string)

  function StepOf(t: StatusType): (s: Step)
    ensures s.key == t && s.className == StageClassName(t)
  {
    Step(t, StageClassName(t))
  }

  /** The stages of the recorded statuses, in order. */
  function Recorded(history: seq<ResolutionStatus>): (r: seq<StatusType>)
    ensures |r| == |history| && forall i :: 0 <= i < |history| ==> r[i] == history[i].statusType
  {
    seq(|history|, i requires 0 <= i < |history| => history[i].statusType)
  }

  /** The stages the stepper lists: the history's, then those pending after
      the latest one. */
  function StepperStages(history: seq<ResolutionStatus>, pending: PendingStages): (r: seq<StatusType>)
    ensures |r| >= |history| && r[..|history|] == Recorded(history)
    ensures history == [] || history[|history| - 1].statusType !in pending ==> |r| == |history|
    ensures history != [] && history[|history| - 1].statusType in pending ==>
      r[|history|..] == pending[history[|history| - 1].statusType]
  {
    if history != [] && history[|history| - 1].statusType in pending then
      Recorded(history) + pending[history[|history| - 1].statusType]
    else Recorded(history)
  }

  /** `testCaseResolutionStepper`: the history copied into a list, the
      pending stages pushed onto it one by one, and each entry turned into a
      step. */
  method TestCaseResolutionStepper(history: seq<ResolutionStatus>, pending: PendingStages)
    returns (steps: seq<Step>)
    ensures |steps| == |StepperStages(history, pending)|
    ensures forall i :: 0 <= i < |steps| ==> steps[i] == StepOf(StepperStages(history, pending)[i])
  {
    var updatedData := Recorded(history);
    if history != [] && history[|history| - 1].statusType in pending {
      var more := pending[history[|history| - 1].statusType];
      var j := 0;
      while j < |more|
        invariant 0 <= j <= |more|
        invariant updatedData == Recorded(history) + more[..j]
      {
        updatedData := updatedData + [more[j]];
        j := j + 1;
        assert more[..j] == more[..j - 1] + [more[j - 1]];
      }
      assert more[..j] == more;
    }
    steps := seq(|updatedData|, i requires 0 <= i < |updatedData| => StepOf(updatedData[i]));
  }

  /** The current step is `history.length`: the first pending stage when
      there is one, while every earlier step is a recorded one. */
  function CurrentStep(history: seq<ResolutionStatus>): nat
  {
    |history|
  }

  lemma CurrentStepIsFirstPending(history: seq<ResolutionStatus>, pending: PendingStages)
    requires history != [] && history[|history| - 1].statusType in pending
    requires pending[history[|history| - 1].statusType] != []
    ensures CurrentStep(history) < |StepperStages(history, pending)|
    ensures StepperStages(history, pending)[CurrentStep(history)] == pending[history[|history| - 1].statusType][0]
  {
    var r := StepperStages(history, pending);
    assert r[|history|..][0] == r[|history|];
  }

  /** `isResolved`: the latest status is Resolved. */
  function IsResolved(history: seq<ResolutionStatus>): (r: bool)
    ensures r <==> history != [] && history[|history| - 1].statusType == Resolved
  {
    var latest := LastOf(history);
    latest.Some? && latest.value.statusType == Resolved
  }

  /** Recording a Resolved status resolves the incident; recording any other
      status leaves it unresolved. */
  lemma AppendDecidesResolved(history: seq<ResolutionStatus>, s: ResolutionStatus)
    ensures IsResolved(history + [s]) <==> s.statusType == Resolved
  {
  }
}
