/** The plan contracts of blackline/engine/models.py, core/artifacts.py and core/recon/outcomes.py. */
module PlanModel {
  import opened Results
  import Text

  const DONE := "done"
  const NEGATIVE := "negative"
  const SKIPPED := "skipped"
  const WARNING := "warning"
  const FAILED := "failed"

  /** One observation with its provenance. */
  datatype Artifact = Artifact(kind: string, subject: string, data: map<string, string>, sourceStep: string,
                               sourceProvider: string, confidence: Option<int>, observedAt: string)
  {
    /** What makes two artifacts the same fact: neither confidence nor time takes part. */
    function Key(): ArtifactKey {
      ArtifactKey(kind, subject, data, sourceStep, sourceProvider)
    }
  }

  datatype ArtifactKey = ArtifactKey(kind: string, subject: string, data: map<string, string>, sourceStep: string,
                                     sourceProvider: string)

  /** The parts of a handler's payload that decide how a result is classified. */
  datatype Payload = Payload(resultOutcome: Option<string>, skipped: bool, negativeObservation: bool, allFindingsClosed: bool,
                             hasWarnings: bool, someFindingNotOk: bool)

  const EmptyPayload := Payload(None, false, false, false, false, false)

  function Classify(tool: string, ok: bool, p: Payload): string {
    var explicit := if p.resultOutcome.Some? then Text.Lower(Text.Strip(p.resultOutcome.value)) else "";
    if explicit in {DONE, NEGATIVE, SKIPPED, WARNING, FAILED} then explicit
    else if p.skipped then SKIPPED
    else if p.negativeObservation then NEGATIVE
    else if tool == "http" && p.allFindingsClosed then NEGATIVE
    else if !ok then FAILED
    else if p.hasWarnings then WARNING
    else if tool == "http" && p.someFindingNotOk then WARNING
    else DONE
  }

  predicate OutcomeIsSuccess(outcome: string) {
    outcome in {DONE, NEGATIVE, SKIPPED, WARNING}
  }

  datatype StepResult = StepResult(ok: bool, payload: Payload, error: string, outcome: string, artifacts: seq<Artifact>)

  /** Construction of a result: an outcome that is not given is classified, and a successful outcome means ok. */
  function MakeResult(tool: string, ok: bool, payload: Payload, error: string, outcome: string,
                      artifacts: seq<Artifact>): StepResult
  {
    var final := if outcome != "" then outcome else Classify(tool, ok, payload);
    StepResult(ok || OutcomeIsSuccess(final),
               if payload.resultOutcome.None? then payload.(resultOutcome := Some(final)) else payload,
               error, final, artifacts)
  }

  /** A classified result is one of five outcomes, is not ok only when it failed, and classifies to itself again. */
  lemma ResultIsStable(tool: string, ok: bool, payload: Payload, error: string, artifacts: seq<Artifact>)
    ensures var r := MakeResult(tool, ok, payload, error, "", artifacts);
            && r.outcome in {DONE, NEGATIVE, SKIPPED, WARNING, FAILED}
            && (r.ok <==> ok || r.outcome != FAILED)
            && MakeResult(tool, r.ok, r.payload, error, "", artifacts) == r
  {
    hide Text.Strip, Text.Lower;
    OutcomeIsSpelled(Classify(tool, ok, payload));
  }

  /** The payload names one of the five outcomes, however it is cased and padded. */
  predicate Names(p: Payload, outcome: string) {
    && outcome in {DONE, NEGATIVE, SKIPPED, WARNING, FAILED}
    && p.resultOutcome.Some? && Text.Lower(Text.Strip(p.resultOutcome.value)) == outcome
  }

  predicate Unfound(tool: string, p: Payload) {
    p.negativeObservation || (tool == "http" && p.allFindingsClosed)
  }

  predicate Doubtful(tool: string, p: Payload) {
    p.hasWarnings || (tool == "http" && p.someFindingNotOk)
  }

  /** A named outcome is the answer. Without one each of the five answers has its own condition, and they share no case. */
  lemma ClassifyIff(tool: string, ok: bool, p: Payload)
    ensures var answer, named := Classify(tool, ok, p), exists outcome :: Names(p, outcome);
            && (forall outcome :: Names(p, outcome) ==> answer == outcome)
            && (!named ==>
                  && (answer == SKIPPED <==> p.skipped)
                  && (answer == NEGATIVE <==> !p.skipped && Unfound(tool, p))
                  && (answer == FAILED <==> !ok && !p.skipped && !Unfound(tool, p))
                  && (answer == WARNING <==> ok && !p.skipped && !Unfound(tool, p) && Doubtful(tool, p))
                  && (answer == DONE <==> ok && !p.skipped && !Unfound(tool, p) && !Doubtful(tool, p)))
  {
    hide Text.Strip, Text.Lower;
    if p.resultOutcome.Some? {
      var said := Text.Lower(Text.Strip(p.resultOutcome.value));
      assert said in {DONE, NEGATIVE, SKIPPED, WARNING, FAILED} ==> Names(p, said);
    }
  }

  lemma OutcomeIsSpelled(outcome: string)
    ensures outcome in {DONE, NEGATIVE, SKIPPED, WARNING, FAILED} ==> outcome != "" && Text.Lower(Text.Strip(outcome)) == outcome
  {
    assert Text.Strip(outcome) == outcome || outcome !in {DONE, NEGATIVE, SKIPPED, WARNING, FAILED};
  }

  datatype RetrySettings = RetrySettings(maxAttempts: int, backoffSeconds: int, retryableOutcomes: seq<string>)

  type RetryPolicy = p: RetrySettings | p.maxAttempts >= 1 && p.backoffSeconds >= 0 witness RetrySettings(1, 0, [])

  datatype StepDependency = StepDependency(stepId: string, requiredArtifacts: seq<string>, optional: bool)

  datatype PlanStep = PlanStep(tool: string, action: string, targetType: string, executionGroup: int, id: string,
                               consumes: seq<string>, produces: seq<string>, dependsOn: seq<StepDependency>,
                               retryPolicy: RetryPolicy)
  {
    function Identity(): string {
      if id != "" then id else tool + "." + action
    }
  }

  predicate UniqueIds(steps: seq<PlanStep>) {
    forall i, j :: 0 <= i < j < |steps| ==> steps[i].Identity() != steps[j].Identity()
  }

  /** Step i names step j among its dependencies. */
  predicate DependsOn(steps: seq<PlanStep>, i: nat, j: nat)
    requires i < |steps| && j < |steps|
  {
    exists d :: d in steps[i].dependsOn && d.stepId == steps[j].Identity()
  }

  /** Every dependency of every step names a step of the plan. */
  predicate KnownDependencies(steps: seq<PlanStep>) {
    forall i, d :: 0 <= i < |steps| && d in steps[i].dependsOn ==> HasIdentity(steps, d.stepId)
  }

  predicate HasIdentity(steps: seq<PlanStep>, name: string) {
    exists j :: 0 <= j < |steps| && steps[j].Identity() == name
  }
}
