/** The validated answers of the AI layer. */
module AIOutput {
  import opened Seqs
  import opened AIContext

  datatype Step = Step(kind: string, selector: Option<string>, value: Option<string>, milliseconds: Option<int>,
                       url: Option<string>)

  datatype Check = Check(kind: string, selector: Option<string>, value: Option<string>, expectedStatus: Option<real>,
                         message: Option<string>)

  datatype SuggestedTest = SuggestedTest(
    id: string, name: string, description: string, category: string, severity: string, timeout: int,
    steps: seq<Step>, assertions: seq<Check>, rationale: string, evidence: seq<Ref>)

  /** Why a suggestion was turned down. */
  datatype Reason =
    | NotAnObject | DuplicateId
    | BadId | UnknownCategory | UnknownSeverity | NoDescription | BadTimeout
    | NoSteps | TooManySteps | WaitExceedsTimeout | NoAssertions | TooManyAssertions
    | UnsupportedFields(keys: seq<string>)
    | StepNotAnObject | StepWithoutType | UnknownAction | StepFields(keys: seq<string>) | UnsafeStepSelector
    | SelectorRequired | StepValueNotText | StepValueTooLong | StepValueDangerous | ValueRequired
    | BadWait | WaitTooLong | UrlRequired | UnsafeUrl | UrlNotAccepted
    | CheckNotAnObject | CheckWithoutType | UnknownAssertion | CheckFields(keys: seq<string>) | UnsafeCheckSelector
    | CheckSelectorRequired | CheckValueNotText | CheckValueTooLong | CheckValueDangerous | CheckValueRequired
    | BadStatus | StatusRequired

  datatype Rejection = Rejection(name: string, reason: Reason)

  /** Validating a candidate accepts it, rejects it with a reason, or raises a
      schema violation at the given path. */
  datatype Verdict = Accepted(test: SuggestedTest) | Rejected(name: string, reason: Reason) | Raises(path: string)

  datatype Output =
    | Explanation(summary: string, meaning: string, whyItMatters: string, impact: string, likelyCauses: seq<string>,
                  recommendations: seq<string>, nextStep: string, evidence: seq<Ref>, confidence: string,
                  caveats: seq<string>)
    | Summary(headline: string, overallAssessment: string, strengths: seq<string>, risks: seq<string>,
              priorities: seq<string>, evidence: seq<Ref>, confidence: string, caveats: seq<string>)
    | Suggestions(summary: string, tests: seq<SuggestedTest>, rejected: seq<Rejection>, confidence: string,
                  caveats: seq<string>)
    | Answer(answer: string, outOfScope: bool, evidence: seq<Ref>, confidence: string, caveats: seq<string>)

  /** `ref` is cited somewhere in the answer. */
  ghost predicate Cites(o: Output, ref: Ref) {
    match o
    case Suggestions(_, tests, _, _, _) => exists t :: t in tests && ref in t.evidence
    case _ => ref in o.evidence
  }
}
