/** The code-execution service reached through `libs/judge0.lib.js`, whose code is not
    part of this model. Its three calls are given as function values, so every
    property proved about the controllers holds whatever the service answers. */
module Judge0 {
  import opened Wrappers

  /** A language id as `getJudge0LanguageId` returns it; its falsy answer for a
      language it does not know is `None`. */
  type LanguageId = x: int | x > 0 witness 1

  /** Judge0's status id for "Accepted". */
  const ACCEPTED: int := 3

  /** One execution request: `{ source_code, language_id, stdin, expected_output }`. */
  datatype Submission = Submission(sourceCode: string, languageId: int, stdin: string, expectedOutput: Option<string>)

  datatype Status = Status(id: int, description: string)

  /** One polled result. `time` is the seconds string Judge0 reports, `memory` the kilobytes. */
  datatype ExecResult = ExecResult(
    status: Status,
    stdout: Option<string>,
    stderr: Option<string>,
    compileOutput: Option<string>,
    time: Option<string>,
    memory: Option<nat>)

  /** One element of the answer to `submitBatch`: `{ token }`. */
  datatype Receipt = Receipt(token: string)

  /** `None` from `submitBatch` or `pollBatchResults` stands for a call that throws.
      The tokens handed to `pollBatchResults` are `None` where the caller read an
      undefined property. */
  datatype Engine = Engine(
    languageId: string -> Option<LanguageId>,
    submitBatch: seq<Submission> -> Option<seq<Receipt>>,
    pollBatchResults: seq<Option<string>> -> Option<seq<ExecResult>>)

  /** `submissionResults.map((res) => res.token)`. */
  function Tokens(receipts: seq<Receipt>): (tokens: seq<Option<string>>)
    ensures |tokens| == |receipts|
    ensures forall i :: 0 <= i < |receipts| ==> tokens[i] == Some(receipts[i].token)
  {
    if receipts == [] then [] else [Some(receipts[0].token)] + Tokens(receipts[1..])
  }
}
