/** The records that travel between the queue, the store, the worker and the coordinator. */
module OcrRecords {
  import opened Wrappers
  import opened JobStates
  import opened RetryRules

  /** A note on a move: whatever the worker wrote, or the classifier's reason. */
  datatype Note = Written(text: string) | Because(reason: Reason)

  type Move = Transition<Note>

  datatype Page = Page(page_id: string, page_number: int)

  /** A submission. `body` stands for the fields no rule here reads, `body_valid` for what the JSON
      schema says of them. */
  datatype Submission = Submission(
    job_id: string,
    tenant_id: string,
    document_id: string,
    document_revision: Option<int>,
    pages: seq<Page>,
    retry: Policy,
    body: string,
    body_valid: bool)

  /** `ocr-submission.schema.json`. It bounds the budget but does not compare it with the attempt. */
  predicate ValidSubmission(s: Submission) {
    && s.body_valid
    && s.job_id != "" && s.pages != []
    && 1 <= s.retry.max_attempts <= 20
    && s.retry.attempt >= 1
  }

  function WithAttempt(s: Submission, attempt: int): Submission {
    s.(retry := s.retry.(attempt := attempt))
  }

  function NextAttempt(s: Submission): Submission {
    WithAttempt(s, s.retry.attempt + 1)
  }

  /** A unit of transport: the submission and what the queue attaches to it. */
  datatype Job = Job(id: string, submission: Submission, enqueued_at: string)

  datatype PageResult = PageResult(
    job_id: string,
    tenant_id: string,
    document_id: string,
    document_revision: Option<int>,
    page_id: string,
    page_number: int,
    status: ResultStatus,
    failure: Option<Failure>,
    manual_review: bool,
    body: string,
    body_valid: bool)

  /** `ocr-result.schema.json`. */
  predicate ValidResult(r: PageResult) {
    r.body_valid && r.page_number >= 1
  }
}
