/** src/services/ansibleService.ts: `triggerDeployment`, which asks the
    router's `ansible` service to queue the Jenkins job and reads the queued
    job's id from the `Location` header. */
module AnsibleService {
  import opened Wrappers
  import opened Json
  import opened Text
  import opened Http

  datatype DeploymentParams = DeploymentParams(domain: string, email: string)

  datatype DeploymentResult = DeploymentResult(success: bool, message: string, jobId: Option<string>)

  const STARTED := "Deployment started successfully"
  const TRIGGER_FAILED := "Failed to trigger deployment"
  const NETWORK_ERROR := "Failed to trigger deployment: Network error"
  const UNEXPECTED := "An unexpected error occurred during deployment"

  /** The envelope sent: the payload holds exactly the domain and the email.
      (The form-encoded copy the function also builds is never sent.) */
  function DeploymentRequest(params: DeploymentParams): (e: Envelope)
    ensures e.service == "ansible" && e.payload.JObj?
    ensures e.payload.fields.Keys == {"domain", "email"}
    ensures e.payload.fields["domain"] == JStr(params.domain) && e.payload.fields["email"] == JStr(params.email)
  {
    Envelope("ansible", JObj(map["domain" := JStr(params.domain), "email" := JStr(params.email)]))
  }

  /** `response.headers?.location?.split('/').pop() || ''`. */
  function JobId(location: Option<string>): (r: string)
    ensures '/' !in r
    ensures location.None? ==> r == ""
    ensures location.Some? ==> r == AfterLast(location.value, '/')
  {
    if location.None? then "" else AfterLast(location.value, '/')
  }

  /** The job id is the last path segment of the header: a suffix of it,
      preceded by `/` unless it is the whole header. */
  lemma JobIdIsLastSegment(location: string)
    ensures var id := JobId(Some(location));
      && |id| <= |location| && location[|location| - |id|..] == id
      && '/' !in id
      && (|id| < |location| ==> location[|location| - |id| - 1] == '/')
  {
  }

  /** `triggerDeployment(params)`, given the outcome of its axios call. */
  function TriggerDeployment(params: DeploymentParams, outcome: AxiosOutcome): (r: DeploymentResult)
    ensures r.success <==> outcome.Resolved? && (outcome.status == 200 || outcome.status == 201)
    ensures r.success ==> r == DeploymentResult(true, STARTED, Some(JobId(outcome.location)))
    ensures r.jobId.Some? ==> r.success && '/' !in r.jobId.value
    ensures outcome.Resolved? && !r.success ==> r.message == TRIGGER_FAILED
    ensures outcome.AxiosFailed? ==> r.message == ErrorMessageOr(outcome.responseData, NETWORK_ERROR)
    ensures outcome.OtherFailure? ==> r.message == UNEXPECTED
  {
    match outcome
    case Resolved(status, _, location) =>
      if status == 201 || status == 200 then DeploymentResult(true, STARTED, Some(JobId(location)))
      else DeploymentResult(false, TRIGGER_FAILED, None)
    case AxiosFailed(_, responseData) =>
      DeploymentResult(false, ErrorMessageOr(responseData, NETWORK_ERROR), None)
    case OtherFailure(_) =>
      DeploymentResult(false, UNEXPECTED, None)
  }
}
