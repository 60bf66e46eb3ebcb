/** backend/src/routes/contract.routes.ts: POST /contracts/send. */
module ContractRoutes {
  import opened Common
  import opened ZodRules

  const DefaultContractUrl := "https://docs.google.com/"

  datatype ContractSent = ContractSent(ok: bool, contractUrl: string)

  /** The schema: `clientUserId` a non-empty string, `meetingId` absent or a non-empty string. */
  predicate ContractSendValid(body: Body) {
    StringMin(body, "clientUserId", 1) && OptionalStringMin(body, "meetingId", 1)
  }

  /** `CONTRACT_URL || "https://docs.google.com/"` */
  function ContractUrl(env: Env): (url: string)
    ensures url != ""
    ensures EnvGet(env, "CONTRACT_URL").Some? ==> url == env["CONTRACT_URL"]
    ensures EnvGet(env, "CONTRACT_URL").None? ==> url == DefaultContractUrl
  {
    match EnvGet(env, "CONTRACT_URL")
    case Some(u) => u
    case None => DefaultContractUrl
  }

  /** The handler answers with the URL and does nothing else. */
  function ContractSendRoute(body: Body, env: Env): (r: Reply<ContractSent>)
    ensures !ContractSendValid(body) <==> r == BadRequest
    ensures ContractSendValid(body) ==> r == Json200(ContractSent(true, ContractUrl(env)))
  {
    if ContractSendValid(body) then Json200(ContractSent(true, ContractUrl(env))) else BadRequest
  }

  /** An empty `meetingId` is refused, unlike an absent one. */
  lemma EmptyMeetingIdRejected(body: Body, env: Env)
    requires "meetingId" in body && body["meetingId"] == JStr("")
    ensures ContractSendRoute(body, env) == BadRequest
  {
  }

  /**
   * A schema matching the body the app posts: `clientEmail` and
   * `sellerUserId` non-empty strings, `meetingId` absent or non-empty,
   * `contractUrl` absent or a string.
   */
  predicate AppContractSendValid(body: Body) {
    StringMin(body, "clientEmail", 1) && StringMin(body, "sellerUserId", 1)
    && OptionalStringMin(body, "meetingId", 1) && OptionalStringMin(body, "contractUrl", 0)
  }

  /** The route with that schema. */
  function AppContractSendRoute(body: Body, env: Env): (r: Reply<ContractSent>)
    ensures !AppContractSendValid(body) <==> r == BadRequest
    ensures AppContractSendValid(body) ==> r == Json200(ContractSent(true, ContractUrl(env)))
  {
    if AppContractSendValid(body) then Json200(ContractSent(true, ContractUrl(env))) else BadRequest
  }
}
