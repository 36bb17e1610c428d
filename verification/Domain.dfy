/** Records shared by the guarded-dispatch protocol: scopes, configuration, tools, the lease
    binding and the sealed decision payload.

    A digest of a value is modelled by the value itself under a constructor, which makes every
    digest injective and keeps digests of different kinds apart. */
module Domain {

  datatype Option<+T> = None | Some(value: T)

  /** Opaque bearer: a decision id, a native admission id or a lease id. */
  type Id = string

  /** Length of secrets.token_urlsafe(32). */
  const TOKEN_LENGTH := 43

  /** An identifier the program generates itself. */
  type Token = t: Id | |t| == TOKEN_LENGTH witness seq(TOKEN_LENGTH, _ => 'A')

  /** Abstract JSON value; only equality matters to the protocol. */
  datatype Json = Json(text: string)

  datatype Digest<+T> = Digest(preimage: T)

  datatype Profile = Profile(project: string, agent: string)

  datatype Scope = Scope(project: string, agent: string, chat: string) {
    function Owner(): Profile { Profile(project, agent) }
  }

  datatype DataClass = Public | Internal | Confidential | Regulated
  datatype RiskLevel = ReadOnly | Network | Mutation | Destructive | Financial | Credential | Unknown
  datatype RouteMode = Automatic | Pinned
  datatype Outcome = Allow | Deny | NeedsApproval

  datatype Transport = Transport(kind: string, url: string, socket: Option<string>,
                                 token: Option<string>, origins: seq<string>)

  /** The passport fields the gates read, and everything else its version hash covers. */
  datatype Passport = Passport(requiredLabels: seq<string>, callsPerSession: int,
                               approvalLeaseMinutes: int, rest: Json)

  datatype Config = Config(scope: Scope, transport: Transport, passport: Passport,
                           remoteCalls: bool, meshInference: bool)

  datatype Assessment = Assessment(level: RiskLevel, singleUse: bool, reasons: seq<string>,
                                   evidence: seq<string>)

  /** Contents of the gate-route fingerprint. */
  datatype RouteView = RouteView(kind: string, url: string, socket: Option<string>,
                                 origins: seq<string>, credential: Digest<Option<string>>,
                                 features: bool)

  datatype RouteDigest = RouteDigest(view: RouteView)

  function RouteHash(config: Config): RouteDigest {
    var t := config.transport;
    RouteDigest(RouteView(t.kind, t.url, t.socket, t.origins, Digest(t.token), config.remoteCalls))
  }

  datatype Tool = Tool(peer: string, service: string, uri: string, schema: Digest<Json>,
                       riskMetadata: Digest<Json>, labels: seq<string>)

  datatype InferenceRoute = InferenceRoute(peer: string, service: string, root: string, path: string)

  /** What the schema and risk-metadata slots of a lease binding hold: a tool's own digests, or
      the fingerprint of a discovered inference route. */
  datatype Subject = ToolSubject(hash: Digest<Json>) | RouteSubject(fingerprint: Digest<InferenceRoute>)

  datatype RiskBinding = AssessedRisk(hash: Digest<Assessment>) | InferenceRisk

  /** Complete authority binding required to issue or consume a lease. */
  datatype LeaseRequest = LeaseRequest(
    scope: Scope, peer: string, service: string, uri: string,
    schema: Subject, riskMetadata: Subject, passport: Digest<Passport>,
    routeMode: RouteMode, model: Option<string>, requiredLabels: seq<string>,
    boundary: Digest<Json>, dataClass: DataClass, riskLevel: RiskLevel, risk: RiskBinding)

  /** `binding_hash()` of a request. */
  datatype Binding = Binding(request: LeaseRequest)

  datatype Kind = RemoteTool | Inference

  /** The entries of a decision payload that a preflight fixes for good. */
  datatype Terms = Terms(
    kind: Kind, peer: string, toolName: string, arguments: Json, model: Option<string>,
    dataClass: DataClass, binding: Binding, route: RouteDigest, labels: seq<string>,
    inferenceRoute: Option<InferenceRoute>, outcome: Outcome, request: LeaseRequest)

  /** The decision payload both gates seal; expiresUs is its `_expires_us` entry. */
  datatype Payload = Payload(terms: Terms, leaseId: Option<Id>, expiresUs: int)
}
