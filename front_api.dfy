/**
 * The client's view of the wire protocol (front/app/api.tsx and its use in
 * the pages). An inbound message is the object `JSON.parse` yields; any of its
 * fields may be absent (`undefined`), which is `None` here.
 */
module FrontApi {
  import opened Wrappers
  import Api

  /** JavaScript truthiness of an optional string: present and not empty. */
  predicate Truthy(v: Option<string>) {
    v.Some? && v.value != ""
  }

  /**
   * A parsed inbound message. `ok` is the truthiness of the `ok` field (an
   * absent field is falsy); `kind` is the numeric `type` field.
   */
  datatype Inbound = Inbound(
    uuid: Option<string>,
    kind: Option<int>,
    ok: bool,
    reason: Option<string>,
    token: Option<string>,
    firstName: Option<string>)

  /**
   * The test every response handler starts with: `m.uuid !== uuid ||
   * m.type !== kind` drops the message, so it answers only when both are
   * strictly equal.
   */
  predicate Answers(m: Inbound, uuid: string, kind: Api.Message): (b: bool)
    ensures b <==> m.uuid == Some(uuid) && m.kind.Some? && Api.FromCode(m.kind.value) == Some(kind)
  {
    Api.FromCodeOfCode(kind);
    m.uuid == Some(uuid) && m.kind == Some(Api.Code(kind))
  }

  /** The requests the client sends, each with its fresh `uuid`. */
  datatype Outbound =
    | LoginRequest(uuid: string, email: string, password: string)
    | SignupRequest(uuid: string, firstName: string, lastName: string, email: string, password: string)
    | TokenRequest(uuid: string, email: string, token: string)

  /** A response of another kind never answers a request, whatever its uuid. */
  lemma AnswersOnlyItsKind(m: Inbound, uuid: string, a: Api.Message, b: Api.Message)
    requires Answers(m, uuid, a) && Answers(m, uuid, b)
    ensures a == b
  {
    Api.CodeInjective(a, b);
  }
}
