/**
 * The request gate. Before a request is handled, the optional X-Tenant-Id header is
 * sorted into one of three outcomes: missing (reject), unknown (reject) or known (bind
 * the slot and continue). After the handler, the slot is emptied.
 */
module Interceptor {
  import opened Wrappers
  import opened Registry
  import opened CurrentTenant

  /** HttpStatus.BAD_REQUEST. */
  const BadRequest := 400
  /** The status a servlet response has before anything sets it. */
  const Ok := 200

  /** An RFC 7807 problem object (sections 3.1 and 3.2 of RFC 7807): the status, title
      and detail members and the extension members. */
  datatype ProblemDetail = ProblemDetail(
    status: int,
    title: string,
    detail: string,
    properties: map<string, string>)

  /** The problem sent when the request carries no X-Tenant-Id header. */
  function MissingTenantProblem(): ProblemDetail
  {
    ProblemDetail(BadRequest, "Missing database tenant",
                  "Header X-Tenant-Id was not present in the request", map[])
  }

  /** The problem sent when the header names no known tenant; it echoes the value. */
  function UnknownTenantProblem(tenantId: string): ProblemDetail
  {
    ProblemDetail(BadRequest, "Unknown database tenant",
                  "Value of header X-Tenant-Id does not match a known database tenant",
                  map["tenantId" := tenantId])
  }

  /** The three ways preHandle can go. */
  datatype Decision =
    | RespondMissingTenant
    | RespondUnknownTenant(tenantId: string)
    | SelectTenant(tenantId: string)

  /** The choice preHandle makes: the missing check comes first, then registry membership. */
  function Decide(tenants: Tenants, header: Option<string>): (d: Decision)
    ensures d.RespondMissingTenant? <==> header.None?
    ensures d.RespondUnknownTenant? <==> header.Some? && header.value !in tenants.names
    ensures d.SelectTenant? <==> header.Some? && header.value in tenants.names
    ensures !d.RespondMissingTenant? ==> d.tenantId == header.value
  {
    match header
    case None => RespondMissingTenant
    case Some(id) =>
      if id !in tenants.names then RespondUnknownTenant(id) else SelectTenant(id)
  }

  /** The problem written for a rejecting decision. */
  function ProblemOf(d: Decision): (p: ProblemDetail)
    requires !d.SelectTenant?
    ensures p.status == BadRequest
    ensures d.RespondUnknownTenant? <==> "tenantId" in p.properties
  {
    match d
    case RespondMissingTenant => MissingTenantProblem()
    case RespondUnknownTenant(id) => UnknownTenantProblem(id)
  }

  /** Both rejections are client errors and remain distinguishable: different titles, and
      only the unknown-tenant problem carries `tenantId`, holding the header verbatim. */
  lemma RejectionsAreDistinguishable(id: string, other: string)
    ensures MissingTenantProblem().status == BadRequest && UnknownTenantProblem(id).status == BadRequest
    ensures MissingTenantProblem().title != UnknownTenantProblem(id).title
    ensures MissingTenantProblem().properties == map[]
    ensures UnknownTenantProblem(id).properties.Keys == {"tenantId"}
    ensures UnknownTenantProblem(id).properties["tenantId"] == id
    ensures UnknownTenantProblem(id) == UnknownTenantProblem(other) <==> id == other
  {
    assert MissingTenantProblem().title[0] != UnknownTenantProblem(id).title[0];
    if UnknownTenantProblem(id) == UnknownTenantProblem(other) {
      assert UnknownTenantProblem(id).properties["tenantId"] == UnknownTenantProblem(other).properties["tenantId"];
    }
  }

  /** The decisions the tests exercise, with the registry {"company-a"}. */
  lemma DecisionExamples()
    ensures Decide(Tenants({"company-a"}), None) == RespondMissingTenant
    ensures Decide(Tenants({"company-a"}), Some("foo")) == RespondUnknownTenant("foo")
    ensures Decide(Tenants({"company-a"}), Some("company-a")) == SelectTenant("company-a")
    ensures Decide(Tenants({"company-a"}), Some("Company-A")) == RespondUnknownTenant("Company-A")
  {
    assert "foo" != "company-a";
    assert "Company-A"[0] != "company-a"[0];
  }

  /** The servlet response: its status and the problem objects printed to its writer. */
  class Response {
    var status: int
    var body: seq<ProblemDetail>

    constructor ()
      ensures status == Ok && body == []
    {
      status, body := Ok, [];
    }

    /** setStatus followed by printing the problem to the writer. */
    method Reject(problem: ProblemDetail)
      modifies this
      ensures status == problem.status
      ensures body == old(body) + [problem]
    {
      status := problem.status;
      body := body + [problem];
    }
  }

  class TenantInterceptor {
    const tenants: Tenants

    constructor (tenants: Tenants)
      ensures this.tenants == tenants
    {
      this.tenants := tenants;
    }

    /** preHandle for a request on unit `u` whose X-Tenant-Id header is `header`. */
    method PreHandle(header: Option<string>, response: Response, slot: Tenant, u: UnitId)
      returns (proceed: bool)
      modifies response, slot
      ensures proceed <==> header.Some? && header.value in tenants.names
      // known tenant: the slot of `u` holds exactly the header, nothing is written
      ensures proceed ==> slot.slots == old(slot.slots)[u := header.value]
      ensures proceed ==> response.status == old(response.status) && response.body == old(response.body)
      // rejection: the slot is untouched, status 400 and the problem are written
      ensures !proceed ==> slot.slots == old(slot.slots)
      ensures !proceed ==> response.status == BadRequest
      ensures !proceed ==> response.body == old(response.body) + [ProblemOf(Decide(tenants, header))]
      ensures header.None? ==> response.body == old(response.body) + [MissingTenantProblem()]
      ensures header.Some? && header.value !in tenants.names ==>
                response.body == old(response.body) + [UnknownTenantProblem(header.value)]
    {
      if header.None? {
        proceed := RespondMissingTenant(response);
        return;
      }
      var tenantId := header.value;
      if tenantId !in tenants.names {
        proceed := RespondUnknownTenant(tenantId, response);
        return;
      }
      proceed := SelectTenantAndContinue(tenantId, slot, u);
    }

    /** postHandle: the slot of `u` is emptied, whatever it held. */
    method PostHandle(slot: Tenant, u: UnitId)
      modifies slot
      ensures slot.slots == old(slot.slots) - {u}
      ensures slot.Get(u) == None
      ensures forall v :: v != u ==> slot.Get(v) == old(slot.Get(v))
    {
      slot.Unset(u);
    }

    method RespondMissingTenant(response: Response) returns (proceed: bool)
      modifies response
      ensures !proceed
      ensures response.status == BadRequest
      ensures response.body == old(response.body) + [MissingTenantProblem()]
    {
      response.Reject(MissingTenantProblem());
      proceed := false;
    }

    method RespondUnknownTenant(tenantId: string, response: Response) returns (proceed: bool)
      modifies response
      ensures !proceed
      ensures response.status == BadRequest
      ensures response.body == old(response.body) + [UnknownTenantProblem(tenantId)]
    {
      response.Reject(UnknownTenantProblem(tenantId));
      proceed := false;
    }

    method SelectTenantAndContinue(tenantId: string, slot: Tenant, u: UnitId) returns (proceed: bool)
      modifies slot
      ensures proceed
      ensures slot.slots == old(slot.slots)[u := tenantId]
    {
      slot.Set(u, tenantId);
      proceed := true;
    }
  }
}
