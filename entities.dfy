/**
 * The response envelopes of `EntityFactory`: plain dictionary builders. The
 * wall-clock timestamp that `create_company_facts` reads is a parameter.
 */
module Entities {
  import opened Wrappers
  import opened PyJson

  /** `create_response(status, message, data)`: `data or {}` replaces every
      falsy data argument (None, an empty dict, ...) by an empty dict. */
  function CreateResponse(status: string, message: string, data: Json): (r: Json)
    ensures r.JObject? && Keys(r.fields) == ["status", "message", "data"]
    ensures Get(r.fields, "status") == Some(JStr(status))
    ensures Get(r.fields, "message") == Some(JStr(message))
    ensures Truthy(data) ==> Get(r.fields, "data") == Some(data)
    ensures !Truthy(data) ==> Get(r.fields, "data") == Some(JObject([]))
  {
    var fields := [("status", JStr(status)), ("message", JStr(message)),
                   ("data", if Truthy(data) then data else JObject([]))];
    GetAt(fields, 0, "status");
    GetAt(fields, 1, "message");
    GetAt(fields, 2, "data");
    JObject(fields)
  }

  /** `create_company_facts(company_name, facts)` stamped with `timestamp`. */
  function CreateCompanyFacts(companyName: Json, facts: Json, timestamp: string): (r: Json)
    ensures r.JObject? && Keys(r.fields) == ["company_name", "facts", "timestamp"]
    ensures Get(r.fields, "company_name") == Some(companyName)
    ensures Get(r.fields, "facts") == Some(facts)
    ensures Get(r.fields, "timestamp") == Some(JStr(timestamp))
  {
    var fields := [("company_name", companyName), ("facts", facts), ("timestamp", JStr(timestamp))];
    GetAt(fields, 0, "company_name");
    GetAt(fields, 1, "facts");
    GetAt(fields, 2, "timestamp");
    JObject(fields)
  }

  /** `create_response_with_company_facts`: a company-facts record is never
      empty, so it always survives `data or {}` and is the data field as built. */
  function CreateResponseWithCompanyFacts(status: string, message: string, companyName: Json,
                                          facts: Json, timestamp: string): (r: Json)
    ensures r.JObject? && Keys(r.fields) == ["status", "message", "data"]
    ensures Get(r.fields, "status") == Some(JStr(status))
    ensures Get(r.fields, "message") == Some(JStr(message))
    ensures Get(r.fields, "data") == Some(CreateCompanyFacts(companyName, facts, timestamp))
  {
    CreateResponse(status, message, CreateCompanyFacts(companyName, facts, timestamp))
  }
}
