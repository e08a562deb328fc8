/**
  What the data mappers do with a database connection, as a trace of
  events, and how a failure reaches them. The database itself is not
  modelled: a query's outcome is an input, and a transaction's failure is
  given as the position of the operation that throws.
 */
module Database {
  import opened Js
  import opened Wrappers

  /** What a failing operation throws: a driver error (its `text` and `code`) or a JavaScript TypeError. */
  datatype Thrown = DbError(text: JsValue, code: JsValue) | TypeError

  /** `e.text` of a thrown value; a TypeError has no such property. */
  function TextOf(e: Thrown): JsValue {
    if e.DbError? then e.text else Undefined
  }

  /** `e.code` of a thrown value. */
  function CodeOf(e: Thrown): JsValue {
    if e.DbError? then e.code else Undefined
  }

  /** The statements the mappers send. */
  datatype Statement =
    | SelectCampaigns(where: string, params: seq<string>)
    | SelectCampaignsOfUser(userId: JsValue)
    | SelectCampaign(campaignId: JsValue)
    | InsertCampaign(owner: JsValue, title: JsValue, description: JsValue, contact: JsValue)
    | InsertCampaignMethod(key: nat, methodId: int)
    | UpdateCampaign(title: JsValue, description: JsValue, contact: JsValue, key: nat)
    | DeleteCampaignMethods(key: nat)
    | DeleteCampaign(key: nat)
    | SelectHelpDoneOfCampaign(campaignId: JsValue)
    | SelectHelpDone(id: JsValue)
    | InsertHelpDone(helpCampaign: JsValue, helpMethod: JsValue, log: JsValue)
    | DeleteHelpDone(id: JsValue)

  /** What happens on a connection, in order. */
  datatype Event = Begin | Exec(statement: Statement) | Commit | Rollback | End

  /** A transaction's failure: operation number `at` (counted from 0, `beginTransaction` first) throws `error`. */
  datatype Fault = Fault(at: nat, error: Thrown)

  predicate Throws(fault: Option<Fault>, at: nat) {
    fault.Some? && fault.value.at == at
  }

  /** The connection was released: it ends with `end()` and `end()` happens exactly once. */
  predicate Released(events: seq<Event>) {
    |events| > 0 && events[|events| - 1] == End && End !in events[..|events| - 1]
  }

  /** A single query on its own connection: the outcome of the mapping and the connection's trace. */
  datatype Run<T> = Run(events: seq<Event>, result: Result<T, Thrown>)

  /** The driver's answer to an INSERT, UPDATE or DELETE. */
  datatype Packet = Packet(insertId: nat, affectedRows: nat)

  /** A mapper's outcome as a handler that tests for null sees it: an answer is never null. */
  function Answered<T>(r: Result<T, Thrown>): (a: Result<Nullable<T>, Thrown>)
    ensures r.Failure? ==> a == Failure(r.error)
    ensures r.Success? ==> a == Success(Present(r.value))
  {
    match r
    case Failure(e) => Failure(e)
    case Success(v) => Success(Present(v))
  }
}
