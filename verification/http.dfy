/**
  What a request handler produces: the data-mapper calls it makes, in order,
  and what becomes of the request (a response, an error handed to `next`, or
  a promise that rejects with nothing sent).
 */
module Http {
  import opened Js
  import opened Models
  import opened Database

  /** One failed validation rule: the field it checks and its message. */
  datatype ValidationError = ValidationError(param: string, msg: string)

  /** The error body `{ code, message }`. */
  datatype ErrorModel = ErrorModel(message: JsValue, code: JsValue)

  /** The JSON body of a response, by shape. */
  datatype Body =
    | NoBody
    | Errors(errors: seq<ValidationError>)
    | Error(error: ErrorModel)
    | CampaignList(campaigns: seq<Campaign>)
    | OneCampaign(campaign: Campaign)
    | IdMessage(id: JsValue, message: string)
    | Authentication(token: string, expiresIn: int)
    | HelpDoneList(helps: seq<HelpDone>)
    | OneHelpDone(help: HelpDone)

  datatype Response = Response(status: int, body: Body)

  datatype Reply =
    | Send(response: Response)
    | Forward(error: ErrorModel)   // next(createError(...)): the application's error handler answers
    | Unhandled                    // the handler's promise rejects and no response is written

  /** A call a handler makes on a data mapper, with its arguments. */
  datatype DaoCall =
    | CampaignFindAll(searchText: JsValue, filters: QueryParam)
    | CampaignFindOne(campaignId: JsValue)
    | CampaignFindByUser(userId: JsValue)
    | CampaignInsert(owner: JsValue, campaign: CampaignInput)
    | CampaignUpdate(campaign: CampaignInput)
    | CampaignDelete(campaignId: JsValue)
    | UserFindOne(email: JsValue)
    | UserInsert(user: UserModel)
    | HelpDoneFindAll(campaignId: JsValue)
    | HelpDoneFindOne(id: JsValue)
    | HelpDoneInsert(help: HelpDoneInput)
    | HelpDoneDelete(id: JsValue)

  datatype Handled = Handled(calls: seq<DaoCall>, reply: Reply)

  /** A response carrying an error body. */
  function ErrorResponse(status: int, message: string, code: JsValue): Response {
    Response(status, Error(ErrorModel(Str(message), code)))
  }

  /** `new ErrorModel(e.text, { code: e.code })` for a caught error. */
  function ErrorOf(e: Thrown): ErrorModel {
    ErrorModel(TextOf(e), CodeOf(e))
  }

  /** A caught mapper error, handed to the error handler after the calls made. */
  function Rethrow(calls: seq<DaoCall>, e: Thrown): Handled {
    Handled(calls, Forward(ErrorOf(e)))
  }

  /** The answer to a lookup that found nothing. */
  const NotFound := ErrorResponse(400, "Nenhum registro encontrado", Num(400))

  /** The status of a reply that sends a response. */
  predicate Answers(r: Reply, status: int) {
    r.Send? && r.response.status == status
  }
}
