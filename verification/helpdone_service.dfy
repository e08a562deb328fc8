/**
  The help-done request handlers: list a campaign's help, show one help
  record, log a new one, and remove one. Each stops with 422 on validation
  errors before touching the data mapper, and hands a thrown error on with
  its text and code.
 */
module HelpDoneService {
  import opened Wrappers
  import opened Strings
  import opened Js
  import opened Models
  import opened Database
  import opened Http
  import opened Validators
  import HelpDoneDao

  const InvalidId := "ID inválido"
  const LogMessage := "Log deve ter no mínimo 3 caracteres"

  /**
    The rules of `add`: campaign and method ids that read as numbers, and a
    log of at least three characters. The bounds handed to the numeric rule
    are not among its options and so have no effect.
   */
  function AddErrors(campaignId: JsValue, methodId: JsValue, logDonation: JsValue): (errors: seq<ValidationError>)
    ensures errors == [] <==>
              IsNumeric(RuleText(campaignId)) && IsNumeric(RuleText(methodId)) && MinLength(logDonation, 3)
    ensures Names(errors, "campaignId") <==> !IsNumeric(RuleText(campaignId))
    ensures Names(errors, "methodId") <==> !IsNumeric(RuleText(methodId))
    ensures Names(errors, "logDonation") <==> !MinLength(logDonation, 3)
  {
    var c := Rule(IsNumeric(RuleText(campaignId)), "campaignId", InvalidId);
    var m := Rule(IsNumeric(RuleText(methodId)), "methodId", InvalidId);
    var l := Rule(MinLength(logDonation, 3), "logDonation", LogMessage);
    ThreeRules(IsNumeric(RuleText(campaignId)), "campaignId", InvalidId,
               IsNumeric(RuleText(methodId)), "methodId", InvalidId,
               MinLength(logDonation, 3), "logDonation", LogMessage);
    c + m + l
  }

  /** Any integer id, even zero or a negative one, passes the numeric rule. */
  lemma AnyIntegerIdPasses(campaignId: int, methodId: int, log: string)
    requires |log| >= 3
    ensures AddErrors(Num(campaignId), Num(methodId), Str(log)) == []
  {
    IntegersAreNumeric(campaignId);
    IntegersAreNumeric(methodId);
  }

  /** `getAll`: 200 with the help of the campaign named by the path's `id`. */
  function GetAll(errors: seq<ValidationError>, paramsId: JsValue, dao: Result<seq<HelpDone>, Thrown>): (h: Handled)
    ensures |errors| > 0 ==> h == Halt(errors)
    ensures |errors| == 0 ==> h.calls == [HelpDoneFindAll(paramsId)]
    ensures |errors| == 0 ==> (Answers(h.reply, 200) <==> dao.Success?)
    ensures |errors| == 0 && dao.Success? ==> h.reply.response.body == HelpDoneList(dao.value)
    ensures |errors| == 0 && dao.Failure? ==> h.reply == Forward(ErrorOf(dao.error))
  {
    if |errors| > 0 then Halt(errors)
    else
      match dao
      case Failure(e) => Rethrow([HelpDoneFindAll(paramsId)], e)
      case Success(hs) => Handled([HelpDoneFindAll(paramsId)], Send(Response(200, HelpDoneList(hs))))
  }

  /** `getAll` over the mapper: 200 with one record per row, in order, each reading back as its row. */
  lemma GetAllListsRows(paramsId: JsValue, rows: seq<HelpDoneDao.HelpRow>)
    ensures var h := GetAll([], paramsId, HelpDoneDao.FindAll(paramsId, Success(rows)).result);
            && Answers(h.reply, 200) && h.reply.response.body.HelpDoneList?
            && |h.reply.response.body.helps| == |rows|
            && forall i :: 0 <= i < |rows| ==>
                 HelpDoneDao.Numbered(h.reply.response.body.helps[i])
                 && HelpDoneDao.RowOf(h.reply.response.body.helps[i]) == rows[i]
  {
  }

  /** `params.id || query.id`: the path's id unless it is falsy. */
  function RequestId(paramsId: JsValue, queryId: JsValue): (id: JsValue)
    ensures Truthy(paramsId) ==> id == paramsId
    ensures !Truthy(paramsId) ==> id == queryId
  {
    Or(paramsId, queryId)
  }

  /** `getById`: 200 with the record, or 400 when the mapper found none. */
  function GetById(errors: seq<ValidationError>, paramsId: JsValue, queryId: JsValue,
                   dao: Result<Nullable<HelpDone>, Thrown>): (h: Handled)
    ensures |errors| > 0 ==> h == Halt(errors)
    ensures |errors| == 0 ==> h.calls == [HelpDoneFindOne(RequestId(paramsId, queryId))]
    ensures |errors| == 0 && dao.Success? ==>
              && (Answers(h.reply, 200) <==> dao.value.Present?)
              && (dao.value.Present? ==> h.reply.response.body == OneHelpDone(dao.value.value))
              && (!dao.value.Present? ==> h.reply == Send(NotFound))
    ensures |errors| == 0 && dao.Failure? ==> h.reply == Forward(ErrorOf(dao.error))
  {
    if |errors| > 0 then Halt(errors)
    else
      var calls := [HelpDoneFindOne(RequestId(paramsId, queryId))];
      match dao
      case Failure(e) => Rethrow(calls, e)
      case Success(Present(help)) => Handled(calls, Send(Response(200, OneHelpDone(help))))
      case Success(_) => Handled(calls, Send(NotFound))
  }

  /** Composed with the mapper: 400 exactly when no row has the id. */
  lemma GetByIdNotFoundIffNoRow(paramsId: JsValue, queryId: JsValue, rows: seq<HelpDoneDao.HelpRow>)
    ensures var id := RequestId(paramsId, queryId);
            var h := GetById([], paramsId, queryId, HelpDoneDao.FindOne(id, Success(rows)).result);
            (h.reply == Send(NotFound) <==> rows == []) && (Answers(h.reply, 200) <==> rows != [])
  {
  }

  const AddedMessage := "Ajuda registra com sucesso"
  const NotAdded := ErrorResponse(400, "Não foi possível finalizar a ajuda", Num(400))

  /** `add`: 200 (not 201) with the new id and a message when the mapper answers an id, else 400. */
  function Add(errors: seq<ValidationError>, campaignId: JsValue, methodId: JsValue, logDonation: JsValue,
               dao: Result<Nullable<string>, Thrown>): (h: Handled)
    ensures |errors| > 0 ==> h == Halt(errors)
    ensures |errors| == 0 ==> h.calls == [HelpDoneInsert(HelpDoneInput(campaignId, methodId, logDonation))]
    ensures |errors| == 0 && dao.Success? ==>
              && (Answers(h.reply, 200) <==> dao.value.Present?)
              && (dao.value.Present? ==> h.reply.response.body == IdMessage(Str(dao.value.value), AddedMessage))
              && (!dao.value.Present? ==> h.reply == Send(NotAdded))
    ensures |errors| == 0 && dao.Failure? ==> h.reply == Forward(ErrorOf(dao.error))
    ensures !Answers(h.reply, 201)
  {
    if |errors| > 0 then Halt(errors)
    else
      var calls := [HelpDoneInsert(HelpDoneInput(campaignId, methodId, logDonation))];
      match dao
      case Failure(e) => Rethrow(calls, e)
      case Success(Present(id)) => Handled(calls, Send(Response(200, IdMessage(Str(id), AddedMessage))))
      case Success(_) => Handled(calls, Send(NotAdded))
  }

  /** The mapper's insert always answers an id, so a successful insert is always the 200, carrying that id. */
  lemma AddAlwaysSucceeds(campaignId: JsValue, methodId: JsValue, logDonation: JsValue, packet: Packet)
    ensures var help := HelpDoneInput(campaignId, methodId, logDonation);
            var run := HelpDoneDao.InsertOne(help, Success(packet));
            var h := Add([], campaignId, methodId, logDonation, Answered(run.result));
            && Answers(h.reply, 200)
            && h.reply.response.body.IdMessage?
            && h.reply.response.body.id.Str?
            && ParseDigits(h.reply.response.body.id.s) == packet.insertId
  {
  }

  /** What `deleteOne` resolved to: a driver packet, or any other value. */
  datatype Deleted = DeletedPacket(affectedRows: nat) | DeletedValue(value: JsValue)

  /** A resolved value whose property access throws a TypeError. */
  predicate Nullish(d: Deleted) {
    d == DeletedValue(Null) || d == DeletedValue(Undefined)
  }

  /**
    `result.affectedRows`: a packet's count; any other value has no such
    property, and reading it off `null` or `undefined` throws (`None`).
   */
  function AffectedRows(d: Deleted): (n: Option<JsValue>)
    ensures n.None? <==> Nullish(d)
    ensures d.DeletedPacket? ==> n == Some(Num(d.affectedRows))
    ensures d.DeletedValue? && !Nullish(d) ==> n == Some(Undefined)
  {
    match d
    case DeletedPacket(k) => Some(Num(k))
    case DeletedValue(Null) => None
    case DeletedValue(Undefined) => None
    case DeletedValue(_) => Some(Undefined)
  }

  const NotRemoved := ErrorResponse(400, "Ocorreu problema ao tentar remover o registro ou ele não existe mais", Num(400))

  /**
    `remove`: 204 only when the result's `affectedRows` is positive, else
    400. The property is read outside the `try`, so a `null` or `undefined`
    result rejects the handler's promise and nothing is sent.
   */
  function Remove(errors: seq<ValidationError>, paramsId: JsValue, queryId: JsValue,
                  dao: Result<Deleted, Thrown>): (h: Handled)
    ensures |errors| > 0 ==> h == Halt(errors)
    ensures |errors| == 0 ==> h.calls == [HelpDoneDelete(RequestId(paramsId, queryId))]
    ensures Answers(h.reply, 204) <==>
              |errors| == 0 && dao.Success? && dao.value.DeletedPacket? && dao.value.affectedRows > 0
    ensures h.reply == Unhandled <==> |errors| == 0 && dao.Success? && Nullish(dao.value)
    ensures |errors| == 0 && dao.Success? && !Nullish(dao.value) && !Answers(h.reply, 204) ==>
              h.reply == Send(NotRemoved)
    ensures |errors| == 0 && dao.Failure? ==> h.reply == Forward(ErrorOf(dao.error))
  {
    if |errors| > 0 then Halt(errors)
    else
      var calls := [HelpDoneDelete(RequestId(paramsId, queryId))];
      match dao
      case Failure(e) => Rethrow(calls, e)
      case Success(d) =>
        match AffectedRows(d)
        case None => Handled(calls, Unhandled)
        case Some(n) =>
          if n.Num? && n.n > 0 then Handled(calls, Send(Response(204, NoBody)))
          else Handled(calls, Send(NotRemoved))
  }

  /** A number the mapper resolves to, as the handler receives it. */
  function AsResolved(r: Result<nat, Thrown>): (d: Result<Deleted, Thrown>)
    ensures r.Failure? ==> d == Failure(r.error)
    ensures r.Success? ==> d == Success(DeletedValue(Num(r.value)))
  {
    match r
    case Failure(e) => Failure(e)
    case Success(n) => Success(DeletedValue(Num(n)))
  }

  /**
    The mapper's delete resolves to the bare count, which has no
    `affectedRows`: composed with it, `remove` never answers 204, even when
    a row was deleted.
   */
  lemma RemoveNeverSucceeds(paramsId: JsValue, queryId: JsValue, packet: Packet)
    ensures var id := RequestId(paramsId, queryId);
            var run := HelpDoneDao.DeleteOne(id, Success(packet));
            Remove([], paramsId, queryId, AsResolved(run.result)).reply == Send(NotRemoved)
  {
  }
}
