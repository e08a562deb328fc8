/**
  The campaign request handlers. Each one first stops with 422 when the
  validation chain reported errors, then calls the campaign data mapper
  once, and answers from the mapper's outcome; a thrown error is handed to
  the application's error handler with its text and code.
 */
module CampaignService {
  import opened Wrappers
  import opened Strings
  import opened Js
  import opened Models
  import opened Database
  import opened Http
  import opened Validators
  import opened Security
  import CampaignFold
  import CampaignDao

  /** The rules of `add` and `update`: title, description and contact of at least three characters, in that order. */
  function BodyErrors(title: JsValue, description: JsValue, contact: JsValue): (errors: seq<ValidationError>)
    ensures errors == [] <==> MinLength(title, 3) && MinLength(description, 3) && MinLength(contact, 3)
    ensures Names(errors, "title") <==> !MinLength(title, 3)
    ensures Names(errors, "description") <==> !MinLength(description, 3)
    ensures Names(errors, "contact") <==> !MinLength(contact, 3)
    ensures |errors| <= 3
  {
    var t := Rule(MinLength(title, 3), "title", "Título deve ter no mínimo 3 caracteres");
    var d := Rule(MinLength(description, 3), "description", "Descrição deve ter no mínimo 3 caracteres");
    var c := Rule(MinLength(contact, 3), "contact", "Contato deve ter no mínimo 3 caracteres");
    ThreeRules(MinLength(title, 3), "title", "Título deve ter no mínimo 3 caracteres",
               MinLength(description, 3), "description", "Descrição deve ter no mínimo 3 caracteres",
               MinLength(contact, 3), "contact", "Contato deve ter no mínimo 3 caracteres");
    t + d + c
  }

  /** `q || ''`: the search text handed to the mapper. */
  function SearchText(q: JsValue): (t: JsValue)
    ensures Truthy(q) ==> t == q
    ensures !Truthy(q) ==> t == Str("")
  {
    Or(q, Str(""))
  }

  /** The filters handed to the mapper: the query's list when it is one, else an empty list. */
  function Filters(filters: QueryParam): (f: QueryParam)
    ensures f.List?
    ensures filters.List? ==> f == filters
    ensures !filters.List? ==> f.items == []
  {
    if filters.List? then filters else List([])
  }

  /** `getAll`: 200 with the campaigns found, whatever their number. */
  function GetAll(errors: seq<ValidationError>, q: JsValue, filters: QueryParam,
                  dao: Result<seq<Campaign>, Thrown>): (h: Handled)
    ensures |errors| > 0 ==> h == Halt(errors)
    ensures |errors| == 0 ==>
              && |h.calls| == 1 && h.calls[0].CampaignFindAll?
              && (Truthy(q) ==> h.calls[0].searchText == q)
              && (!Truthy(q) ==> h.calls[0].searchText == Str(""))
              && (filters.List? ==> h.calls[0].filters == filters)
              && (!filters.List? ==> h.calls[0].filters == List([]))
              && (dao.Success? <==> Answers(h.reply, 200))
              && (dao.Success? ==> h.reply.response.body == CampaignList(dao.value))
              && (dao.Failure? ==> h.reply == Forward(ErrorOf(dao.error)))
  {
    if |errors| > 0 then Halt(errors)
    else
      var calls := [CampaignFindAll(SearchText(q), Filters(filters))];
      match dao
      case Failure(e) => Rethrow(calls, e)
      case Success(cs) => Handled(calls, Send(Response(200, CampaignList(cs))))
  }

  /**
    `getAll` over the mapper: the search sent is the one the defaulted text
    and filters call for, and a successful query answers 200 with its rows
    folded into campaigns. With no text and no list of filters the search
    is unrestricted.
   */
  method GetAllSearches(q: JsValue, filters: QueryParam, query: Result<seq<CampaignFold.Row>, Thrown>)
    returns (h: Handled, run: Run<seq<Campaign>>)
    ensures var text := SearchText(q);
            var fs := Filters(filters);
            run.events == [Exec(SelectCampaigns(CampaignDao.ExpectedClause(text, fs), CampaignDao.SearchParams(text, fs))), End]
    ensures h.calls == [CampaignFindAll(SearchText(q), Filters(filters))]
    ensures query.Success? ==> h.reply == Send(Response(200, CampaignList(CampaignFold.Fold(query.value))))
    ensures query.Failure? ==> h.reply == Forward(ErrorOf(query.error))
    ensures !Truthy(q) && !filters.List? ==> run.events[0] == Exec(SelectCampaigns("", []))
  {
    run := CampaignDao.FindAll(SearchText(q), Filters(filters), query);
    h := GetAll([], q, filters, run.result);
  }

  /** `getById`: 200 with the campaign, or 400 when the mapper found none. */
  function GetById(errors: seq<ValidationError>, id: JsValue, dao: Result<Nullable<Campaign>, Thrown>): (h: Handled)
    ensures |errors| > 0 ==> h == Halt(errors)
    ensures |errors| == 0 ==> h.calls == [CampaignFindOne(id)]
    ensures |errors| == 0 && dao.Success? ==>
              && (Answers(h.reply, 200) <==> dao.value.Present?)
              && (dao.value.Present? ==> h.reply.response.body == OneCampaign(dao.value.value))
              && (!dao.value.Present? ==> h.reply == Send(NotFound))
    ensures |errors| == 0 && dao.Failure? ==> h.reply == Forward(ErrorOf(dao.error))
  {
    if |errors| > 0 then Halt(errors)
    else
      var calls := [CampaignFindOne(id)];
      match dao
      case Failure(e) => Rethrow(calls, e)
      case Success(IsNull) => Handled(calls, Send(NotFound))
      case Success(IsUndefined) => Handled(calls, Send(NotFound))
      case Success(Present(c)) => Handled(calls, Send(Response(200, OneCampaign(c))))
  }

  /**
    `getById` over the mapper: 400 exactly when no row has the id;
    otherwise 200 with the first row's campaign and the methods of every
    row.
   */
  lemma GetByIdNotFoundIffNoRow(id: JsValue, rows: seq<CampaignFold.Row>)
    ensures var h := GetById([], id, CampaignDao.FindOne(id, Success(rows)).result);
            && (h.reply == Send(NotFound) <==> rows == [])
            && (Answers(h.reply, 200) <==> rows != [])
            && (rows != [] ==>
                  && h.reply.response.body.OneCampaign?
                  && h.reply.response.body.campaign.id == CampaignFold.Key(rows[0])
                  && h.reply.response.body.campaign.helpMethods == CampaignFold.MethodsFor(rows, CampaignFold.Key(rows[0])))
  {
  }

  /** `getByUserId`: 200 with the user's campaigns, or 400 when the mapper answered null or undefined. */
  function GetByUserId(errors: seq<ValidationError>, id: JsValue, dao: Result<Nullable<seq<Campaign>>, Thrown>): (h: Handled)
    ensures |errors| > 0 ==> h == Halt(errors)
    ensures |errors| == 0 ==> h.calls == [CampaignFindByUser(id)]
    ensures |errors| == 0 && dao.Success? ==>
              && (Answers(h.reply, 200) <==> dao.value.Present?)
              && (dao.value.Present? ==> h.reply.response.body == CampaignList(dao.value.value))
              && (!dao.value.Present? ==> h.reply == Send(NotFound))
    ensures |errors| == 0 && dao.Failure? ==> h.reply == Forward(ErrorOf(dao.error))
  {
    if |errors| > 0 then Halt(errors)
    else
      var calls := [CampaignFindByUser(id)];
      match dao
      case Failure(e) => Rethrow(calls, e)
      case Success(Present(cs)) => Handled(calls, Send(Response(200, CampaignList(cs))))
      case Success(_) => Handled(calls, Send(NotFound))
  }

  /**
    Since the user finder answers an array whenever its query succeeds, the
    400 branch of `getByUserId` is unreachable: every successful query is a
    200 with the folded campaigns.
   */
  lemma GetByUserIdNeverNotFound(id: JsValue, rows: seq<CampaignFold.Row>)
    ensures var h := GetByUserId([], id, Answered(CampaignDao.FindByUser(id, Success(rows)).result));
            && h.reply == Send(Response(200, CampaignList(CampaignFold.Fold(rows))))
            && h.reply != Send(NotFound)
  {
  }

  /** A single `filters` value is not a list, so the search runs unfiltered. */
  lemma SingleFilterIgnored(q: JsValue, text: string, dao: Result<seq<Campaign>, Thrown>)
    ensures GetAll([], q, Scalar(text), dao).calls[0].filters == List([])
    ensures !CampaignDao.HasFilters(GetAll([], q, Scalar(text), dao).calls[0].filters)
  {
  }

  /** `add`: the owner is the token's user id; 201 with the new id and a message. */
  function Add(errors: seq<ValidationError>, decoded: Claims, title: JsValue, description: JsValue, contact: JsValue,
               helpMethods: MethodList, dao: Result<string, Thrown>): (h: Handled)
    ensures |errors| > 0 ==> h == Halt(errors)
    ensures |errors| == 0 ==>
              && |h.calls| == 1 && h.calls[0].CampaignInsert?
              && h.calls[0].owner == decoded.id
              && h.calls[0].campaign.title == title
              && h.calls[0].campaign.description == description
              && h.calls[0].campaign.contact == contact
              && h.calls[0].campaign.id == Undefined
              && (helpMethods.MethodsUndefined? ==> h.calls[0].campaign.helpMethods == Methods([]))
              && (!helpMethods.MethodsUndefined? ==> h.calls[0].campaign.helpMethods == helpMethods)
    ensures |errors| == 0 && dao.Success? ==>
              h.reply == Send(Response(201, IdMessage(Str(dao.value), "Campanha criada com sucesso")))
    ensures |errors| == 0 && dao.Failure? ==> h.reply == Forward(ErrorOf(dao.error))
  {
    if |errors| > 0 then Halt(errors)
    else
      var calls := [CampaignInsert(decoded.id, NewCampaignModel(Undefined, title, description, contact, helpMethods))];
      match dao
      case Failure(e) => Rethrow(calls, e)
      case Success(id) => Handled(calls, Send(Response(201, IdMessage(Str(id), "Campanha criada com sucesso"))))
  }

  /**
    `add` over the store: with no fault, a valid body and a method list,
    the answer is 201 with the id the new campaign receives, and the store
    holds the campaign owned by the token's user with its methods linked.
    A missing method list counts as empty.
   */
  method AddCreates(st: CampaignDao.Store, decoded: Claims, title: JsValue, description: JsValue, contact: JsValue,
                    helpMethods: MethodList)
    returns (h: Handled, after: CampaignDao.Store)
    ensures BodyErrors(title, description, contact) == [] && !helpMethods.MethodsNull? ==>
              && h.reply == Send(Response(201, IdMessage(Str(NatToString(st.nextId)), "Campanha criada com sucesso")))
              && st.nextId in after.campaigns
              && after.campaigns[st.nextId].owner == decoded.id
              && after.campaigns[st.nextId].title == title
              && (forall m :: helpMethods.Methods? && m in helpMethods.ids ==> (st.nextId, m) in after.links)
    ensures BodyErrors(title, description, contact) != [] ==>
              h.reply.Send? && h.reply.response.status == 422 && h.calls == [] && after == st
    ensures BodyErrors(title, description, contact) == [] && helpMethods.MethodsNull? ==>
              h.reply == Forward(ErrorModel(Undefined, Undefined)) && after == st
  {
    var errors := BodyErrors(title, description, contact);
    if |errors| > 0 {
      return Halt(errors), st;
    }
    var input := NewCampaignModel(Undefined, title, description, contact, helpMethods);
    var run := CampaignDao.InsertOne(st, decoded.id, input, None);
    h := Add(errors, decoded, title, description, contact, helpMethods, run.result);
    after := run.store;
    assert forall m :: helpMethods.Methods? && m in helpMethods.ids ==> (st.nextId, m) in CampaignDao.LinksTo(st.nextId, LinkedIds(input.helpMethods));
  }

  /** `update`: the campaign id comes from the path; 200 whose `id` field holds the affected-row count. */
  function Update(errors: seq<ValidationError>, id: JsValue, title: JsValue, description: JsValue, contact: JsValue,
                  helpMethods: MethodList, dao: Result<nat, Thrown>): (h: Handled)
    ensures |errors| > 0 ==> h == Halt(errors)
    ensures |errors| == 0 ==>
              && |h.calls| == 1 && h.calls[0].CampaignUpdate?
              && h.calls[0].campaign.id == id
              && h.calls[0].campaign.title == title
              && h.calls[0].campaign.description == description
              && h.calls[0].campaign.contact == contact
              && (helpMethods.MethodsUndefined? ==> h.calls[0].campaign.helpMethods == Methods([]))
              && (!helpMethods.MethodsUndefined? ==> h.calls[0].campaign.helpMethods == helpMethods)
    ensures |errors| == 0 && dao.Success? ==>
              h.reply == Send(Response(200, IdMessage(Num(dao.value), "Campanha atualizada com sucesso")))
    ensures |errors| == 0 && dao.Failure? ==> h.reply == Forward(ErrorOf(dao.error))
  {
    if |errors| > 0 then Halt(errors)
    else
      var calls := [CampaignUpdate(NewCampaignModel(id, title, description, contact, helpMethods))];
      match dao
      case Failure(e) => Rethrow(calls, e)
      case Success(n) => Handled(calls, Send(Response(200, IdMessage(Num(n), "Campanha atualizada com sucesso"))))
  }

  /**
    `update` over the store: with no fault, a valid body and a method list
    that is not `null`, the answer is 200 whose `id` is 1 when the campaign
    exists and 0 when it does not; its links become exactly the supplied
    methods (none for a missing list), and no other campaign's links or row
    change.
   */
  method UpdateReplaces(st: CampaignDao.Store, key: nat, title: JsValue, description: JsValue, contact: JsValue,
                        helpMethods: MethodList)
    returns (h: Handled, after: CampaignDao.Store)
    ensures BodyErrors(title, description, contact) == [] && !helpMethods.MethodsNull? ==>
              && h.reply == Send(Response(200, IdMessage(Num(if key in st.campaigns then 1 else 0),
                                                         "Campanha atualizada com sucesso")))
              && CampaignDao.LinksOf(after.links, key) == (set m | m in LinkedIds(helpMethods))
              && (forall k, m :: k != key ==> ((k, m) in after.links <==> (k, m) in st.links))
              && after.campaigns.Keys == st.campaigns.Keys
              && (forall k :: k in st.campaigns && k != key ==> after.campaigns[k] == st.campaigns[k])
              && (key in st.campaigns ==>
                    after.campaigns[key] == st.campaigns[key].(title := title, description := description, contact := contact))
    ensures BodyErrors(title, description, contact) != [] ==>
              h.reply.Send? && h.reply.response.status == 422 && h.calls == [] && after == st
    ensures BodyErrors(title, description, contact) == [] && helpMethods.MethodsNull? ==>
              h.reply == Forward(ErrorModel(Undefined, Undefined)) && after == st
  {
    var errors := BodyErrors(title, description, contact);
    if |errors| > 0 {
      return Halt(errors), st;
    }
    var input := NewCampaignModel(Str(NatToString(key)), title, description, contact, helpMethods);
    assert LinkedIds(input.helpMethods) == LinkedIds(helpMethods);
    var run := CampaignDao.UpdateOne(st, key, input, None);
    h := Update(errors, Str(NatToString(key)), title, description, contact, helpMethods, run.result);
    after := run.store;
  }

  /** `remove`: 204 whenever the mapper does not throw, whether or not a row was deleted. */
  function Remove(errors: seq<ValidationError>, id: JsValue, dao: Result<nat, Thrown>): (h: Handled)
    ensures |errors| > 0 ==> h == Halt(errors)
    ensures |errors| == 0 ==> h.calls == [CampaignDelete(id)]
    ensures |errors| == 0 ==> (Answers(h.reply, 204) <==> dao.Success?)
    ensures |errors| == 0 && dao.Success? ==> h.reply.response.body == NoBody
    ensures |errors| == 0 && dao.Failure? ==> h.reply == Forward(ErrorOf(dao.error))
  {
    if |errors| > 0 then Halt(errors)
    else
      match dao
      case Failure(e) => Rethrow([CampaignDelete(id)], e)
      case Success(_) => Handled([CampaignDelete(id)], Send(Response(204, NoBody)))
  }

  /** Removing answers the same whether the mapper deleted a row or none. */
  lemma RemoveIgnoresCount(id: JsValue, a: nat, b: nat)
    ensures Remove([], id, Success(a)) == Remove([], id, Success(b))
  {
  }

  /**
    `remove` over the store: 204 exactly when the DELETE does not throw,
    and then the campaign is gone; otherwise the error is handed on and the
    store is unchanged.
   */
  lemma RemoveDeletes(st: CampaignDao.Store, key: nat, fault: Option<Fault>)
    ensures var run := CampaignDao.DeleteOne(st, key, fault);
            var h := Remove([], Str(NatToString(key)), run.result);
            && (Answers(h.reply, 204) <==> !Throws(fault, 0))
            && (Answers(h.reply, 204) ==> key !in run.store.campaigns)
            && (Throws(fault, 0) ==> h.reply == Forward(ErrorOf(fault.value.error)) && run.store == st)
  {
  }
}
