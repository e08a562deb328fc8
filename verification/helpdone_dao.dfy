/**
  The help-done data mapper: rows of `ajuda_realizada` joined with their
  help method, mapped to records whose ids are decimal strings; a single
  insert that answers the new id as a string; and a delete that answers
  the bare affected-row count.
 */
module HelpDoneDao {
  import opened Wrappers
  import opened Strings
  import opened Js
  import opened Models
  import opened Database

  /** One joined row: the help's id, its campaign, its method, the method's description and the log. */
  datatype HelpRow = HelpRow(id: nat, idCampaign: nat, idMethod: nat, methodDescription: string, logDonation: string)

  /** The record built from a row: the three ids through `toString`, the texts as they are. */
  function ToModel(row: HelpRow): (h: HelpDone)
    ensures Numbered(h)
    ensures h.methodDescription == row.methodDescription && h.logDonation == row.logDonation
  {
    HelpDone(NatToString(row.id), NatToString(row.idCampaign), NatToString(row.idMethod),
             row.methodDescription, row.logDonation)
  }

  /** The three ids of a record are decimal digit strings. */
  predicate Numbered(h: HelpDone) {
    AllDigits(h.id) && AllDigits(h.idCampaign) && AllDigits(h.idMethod)
  }

  /** Reading a record's ids back as numbers. */
  function RowOf(h: HelpDone): HelpRow
    requires Numbered(h)
  {
    HelpRow(ParseDigits(h.id), ParseDigits(h.idCampaign), ParseDigits(h.idMethod), h.methodDescription, h.logDonation)
  }

  /** Nothing of a row is lost in its record. */
  lemma RowOfToModel(row: HelpRow)
    ensures RowOf(ToModel(row)) == row
  {
    ParseNatToString(row.id);
    ParseNatToString(row.idCampaign);
    ParseNatToString(row.idMethod);
  }

  /** Distinct rows give distinct records. */
  lemma ToModelInjective(a: HelpRow, b: HelpRow)
    ensures ToModel(a) == ToModel(b) <==> a == b
  {
    if ToModel(a) == ToModel(b) {
      RowOfToModel(a);
      RowOfToModel(b);
    }
  }

  /** The rows mapped one by one, in order. */
  function MapRows(rows: seq<HelpRow>): (hs: seq<HelpDone>)
    ensures |hs| == |rows|
    ensures forall i :: 0 <= i < |rows| ==> hs[i] == ToModel(rows[i])
  {
    if rows == [] then [] else MapRows(rows[..|rows| - 1]) + [ToModel(rows[|rows| - 1])]
  }

  /** The mapped list determines its rows. */
  lemma {:induction false} MapRowsInvertible(rows: seq<HelpRow>)
    ensures seq(|rows|, i requires 0 <= i < |rows| => RowOf(MapRows(rows)[i])) == rows
  {
    forall i | 0 <= i < |rows|
      ensures RowOf(MapRows(rows)[i]) == rows[i]
    {
      RowOfToModel(rows[i]);
    }
  }

  /**
    `findAll`: every row of the campaign's help, mapped in order; the
    connection is ended either way and a thrown error propagates.
   */
  function FindAll(campaignId: JsValue, query: Result<seq<HelpRow>, Thrown>): (r: Run<seq<HelpDone>>)
    ensures Released(r.events) && r.events[0] == Exec(SelectHelpDoneOfCampaign(campaignId))
    ensures query.Failure? <==> r.result.Failure?
    ensures query.Failure? ==> r.result.error == query.error
    ensures query.Success? ==>
              && |r.result.value| == |query.value|
              && forall i :: 0 <= i < |query.value| ==>
                   Numbered(r.result.value[i]) && RowOf(r.result.value[i]) == query.value[i]
  {
    if query.Failure? then Run([Exec(SelectHelpDoneOfCampaign(campaignId)), End], Failure(query.error))
    else
      MapRowsInvertible(query.value);
      Run([Exec(SelectHelpDoneOfCampaign(campaignId)), End], Success(MapRows(query.value)))
  }

  /** `findOne`: null when no row matches, else the first row's record. */
  function FindOne(id: JsValue, query: Result<seq<HelpRow>, Thrown>): (r: Run<Nullable<HelpDone>>)
    ensures Released(r.events) && r.events[0] == Exec(SelectHelpDone(id))
    ensures query.Failure? <==> r.result.Failure?
    ensures query.Failure? ==> r.result.error == query.error
    ensures query.Success? ==> (r.result.value.IsNull? <==> query.value == [])
    ensures query.Success? && query.value != [] ==>
              && r.result.value.Present? && Numbered(r.result.value.value)
              && RowOf(r.result.value.value) == query.value[0]
  {
    if query.Failure? then Run([Exec(SelectHelpDone(id)), End], Failure(query.error))
    else if query.value == [] then Run([Exec(SelectHelpDone(id)), End], Success(IsNull))
    else
      RowOfToModel(query.value[0]);
      Run([Exec(SelectHelpDone(id)), End], Success(Present(ToModel(query.value[0]))))
  }

  /** `insertOne`: the new row's id, as a decimal string. */
  function InsertOne(help: HelpDoneInput, query: Result<Packet, Thrown>): (r: Run<string>)
    ensures Released(r.events)
    ensures r.events[0] == Exec(InsertHelpDone(help.idCampaign, help.idMethod, help.logDonation))
    ensures query.Failure? <==> r.result.Failure?
    ensures query.Failure? ==> r.result.error == query.error
    ensures query.Success? ==>
              && AllDigits(r.result.value) && |r.result.value| > 0
              && ParseDigits(r.result.value) == query.value.insertId
  {
    var stmt := Exec(InsertHelpDone(help.idCampaign, help.idMethod, help.logDonation));
    if query.Failure? then Run([stmt, End], Failure(query.error))
    else
      ParseNatToString(query.value.insertId);
      Run([stmt, End], Success(NatToString(query.value.insertId)))
  }

  /**
    `deleteOne`: the affected-row count itself, a plain number rather
    than the driver's packet.
   */
  function DeleteOne(id: JsValue, query: Result<Packet, Thrown>): (r: Run<nat>)
    ensures Released(r.events) && r.events[0] == Exec(DeleteHelpDone(id))
    ensures query.Failure? <==> r.result.Failure?
    ensures query.Failure? ==> r.result.error == query.error
    ensures query.Success? ==> r.result.value == query.value.affectedRows
  {
    if query.Failure? then Run([Exec(DeleteHelpDone(id)), End], Failure(query.error))
    else Run([Exec(DeleteHelpDone(id)), End], Success(query.value.affectedRows))
  }
}
