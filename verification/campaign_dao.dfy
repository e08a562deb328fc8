/**
  The campaign data mapper: the WHERE clause of the search, the three
  finders (which fold their rows with `CampaignFold.Fold`), and insert,
  update and delete over an abstract store of campaign rows and
  (campaign, help method) links.
 */
module CampaignDao {
  import opened Wrappers
  import opened Strings
  import opened Js
  import opened Models
  import opened Database
  import opened Validators
  import opened CampaignFold

  // The search clause.

  const TitleLike := "WHERE ap.titulo LIKE "
  const DescriptionLike := " OR ap.descricao LIKE "
  const FilterColumn := "apf.id_forma = "
  /** `WHERE ap.titulo LIKE ? OR ap.descricao LIKE ?`. */
  const SearchClause := TitleLike + "?" + DescriptionLike + "?"
  /** `apf.id_forma = ?`. */
  const FilterTerm := FilterColumn + "?"

  /** A WHERE clause and the values for its placeholders, in order. */
  datatype Where = Where(clause: string, params: seq<string>)

  /** `n` copies of the filter term. */
  function FilterTerms(n: nat): (ts: seq<string>)
    ensures |ts| == n && forall i :: 0 <= i < n ==> ts[i] == FilterTerm
  {
    seq(n, _ => FilterTerm)
  }

  /** The filter terms joined by `OR`, with nothing grouping them further. */
  function FilterDisjunction(n: nat): string {
    Join(FilterTerms(n), " OR ")
  }

  /** Whether `filters` is an array with at least one element. */
  predicate HasFilters(filters: QueryParam) {
    filters.List? && |filters.items| > 0
  }

  /** The clause the search text and the filters call for. */
  function ExpectedClause(searchText: JsValue, filters: QueryParam): string {
    (if !IsBlank(searchText) then SearchClause else "")
    + (if HasFilters(filters) then
         (if !IsBlank(searchText) then " AND " else "WHERE ") + "(" + FilterDisjunction(|filters.items|) + ")"
       else "")
  }

  /** `'%' + searchText + '%'`. */
  function LikePattern(searchText: JsValue): string {
    "%" + ToJsString(searchText) + "%"
  }

  /** The values the search binds: the search pattern twice for non-blank text, then the filter ids as given. */
  function SearchParams(searchText: JsValue, filters: QueryParam): seq<string> {
    (if !IsBlank(searchText) then [LikePattern(searchText), LikePattern(searchText)] else [])
    + (if HasFilters(filters) then filters.items else [])
  }

  /**
    Builds the WHERE clause of the campaign search. Each placeholder has
    exactly one value; the two search values come first, then the filter
    ids as given. Blank search text and no filters give no clause at all.
   */
  method BuildWhere(searchText: JsValue, filters: QueryParam) returns (w: Where)
    ensures Count(w.clause, '?') == |w.params|
    ensures IsBlank(searchText) && !HasFilters(filters) ==> w == Where("", [])
    ensures w.params == SearchParams(searchText, filters)
    ensures w.clause == ExpectedClause(searchText, filters)
  {
    var clause := WhereClause(searchText, filters);
    var params: seq<string> := [];
    if !IsBlank(searchText) {
      params := [LikePattern(searchText), LikePattern(searchText)];
    }
    if filters.List? && |filters.items| > 0 {
      params := params + filters.items;
    }
    w := Where(clause, params);
    ClauseCount(searchText, filters, clause);
  }

  /** The clause half of `BuildWhere`, in the order the source appends it. */
  method WhereClause(searchText: JsValue, filters: QueryParam) returns (clause: string)
    ensures clause == ExpectedClause(searchText, filters)
  {
    clause := "";
    if !IsBlank(searchText) {
      clause := SearchClause;
    }
    if filters.List? && |filters.items| > 0 {
      clause := clause + (if |clause| > 0 then " AND " else "WHERE ");
      clause := clause + "(";
      clause := AppendFilterTerms(clause, |filters.items|);
      clause := clause + ")";
    }
  }

  /** The loop that appends `n` filter terms separated by `OR`. */
  method AppendFilterTerms(head: string, n: nat) returns (clause: string)
    ensures clause == head + FilterDisjunction(n)
  {
    clause := head;
    var i := 0;
    while i < n
      invariant 0 <= i <= n
      invariant i == 0 ==> clause == head
      invariant i > 0 ==> clause == head + FilterDisjunction(i) + (if i < n then " OR " else "")
    {
      if i == 0 {
        assert FilterTerms(1) == [FilterTerm];
      } else {
        assert FilterTerms(i + 1) == FilterTerms(i) + [FilterTerm];
        JoinSnoc(FilterTerms(i), FilterTerm, " OR ");
      }
      clause := clause + FilterTerm;
      assert clause == head + FilterDisjunction(i + 1);
      if i < n - 1 {
        clause := clause + " OR ";
      }
      i := i + 1;
    }
    if n == 0 {
      assert FilterTerms(0) == [];
      assert clause == head + "";
    }
  }

  lemma NoPlaceholder(s: string)
    requires '?' !in s
    ensures Count(s, '?') == 0
  {
    CountAbsent(s, '?');
  }

  lemma OnePlaceholder(s: string)
    requires '?' !in s
    ensures Count(s + "?", '?') == 1
  {
    CountConcat(s, "?", '?');
    NoPlaceholder(s);
  }

  lemma FilterTermCount()
    ensures Count(FilterTerm, '?') == 1
  {
    assert '?' !in FilterColumn;
    OnePlaceholder(FilterColumn);
  }

  /** The disjunction of `n` terms has `n` placeholders. */
  lemma {:induction false} DisjunctionCount(n: nat)
    ensures Count(FilterDisjunction(n), '?') == n
  {
    FilterTermCount();
    if n == 1 {
      assert FilterTerms(1) == [FilterTerm];
    } else if n > 1 {
      DisjunctionCount(n - 1);
      assert FilterTerms(n) == FilterTerms(n - 1) + [FilterTerm];
      JoinSnoc(FilterTerms(n - 1), FilterTerm, " OR ");
      CountConcat(FilterDisjunction(n - 1) + " OR ", FilterTerm, '?');
      CountConcat(FilterDisjunction(n - 1), " OR ", '?');
      assert '?' !in " OR ";
      NoPlaceholder(" OR ");
    }
  }

  lemma SearchClauseCount()
    ensures Count(SearchClause, '?') == 2
  {
    assert '?' !in TitleLike;
    assert '?' !in DescriptionLike;
    OnePlaceholder(TitleLike);
    OnePlaceholder(DescriptionLike);
    CountConcat(TitleLike + "?", DescriptionLike + "?", '?');
    assert SearchClause == (TitleLike + "?") + (DescriptionLike + "?");
  }

  lemma FilterGroupCount(joiner: string, n: nat)
    requires '?' !in joiner
    ensures Count(joiner + "(" + FilterDisjunction(n) + ")", '?') == n
  {
    NoPlaceholder(joiner);
    assert '?' !in "(" && '?' !in ")";
    NoPlaceholder("(");
    NoPlaceholder(")");
    DisjunctionCount(n);
    CountConcat(joiner + "(" + FilterDisjunction(n), ")", '?');
    CountConcat(joiner + "(", FilterDisjunction(n), '?');
    CountConcat(joiner, "(", '?');
  }

  lemma ClauseCount(searchText: JsValue, filters: QueryParam, clause: string)
    requires clause == ExpectedClause(searchText, filters)
    ensures Count(clause, '?')
         == (if !IsBlank(searchText) then 2 else 0) + (if HasFilters(filters) then |filters.items| else 0)
  {
    var s := if !IsBlank(searchText) then SearchClause else "";
    SearchClauseCount();
    if HasFilters(filters) {
      var joiner := if !IsBlank(searchText) then " AND " else "WHERE ";
      assert '?' !in joiner;
      FilterGroupCount(joiner, |filters.items|);
      CountConcat(s, joiner + "(" + FilterDisjunction(|filters.items|) + ")", '?');
    } else {
      assert s + "" == s;
      assert ExpectedClause(searchText, filters) == s;
    }
  }

  /** With both search text and filters, the clause is the search disjunction `AND` the filter group, ungrouped. */
  lemma SearchAndFiltersClause(searchText: JsValue, ids: seq<string>)
    requires !IsBlank(searchText) && |ids| > 0
    ensures ExpectedClause(searchText, List(ids))
         == SearchClause + " AND (" + FilterDisjunction(|ids|) + ")"
  {
  }

  // The finders.

  /**
    `findAll`: the rows of the search, folded. The one statement sent is
    the search with the clause and values the text and filters call for,
    one value per placeholder. The connection is ended whether or not the
    query throws, and a thrown error propagates unchanged.
   */
  method FindAll(searchText: JsValue, filters: QueryParam, query: Result<seq<Row>, Thrown>)
    returns (r: Run<seq<Campaign>>)
    ensures Released(r.events)
    ensures r.events == [Exec(SelectCampaigns(ExpectedClause(searchText, filters), SearchParams(searchText, filters))), End]
    ensures Count(r.events[0].statement.where, '?') == |r.events[0].statement.params|
    ensures query.Failure? ==> r.result == Failure(query.error)
    ensures query.Success? ==> r.result == Success(Fold(query.value))
  {
    var w := BuildWhere(searchText, filters);
    r := Run([Exec(SelectCampaigns(w.clause, w.params)), End],
             if query.Success? then Success(Fold(query.value)) else Failure(query.error));
  }

  /** `findByUser`: the user's rows, folded; always an array when the query succeeds. */
  function FindByUser(userId: JsValue, query: Result<seq<Row>, Thrown>): (r: Run<seq<Campaign>>)
    ensures Released(r.events) && r.events[0] == Exec(SelectCampaignsOfUser(userId))
    ensures query.Failure? <==> r.result.Failure?
    ensures query.Failure? ==> r.result.error == query.error
    ensures query.Success? ==> r.result.value == Fold(query.value)
  {
    Run([Exec(SelectCampaignsOfUser(userId)), End],
        if query.Success? then Success(Fold(query.value)) else Failure(query.error))
  }

  /**
    `findOne`: null when there are no rows; otherwise the first folded
    campaign, which is the first row's campaign with the methods of every
    row sharing its id.
   */
  function FindOne(campaignId: JsValue, query: Result<seq<Row>, Thrown>): (r: Run<Nullable<Campaign>>)
    ensures Released(r.events) && r.events[0] == Exec(SelectCampaign(campaignId))
    ensures query.Failure? <==> r.result.Failure?
    ensures query.Failure? ==> r.result.error == query.error
    ensures query.Success? ==> (r.result.value.IsNull? <==> query.value == [])
    ensures query.Success? && query.value != [] ==>
              var rows := query.value;
              && r.result.value.Present?
              && r.result.value.value.id == Key(rows[0])
              && r.result.value.value.title == rows[0].titulo
              && r.result.value.value.description == rows[0].descricao
              && r.result.value.value.contact == rows[0].contato
              && r.result.value.value.helpMethods == MethodsFor(rows, Key(rows[0]))
  {
    if query.Failure? then Run([Exec(SelectCampaign(campaignId)), End], Failure(query.error))
    else
      var campaigns := Fold(query.value);
      FirstCampaign(query.value);
      Run([Exec(SelectCampaign(campaignId)), End],
          if |campaigns| > 0 then Success(Present(campaigns[0])) else Success(IsNull))
  }

  /** The first folded campaign belongs to the first row. */
  lemma FirstCampaign(rows: seq<Row>)
    ensures |Fold(rows)| > 0 <==> rows != []
    ensures rows != [] ==>
              var c := Fold(rows)[0];
              && c.id == Key(rows[0])
              && c.title == rows[0].titulo && c.description == rows[0].descricao && c.contact == rows[0].contato
              && c.helpMethods == MethodsFor(rows, Key(rows[0]))
  {
    FoldIds(rows);
    FoldFields(rows);
    if rows != [] {
      var ks := Keys(rows);
      assert ks == [ks[0]] + ks[1..];
      DedupFirst(ks);
      IndexOfFirst(ks, ks[0], 0);
    }
  }

  lemma {:induction false} DedupFirst(xs: seq<string>)
    requires xs != []
    ensures |Dedup(xs)| > 0 && Dedup(xs)[0] == xs[0]
    decreases |xs|
  {
    if |xs| > 1 {
      var p := xs[..|xs| - 1];
      var x := xs[|xs| - 1];
      assert xs == p + [x] && p[0] == xs[0];
      DedupFirst(p);
      DedupSnoc(p, x);
      assert Dedup(xs)[0] == Dedup(p)[0];
    }
  }

  // Writes, over an abstract store.

  /** A stored campaign row (`ajuda_pedido`). */
  datatype CampaignRecord = CampaignRecord(owner: JsValue, title: JsValue, description: JsValue, contact: JsValue)

  /**
    The tables the writes touch: campaign rows by id, the (campaign id,
    help-method id) links, and the id the next insert receives.
   */
  datatype Store = Store(campaigns: map<nat, CampaignRecord>, links: set<(nat, int)>, nextId: nat)

  /** Every stored id was handed out before `nextId`. */
  predicate Valid(st: Store) {
    forall k :: k in st.campaigns ==> k < st.nextId
  }

  /** A transactional write: the connection's trace, the outcome, and the store afterwards. */
  datatype TxRun<T> = TxRun(events: seq<Event>, result: Result<T, Thrown>, store: Store)

  /** Some operation numbered below `n` throws. */
  predicate FaultBefore(fault: Option<Fault>, n: nat) {
    fault.Some? && fault.value.at < n
  }

  /** The events of inserting one link per method id. */
  function LinkEvents(key: nat, ids: seq<int>): (es: seq<Event>)
    ensures |es| == |ids| && forall j :: 0 <= j < |es| ==> es[j] == Exec(InsertCampaignMethod(key, ids[j]))
  {
    seq(|ids|, j requires 0 <= j < |ids| => Exec(InsertCampaignMethod(key, ids[j])))
  }

  /** The links from `key` to each of `ids`. */
  function LinksTo(key: nat, ids: seq<int>): set<(nat, int)> {
    set m | m in ids :: (key, m)
  }

  /** A failed transaction: the operations issued so far, then rollback and end; the store is untouched. */
  function Abort<T>(issued: seq<Event>, e: Thrown, st: Store): (r: TxRun<T>)
    requires End !in issued
    ensures Released(r.events) && |r.events| >= 2 && r.events[|r.events| - 2] == Rollback
    ensures r.result == Failure(e) && r.store == st
  {
    TxRun(issued + [Rollback, End], Failure(e), st)
  }

  /**
    `insertOne`: inside one transaction, insert the campaign row and then
    one link per help method. Any failure rolls back and rethrows, leaving
    the store as it was; success commits everything and returns the new id
    as a string. A `null` or missing method list throws a TypeError after
    the campaign row is written, which the rollback undoes; a method list
    that is not a list links nothing.
   */
  method InsertOne(st: Store, userId: JsValue, c: CampaignInput, fault: Option<Fault>) returns (r: TxRun<string>)
    ensures Released(r.events) && r.events[0] == Begin
    ensures r.result.Success? <==>
              !NullishMethods(c.helpMethods) && !FaultBefore(fault, 3 + |LinkedIds(c.helpMethods)|)
    ensures r.result.Failure? ==>
              && r.store == st
              && r.events[|r.events| - 2] == Rollback
              && r.result.error == (if FaultBefore(fault, 2) || !NullishMethods(c.helpMethods) then fault.value.error else TypeError)
    ensures r.result.Success? ==>
              && r.events[|r.events| - 2] == Commit && Rollback !in r.events
              && r.result.value == NatToString(st.nextId)
              && r.store.campaigns == st.campaigns[st.nextId := CampaignRecord(userId, c.title, c.description, c.contact)]
              && r.store.links == st.links + LinksTo(st.nextId, LinkedIds(c.helpMethods))
              && r.store.nextId == st.nextId + 1
    ensures r.result.Success? && c.helpMethods.MethodsOther? ==> r.store.links == st.links
    ensures Valid(st) ==> Valid(r.store) && st.nextId !in st.campaigns
  {
    var events := [Begin];
    if Throws(fault, 0) {
      return Abort(events, fault.value.error, st);
    }
    var key := st.nextId;
    var row := CampaignRecord(userId, c.title, c.description, c.contact);
    events := events + [Exec(InsertCampaign(userId, c.title, c.description, c.contact))];
    if Throws(fault, 1) {
      return Abort(events, fault.value.error, st);
    }
    if NullishMethods(c.helpMethods) {
      return Abort(events, TypeError, st);
    }
    var work := Store(st.campaigns[key := row], st.links, key + 1);
    r := LinkAndCommit(st, work, events, key, LinkedIds(c.helpMethods), fault, 2, NatToString(key));
  }

  /**
    The tail both transactional writes share: one link insert per method
    id, numbered from `first`, then commit and end. `work` is the store as
    the earlier statements left it; any failure rolls back to `st`.
   */
  method LinkAndCommit<T>(st: Store, work: Store, events: seq<Event>, key: nat, ids: seq<int>,
                          fault: Option<Fault>, first: nat, value: T)
    returns (r: TxRun<T>)
    requires !FaultBefore(fault, first)
    requires |events| > 0 && End !in events && Rollback !in events
    ensures Released(r.events) && r.events[0] == events[0]
    ensures r.result.Success? <==> !FaultBefore(fault, first + |ids| + 1)
    ensures r.result.Failure? ==>
              r.store == st && r.events[|r.events| - 2] == Rollback && r.result.error == fault.value.error
    ensures r.result.Success? ==>
              && r.events[|r.events| - 2] == Commit && Rollback !in r.events
              && r.result.value == value
              && r.store == work.(links := work.links + LinksTo(key, ids))
  {
    var out, failed, links := InsertLinks(events, work.links, key, ids, fault, first);
    if failed.Some? {
      return Abort(out, failed.value, st);
    }
    var done := out + [Commit];
    if Throws(fault, first + |ids|) {
      return Abort(done, fault.value.error, st);
    }
    r := TxRun(done + [End], Success(value), work.(links := links));
  }

  /** The help-method ids linked to `key`. */
  function LinksOf(links: set<(nat, int)>, key: nat): set<int> {
    set l | l in links && l.0 == key :: l.1
  }

  /**
    `updateOne`: inside one transaction, update the campaign's title,
    description and contact, delete all of its links, then insert one link
    per supplied method. The links are replaced, not merged; other
    campaigns' links are untouched; the result is the UPDATE's affected-row
    count (1 when the campaign exists, else 0). A method list that is not a
    list inserts nothing, so the campaign is left with no links. Any
    failure rolls back and rethrows. `key` is the id the database matches `campaign.id` against.
   */
  method UpdateOne(st: Store, key: nat, c: CampaignInput, fault: Option<Fault>) returns (r: TxRun<nat>)
    ensures Released(r.events) && r.events[0] == Begin
    ensures r.result.Success? <==>
              !NullishMethods(c.helpMethods) && !FaultBefore(fault, 4 + |LinkedIds(c.helpMethods)|)
    ensures r.result.Failure? ==>
              && r.store == st
              && r.events[|r.events| - 2] == Rollback
              && r.result.error == (if FaultBefore(fault, 3) || !NullishMethods(c.helpMethods) then fault.value.error else TypeError)
    ensures r.result.Success? ==>
              && r.events[|r.events| - 2] == Commit && Rollback !in r.events
              && r.result.value == (if key in st.campaigns then 1 else 0)
              && LinksOf(r.store.links, key) == (set m | m in LinkedIds(c.helpMethods))
              && (forall k, m :: k != key ==> ((k, m) in r.store.links <==> (k, m) in st.links))
              && r.store.campaigns.Keys == st.campaigns.Keys
              && (forall k :: k in st.campaigns && k != key ==> r.store.campaigns[k] == st.campaigns[k])
              && (key in st.campaigns ==>
                    r.store.campaigns[key] == st.campaigns[key].(title := c.title, description := c.description, contact := c.contact))
              && r.store.nextId == st.nextId
    ensures r.result.Success? && c.helpMethods.MethodsOther? ==> LinksOf(r.store.links, key) == {}
    ensures Valid(st) ==> Valid(r.store)
  {
    var events := [Begin];
    if Throws(fault, 0) {
      return Abort(events, fault.value.error, st);
    }
    events := events + [Exec(UpdateCampaign(c.title, c.description, c.contact, key))];
    if Throws(fault, 1) {
      return Abort(events, fault.value.error, st);
    }
    var affected: nat := if key in st.campaigns then 1 else 0;
    var campaigns := UpdateFields(st.campaigns, key, c);
    events := events + [Exec(DeleteCampaignMethods(key))];
    if Throws(fault, 2) {
      return Abort(events, fault.value.error, st);
    }
    if NullishMethods(c.helpMethods) {
      return Abort(events, TypeError, st);
    }
    var kept := set l | l in st.links && l.0 != key;
    r := LinkAndCommit(st, Store(campaigns, kept, st.nextId), events, key, LinkedIds(c.helpMethods), fault, 3, affected);
    ReplaceLinks(st.links, key, LinkedIds(c.helpMethods));
  }

  /** The UPDATE statement: the row with `key`, if any, takes the input's title, description and contact. */
  function UpdateFields(campaigns: map<nat, CampaignRecord>, key: nat, c: CampaignInput): (after: map<nat, CampaignRecord>)
    ensures after.Keys == campaigns.Keys
    ensures forall k :: k in campaigns && k != key ==> after[k] == campaigns[k]
    ensures key in campaigns ==>
              after[key] == campaigns[key].(title := c.title, description := c.description, contact := c.contact)
  {
    if key in campaigns
    then campaigns[key := campaigns[key].(title := c.title, description := c.description, contact := c.contact)]
    else campaigns
  }

  /** Deleting a campaign's links and inserting new ones replaces its links and keeps every other. */
  lemma ReplaceLinks(links: set<(nat, int)>, key: nat, ids: seq<int>)
    ensures var result := (set l | l in links && l.0 != key) + LinksTo(key, ids);
            && LinksOf(result, key) == (set m | m in ids)
            && (forall k, m :: k != key ==> ((k, m) in result <==> (k, m) in links))
  {
    var result := (set l | l in links && l.0 != key) + LinksTo(key, ids);
    forall m | m in ids ensures m in LinksOf(result, key) {
      assert (key, m) in result;
    }
  }

  /**
    The link inserts of a transaction, numbered from `first`: one INSERT
    per id, in order, stopping at the first that throws.
   */
  method InsertLinks(events: seq<Event>, links: set<(nat, int)>, key: nat, ids: seq<int>, fault: Option<Fault>, first: nat)
    returns (out: seq<Event>, failed: Option<Thrown>, result: set<(nat, int)>)
    requires !FaultBefore(fault, first)
    ensures failed.None? <==> !FaultBefore(fault, first + |ids|)
    ensures failed.Some? ==> failed.value == fault.value.error
    ensures exists n :: 0 <= n <= |ids| && out == events + LinkEvents(key, ids[..n])
    ensures (End !in events ==> End !in out) && (Rollback !in events ==> Rollback !in out)
    ensures failed.None? ==> out == events + LinkEvents(key, ids) && result == links + LinksTo(key, ids)
  {
    out := events;
    result := links;
    var i := 0;
    while i < |ids|
      invariant 0 <= i <= |ids|
      invariant !FaultBefore(fault, first + i)
      invariant out == events + LinkEvents(key, ids[..i])
      invariant result == links + LinksTo(key, ids[..i])
    {
      assert ids[..i + 1] == ids[..i] + [ids[i]];
      out := out + [Exec(InsertCampaignMethod(key, ids[i]))];
      if Throws(fault, first + i) {
        assert LinkEvents(key, ids[..i + 1]) == LinkEvents(key, ids[..i]) + [Exec(InsertCampaignMethod(key, ids[i]))];
        return out, Some(fault.value.error), result;
      }
      result := result + {(key, ids[i])};
      i := i + 1;
    }
    assert ids[..i] == ids;
    failed := None;
  }

  /** Link events are statements, never a transaction boundary. */
  lemma LinkEventsAreStatements(key: nat, ids: seq<int>)
    ensures End !in LinkEvents(key, ids) && Rollback !in LinkEvents(key, ids) && Commit !in LinkEvents(key, ids)
  {
  }

  /**
    `deleteOne`: a single DELETE of the campaign row, outside any
    transaction; the result is the affected-row count. Links are left to
    the database's referential policy, which is not modelled.
   */
  function DeleteOne(st: Store, key: nat, fault: Option<Fault>): (r: TxRun<nat>)
    ensures Released(r.events) && r.events[0] == Exec(DeleteCampaign(key))
    ensures Throws(fault, 0) <==> r.result.Failure?
    ensures r.result.Failure? ==> r.store == st && r.result.error == fault.value.error
    ensures r.result.Success? ==>
              && r.result.value == (if key in st.campaigns then 1 else 0)
              && key !in r.store.campaigns
              && (forall k :: k in st.campaigns && k != key ==> k in r.store.campaigns && r.store.campaigns[k] == st.campaigns[k])
              && r.store.campaigns.Keys <= st.campaigns.Keys
              && r.store.links == st.links
    ensures Valid(st) ==> Valid(r.store)
  {
    if Throws(fault, 0) then TxRun([Exec(DeleteCampaign(key)), End], Failure(fault.value.error), st)
    else TxRun([Exec(DeleteCampaign(key)), End],
               Success(if key in st.campaigns then 1 else 0),
               st.(campaigns := st.campaigns - {key}))
  }
}
