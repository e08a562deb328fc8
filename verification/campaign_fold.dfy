/**
  Folding joined campaign rows into campaigns. Each row of the campaign
  query is one (campaign, help method) pair; the mappers fold the rows, in
  order, into one campaign per distinct id, each collecting its help methods.

  `Fold` follows the loop the three finders share; `Grouped` is an
  independent description of its result (distinct ids in first-occurrence
  order, each with the fields of its first row and the methods of all its
  rows), and `FoldIsGrouped` proves the two agree.
 */
module CampaignFold {
  import opened Wrappers
  import opened Strings
  import opened Models

  /** One row of the campaign query (`ap.id`, `ap.titulo`, ..., `af.descricao AS descricao_forma_ajuda`). */
  datatype Row = Row(
    id: nat,
    titulo: string,
    descricao: string,
    contato: string,
    idFormaAjuda: int,
    descricaoFormaAjuda: string)

  /** `row.id.toString()`, the key campaigns are grouped by. */
  function Key(r: Row): string {
    NatToString(r.id)
  }

  /** Grouping by the string key is grouping by the numeric id. */
  lemma SameKeySameId(r1: Row, r2: Row)
    ensures Key(r1) == Key(r2) <==> r1.id == r2.id
  {
    NatToStringInjective(r1.id, r2.id);
  }

  /** The `{ id, description }` entry a row contributes. */
  function MethodOf(r: Row): HelpMethod {
    HelpMethod(r.idFormaAjuda, r.descricaoFormaAjuda)
  }

  /** `campaigns.find(c => c.id === key)`, as the position of the first match. */
  function FindIndex(cs: seq<Campaign>, key: string): (r: Option<nat>)
    ensures r.Some? ==> r.value < |cs| && cs[r.value].id == key
                        && forall j :: 0 <= j < r.value ==> cs[j].id != key
    ensures r.None? ==> forall j :: 0 <= j < |cs| ==> cs[j].id != key
  {
    if cs == [] then None
    else if cs[0].id == key then Some(0)
    else match FindIndex(cs[1..], key)
      case None => None
      case Some(j) => Some(j + 1)
  }

  /** One iteration of the loop: start a new campaign, or append the row's method to the found one. */
  function Step(cs: seq<Campaign>, row: Row): seq<Campaign> {
    match FindIndex(cs, Key(row))
    case None =>
      cs + [Campaign(Key(row), row.titulo, row.descricao, row.contato, [MethodOf(row)])]
    case Some(j) =>
      cs[j := cs[j].(helpMethods := cs[j].helpMethods + [MethodOf(row)])]
  }

  /** The loop over all rows, in order. */
  function Fold(rows: seq<Row>): seq<Campaign>
    decreases |rows|
  {
    if rows == [] then [] else Step(Fold(rows[..|rows| - 1]), rows[|rows| - 1])
  }

  // The reference description.

  function Keys(rows: seq<Row>): (ks: seq<string>)
    ensures |ks| == |rows| && forall i :: 0 <= i < |rows| ==> ks[i] == Key(rows[i])
  {
    seq(|rows|, i requires 0 <= i < |rows| => Key(rows[i]))
  }

  predicate Distinct(xs: seq<string>) {
    forall i, j :: 0 <= i < j < |xs| ==> xs[i] != xs[j]
  }

  /** The distinct elements of `xs`, each at the place of its first occurrence. */
  function Dedup(xs: seq<string>): (d: seq<string>)
    ensures forall x :: x in d <==> x in xs
    ensures Distinct(d)
    decreases |xs|
  {
    if xs == [] then []
    else
      var prev := Dedup(xs[..|xs| - 1]);
      var x := xs[|xs| - 1];
      assert xs == xs[..|xs| - 1] + [x];
      if x in prev then prev else prev + [x]
  }

  /** Position of the first occurrence of `x` in `xs`. */
  function FirstIndex(xs: seq<string>, x: string): (i: nat)
    requires x in xs
    ensures i < |xs| && xs[i] == x && x !in xs[..i]
  {
    if xs[0] == x then 0
    else
      var j := FirstIndex(xs[1..], x);
      assert xs[..j + 1] == [xs[0]] + xs[1..][..j];
      j + 1
  }

  /** The first row with key `k`. */
  function FirstRow(rows: seq<Row>, k: string): Row
    requires k in Keys(rows)
  {
    rows[FirstIndex(Keys(rows), k)]
  }

  /** The methods of all rows with key `k`, in row order. */
  function MethodsFor(rows: seq<Row>, k: string): seq<HelpMethod>
    decreases |rows|
  {
    if rows == [] then []
    else
      var last := rows[|rows| - 1];
      MethodsFor(rows[..|rows| - 1], k) + (if Key(last) == k then [MethodOf(last)] else [])
  }

  /** The campaign the rows with key `k` describe. */
  function CampaignFor(rows: seq<Row>, k: string): Campaign
    requires k in Keys(rows)
  {
    var first := FirstRow(rows, k);
    Campaign(k, first.titulo, first.descricao, first.contato, MethodsFor(rows, k))
  }

  /** One campaign per distinct key, in first-occurrence order. */
  function Grouped(rows: seq<Row>): seq<Campaign> {
    var ks := Dedup(Keys(rows));
    seq(|ks|, i requires 0 <= i < |ks| => CampaignFor(rows, ks[i]))
  }

  // The proof that the loop computes the reference.

  lemma KeysSnoc(rows: seq<Row>, r: Row)
    ensures Keys(rows + [r]) == Keys(rows) + [Key(r)]
  {
  }

  lemma {:induction false} MethodsForAbsent(rows: seq<Row>, k: string)
    requires k !in Keys(rows)
    ensures MethodsFor(rows, k) == []
    decreases |rows|
  {
    if rows != [] {
      var p := rows[..|rows| - 1];
      assert Keys(p) == Keys(rows)[..|rows| - 1];
      MethodsForAbsent(p, k);
    }
  }

  lemma FirstIndexSnoc(xs: seq<string>, y: string, x: string)
    requires x in xs
    ensures FirstIndex(xs + [y], x) == FirstIndex(xs, x)
  {
    var i := FirstIndex(xs, x);
    assert (xs + [y])[..i] == xs[..i];
    IndexOfFirst(xs + [y], x, i);
  }

  lemma {:induction false} IndexOfFirst(xs: seq<string>, x: string, i: nat)
    requires i < |xs| && xs[i] == x && x !in xs[..i]
    ensures FirstIndex(xs, x) == i
  {
    if i > 0 {
      assert xs[0] == xs[..i][0];
      assert xs[1..][..i - 1] == xs[..i][1..];
      IndexOfFirst(xs[1..], x, i - 1);
    }
  }

  /** Adding a row leaves the campaigns of the other keys as they were. */
  lemma CampaignForSnoc(rows: seq<Row>, r: Row, k: string)
    requires k in Keys(rows)
    ensures k in Keys(rows + [r])
    ensures CampaignFor(rows + [r], k)
         == CampaignFor(rows, k).(helpMethods := MethodsFor(rows, k) + (if Key(r) == k then [MethodOf(r)] else []))
  {
    var rows' := rows + [r];
    KeysSnoc(rows, r);
    assert k in Keys(rows');
    FirstIndexSnoc(Keys(rows), Key(r), k);
    assert rows'[..|rows'| - 1] == rows;
  }

  lemma DedupSnoc(xs: seq<string>, x: string)
    ensures Dedup(xs + [x]) == if x in xs then Dedup(xs) else Dedup(xs) + [x]
  {
    assert (xs + [x])[..|xs + [x]| - 1] == xs;
  }

  lemma GroupedIds(rows: seq<Row>)
    ensures |Grouped(rows)| == |Dedup(Keys(rows))|
    ensures forall i :: 0 <= i < |Grouped(rows)| ==> Grouped(rows)[i].id == Dedup(Keys(rows))[i]
  {
  }

  /** A key some row has is found among the grouped campaigns, at its place in the deduplicated keys. */
  lemma GroupedFind(p: seq<Row>, k: string) returns (j: nat)
    requires k in Keys(p)
    ensures j < |Dedup(Keys(p))| && Dedup(Keys(p))[j] == k
    ensures FindIndex(Grouped(p), k) == Some(j)
  {
    var ks := Dedup(Keys(p));
    GroupedIds(p);
    var i :| 0 <= i < |ks| && ks[i] == k;
    assert Grouped(p)[i].id == k;
    j := FindIndex(Grouped(p), k).value;
  }

  /** A row whose key was seen before adds its method to that key's campaign. */
  lemma StepExisting(p: seq<Row>, r: Row)
    requires Key(r) in Keys(p)
    ensures Step(Grouped(p), r) == Grouped(p + [r])
  {
    var k := Key(r);
    KeysSnoc(p, r);
    DedupSnoc(Keys(p), k);
    var j := GroupedFind(p, k);
    var g := Grouped(p);
    var f := g[j := g[j].(helpMethods := g[j].helpMethods + [MethodOf(r)])];
    assert Step(g, r) == f;
    forall i | 0 <= i < |f|
      ensures Dedup(Keys(p + [r]))[i] in Keys(p + [r]) && f[i] == CampaignFor(p + [r], Dedup(Keys(p + [r]))[i])
    {
      StepExistingAt(p, r, j, i);
    }
    GroupedIs(p + [r], f);
  }

  /** One campaign of `StepExisting`: the found one gains the method, the others stay. */
  lemma StepExistingAt(p: seq<Row>, r: Row, j: nat, i: nat)
    requires Key(r) in Keys(p)
    requires j < |Dedup(Keys(p))| && Dedup(Keys(p))[j] == Key(r)
    requires i < |Dedup(Keys(p))|
    ensures Dedup(Keys(p + [r])) == Dedup(Keys(p)) && Dedup(Keys(p))[i] in Keys(p + [r])
    ensures var g := Grouped(p);
            (if i == j then g[j].(helpMethods := g[j].helpMethods + [MethodOf(r)]) else g[i])
            == CampaignFor(p + [r], Dedup(Keys(p))[i])
  {
    KeysSnoc(p, r);
    DedupSnoc(Keys(p), Key(r));
    var ks := Dedup(Keys(p));
    CampaignForSnoc(p, r, ks[i]);
    assert i != j ==> ks[i] != ks[j];
  }

  /** A row with a new key starts a campaign of its own at the end. */
  lemma StepNew(p: seq<Row>, r: Row)
    requires Key(r) !in Keys(p)
    ensures Step(Grouped(p), r) == Grouped(p + [r])
  {
    var k := Key(r);
    var g := Grouped(p);
    GroupedMissing(p, k);
    var f := g + [Campaign(k, r.titulo, r.descricao, r.contato, [MethodOf(r)])];
    assert Step(g, r) == f;
    KeysSnoc(p, r);
    DedupSnoc(Keys(p), k);
    var ks := Dedup(Keys(p + [r]));
    forall i | 0 <= i < |f|
      ensures ks[i] in Keys(p + [r]) && f[i] == CampaignFor(p + [r], ks[i])
    {
      if i < |g| {
        StepNewKeeps(p, r, i);
      } else {
        StepNewStarts(p, r);
      }
    }
    GroupedIs(p + [r], f);
  }

  /** A key no row has is not found among the grouped campaigns. */
  lemma GroupedMissing(p: seq<Row>, k: string)
    requires k !in Keys(p)
    ensures FindIndex(Grouped(p), k).None?
  {
    GroupedIds(p);
  }

  /** A list that agrees with the reference campaign by campaign is the reference. */
  lemma GroupedIs(rows: seq<Row>, f: seq<Campaign>)
    requires |f| == |Dedup(Keys(rows))|
    requires forall i :: 0 <= i < |f| ==>
               Dedup(Keys(rows))[i] in Keys(rows) && f[i] == CampaignFor(rows, Dedup(Keys(rows))[i])
    ensures f == Grouped(rows)
  {
  }

  /** A row with a new key leaves every earlier campaign as it was. */
  lemma StepNewKeeps(p: seq<Row>, r: Row, i: nat)
    requires Key(r) !in Keys(p)
    requires i < |Dedup(Keys(p))|
    ensures Dedup(Keys(p))[i] in Keys(p + [r])
    ensures Grouped(p)[i] == CampaignFor(p + [r], Dedup(Keys(p))[i])
  {
    var ks := Dedup(Keys(p));
    assert ks[i] in Keys(p);
    CampaignForSnoc(p, r, ks[i]);
  }

  /** The campaign of a new key is its row's, with that row's method alone. */
  lemma StepNewStarts(p: seq<Row>, r: Row)
    requires Key(r) !in Keys(p)
    ensures Key(r) in Keys(p + [r])
    ensures CampaignFor(p + [r], Key(r)) == Campaign(Key(r), r.titulo, r.descricao, r.contato, [MethodOf(r)])
  {
    var k := Key(r);
    KeysSnoc(p, r);
    MethodsForAbsent(p, k);
    assert (p + [r])[..|p|] == p;
    IndexOfFirst(Keys(p + [r]), k, |p|);
  }

  /** The loop computes the reference grouping. */
  lemma {:induction false} FoldIsGrouped(rows: seq<Row>)
    ensures Fold(rows) == Grouped(rows)
    decreases |rows|
  {
    if rows != [] {
      var p := rows[..|rows| - 1];
      var r := rows[|rows| - 1];
      assert rows == p + [r];
      FoldIsGrouped(p);
      if Key(r) in Keys(p) {
        StepExisting(p, r);
      } else {
        StepNew(p, r);
      }
    }
  }

  // Properties of the fold, through the reference.

  lemma {:induction false} DedupOrder(xs: seq<string>)
    ensures forall i, j :: 0 <= i < j < |Dedup(xs)| ==> FirstIndex(xs, Dedup(xs)[i]) < FirstIndex(xs, Dedup(xs)[j])
    decreases |xs|
  {
    if xs != [] {
      var p := xs[..|xs| - 1];
      var x := xs[|xs| - 1];
      assert xs == p + [x];
      DedupOrder(p);
      DedupSnoc(p, x);
      var d := Dedup(xs);
      forall y | y in p
        ensures FirstIndex(xs, y) == FirstIndex(p, y)
      {
        FirstIndexSnoc(p, x, y);
      }
      if x !in p {
        IndexOfFirst(xs, x, |p|);
      }
    }
  }

  /** The ids of a list of campaigns. */
  function Ids(cs: seq<Campaign>): (ids: seq<string>)
    ensures |ids| == |cs| && forall i :: 0 <= i < |cs| ==> ids[i] == cs[i].id
  {
    seq(|cs|, i requires 0 <= i < |cs| => cs[i].id)
  }

  /** The campaigns' ids are the distinct row keys in first-occurrence order. */
  lemma FoldIds(rows: seq<Row>)
    ensures Ids(Fold(rows)) == Dedup(Keys(rows))
  {
    FoldIsGrouped(rows);
    GroupedIds(rows);
  }

  /** One campaign per distinct row id. */
  lemma FoldDistinctIds(rows: seq<Row>)
    ensures forall i, j :: 0 <= i < j < |Fold(rows)| ==> Fold(rows)[i].id != Fold(rows)[j].id
  {
    FoldIds(rows);
  }

  /** Every campaign's id is some row's id, and every row's id has its campaign. */
  lemma FoldCoversRows(rows: seq<Row>)
    ensures forall i :: 0 <= i < |Fold(rows)| ==> Fold(rows)[i].id in Keys(rows)
    ensures forall m :: 0 <= m < |rows| ==> Key(rows[m]) in Ids(Fold(rows))
  {
    var f := Fold(rows);
    var d := Dedup(Keys(rows));
    FoldIds(rows);
    assert Ids(f) == d;
    forall m | 0 <= m < |rows|
      ensures Key(rows[m]) in d
    {
      assert Keys(rows)[m] == Key(rows[m]);
    }
  }

  /** Campaigns come in the order their ids first occur among the rows. */
  lemma FoldFirstOccurrenceOrder(rows: seq<Row>)
    ensures forall i :: 0 <= i < |Fold(rows)| ==> Fold(rows)[i].id in Keys(rows)
    ensures forall i, j :: 0 <= i < j < |Fold(rows)| ==>
              FirstIndex(Keys(rows), Fold(rows)[i].id) < FirstIndex(Keys(rows), Fold(rows)[j].id)
  {
    FoldIds(rows);
    DedupOrder(Keys(rows));
  }

  /**
    Each campaign has the title, description and contact of the first row
    with its id, and the `{ id, description }` of every row with its id, in
    row order and without removing repeats; so its list is never empty.
   */
  lemma FoldFields(rows: seq<Row>)
    ensures forall i :: 0 <= i < |Fold(rows)| ==>
      var c := Fold(rows)[i];
      c.id in Keys(rows)
      && var first := rows[FirstIndex(Keys(rows), c.id)];
      && c.title == first.titulo && c.description == first.descricao && c.contact == first.contato
      && c.helpMethods == MethodsFor(rows, c.id)
      && |c.helpMethods| > 0
  {
    FoldIsGrouped(rows);
    GroupedIds(rows);
    forall k | k in Keys(rows)
      ensures |MethodsFor(rows, k)| > 0
    {
      MethodsForPresent(rows, k);
    }
  }

  lemma {:induction false} MethodsForPresent(rows: seq<Row>, k: string)
    requires k in Keys(rows)
    ensures |MethodsFor(rows, k)| > 0
    decreases |rows|
  {
    var p := rows[..|rows| - 1];
    assert Keys(rows) == Keys(p) + [Key(rows[|rows| - 1])];
    if k in Keys(p) {
      MethodsForPresent(p, k);
    }
  }

  /** Total number of help-method entries over a list of campaigns. */
  function TotalMethods(cs: seq<Campaign>): nat {
    if cs == [] then 0 else |cs[0].helpMethods| + TotalMethods(cs[1..])
  }

  lemma {:induction false} TotalAppend(cs: seq<Campaign>, c: Campaign)
    ensures TotalMethods(cs + [c]) == TotalMethods(cs) + |c.helpMethods|
  {
    if cs != [] {
      assert (cs + [c])[1..] == cs[1..] + [c];
      TotalAppend(cs[1..], c);
    }
  }

  lemma {:induction false} TotalUpdate(cs: seq<Campaign>, j: nat, c: Campaign)
    requires j < |cs|
    ensures TotalMethods(cs[j := c]) + |cs[j].helpMethods| == TotalMethods(cs) + |c.helpMethods|
  {
    if j > 0 {
      assert cs[j := c][1..] == cs[1..][j - 1 := c];
      TotalUpdate(cs[1..], j - 1, c);
    }
  }

  /** Every row contributes exactly one help-method entry. */
  lemma {:induction false} FoldCountsRows(rows: seq<Row>)
    ensures TotalMethods(Fold(rows)) == |rows|
    decreases |rows|
  {
    if rows != [] {
      var p := rows[..|rows| - 1];
      var r := rows[|rows| - 1];
      FoldCountsRows(p);
      var cs := Fold(p);
      match FindIndex(cs, Key(r))
      case None =>
        TotalAppend(cs, Campaign(Key(r), r.titulo, r.descricao, r.contato, [MethodOf(r)]));
      case Some(j) =>
        TotalUpdate(cs, j, cs[j].(helpMethods := cs[j].helpMethods + [MethodOf(r)]));
    }
  }
}
