/**
 * The `/totals` handler of Routes.cpp and its older copy in server.cpp: a
 * category (name, system and, in the current handler, tribe) searched by
 * pattern or aggregated whole, or else the top-ten overview, each optionally
 * limited by the time clause of `filter`.
 */
module TotalsRoute {
  import opened Wrappers
  import opened Json
  import opened QueryText
  import opened Serializer
  import opened Http
  import Relay

  /** The parameters that select a category, in the order the chain tests them. */
  function Selectors(v: Relay.Variant): seq<string> {
    match v
    case Current => ["name", "system", "tribe"]
    case Legacy => ["name", "system"]
  }

  datatype Branch = Category(column: Column, value: string) | Summary

  function SelectBranch(v: Relay.Variant, p: Params): Branch {
    if "name" in p then Category(NameColumn, p["name"])
    else if "system" in p then Category(SystemColumn, p["system"])
    else if v.Current? && "tribe" in p then Category(TribeColumn, p["tribe"])
    else Summary
  }

  function BranchKey(b: Branch): Option<string> {
    match b
    case Category(NameColumn, _) => Some("name")
    case Category(SystemColumn, _) => Some("system")
    case Category(TribeColumn, _) => Some("tribe")
    case Summary => None
  }

  /** One branch runs: the category of the first selecting parameter present, reading its value. */
  lemma SelectBranchFollowsPrecedence(v: Relay.Variant, p: Params)
    ensures BranchKey(SelectBranch(v, p)) == FirstKey(p, Selectors(v))
    ensures SelectBranch(v, p).Category? ==> SelectBranch(v, p).value == p[BranchKey(SelectBranch(v, p)).value]
  {
    FirstKeyCons(p, "system", []);
    if v.Current? {
      FirstKeyCons(p, "tribe", []);
      FirstKeyCons(p, "system", ["tribe"]);
      FirstKeyCons(p, "name", ["system", "tribe"]);
    } else {
      FirstKeyCons(p, "name", ["system"]);
    }
  }

  // ---------------------------------------------------------------- statements

  /**
   * A category's statement: the current handler aggregates the whole
   * category when the value is present but empty; otherwise, and always in
   * the older handler, the value becomes a search pattern.
   */
  function CategoryQuery(v: Relay.Variant, column: Column, value: string, clause: string): Query {
    if v.Current? && value == "" then TotalsAll(column, clause)
    else TotalsMatching(column, SearchPattern(value), clause)
  }

  /** The aggregate is chosen by the empty value alone, and a search carries its value. */
  lemma EmptyValueSelectsAggregate(v: Relay.Variant, column: Column, value: string, clause: string)
    ensures CategoryQuery(v, column, value, clause).TotalsAll? <==> v.Current? && value == ""
    ensures CategoryQuery(v, column, value, clause).column == column
    ensures CategoryQuery(v, column, value, clause).clause == clause
    ensures CategoryQuery(v, column, value, clause).TotalsMatching? ==>
              PatternValue(CategoryQuery(v, column, value, clause).pattern) == Some(value)
  {
    PatternRoundTrip(value);
  }

  // ---------------------------------------------------------------- responses

  /** The zero-row messages; only name and tribe end with '!' now, and only name before. */
  function NoRecordsMessage(v: Relay.Variant, column: Column): string {
    match v
    case Current =>
      (match column
       case NameColumn => "Bad Request! No name records found!"
       case SystemColumn => "Bad Request! No system records found"
       case TribeColumn => "Bad Request! No tribe records found!")
    case Legacy =>
      if column == NameColumn then "Bad Request! No incident records found!"
      else "Bad Request! No incident records found"
  }

  /** The formatter each current category hands its rows to; none of them is part of this model. */
  function FormatterOf(column: Column): string {
    match column
    case NameColumn => "format_top_names"
    case SystemColumn => "format_top_systems"
    case TribeColumn => "format_top_tribes"
  }

  /** The number of rows a category's statement returned, or none when it throws. */
  function CategoryRows(v: Relay.Variant, column: Column, q: Query, db: Store): Option<nat> {
    match v
    case Current => (match db.columns(q) case DbFailed => None case Rows(rows) => Some(|rows|))
    case Legacy =>
      if column == NameColumn then (match db.nameTotals(q) case DbFailed => None case Rows(rows) => Some(|rows|))
      else (match db.systemCounts(q) case DbFailed => None case Rows(rows) => Some(|rows|))
  }

  /**
   * A category's response. The older handler has only name (read by
   * `formatName`) and system (read by `formatSystems`). Neither handler
   * commits.
   */
  function CategoryResponse(v: Relay.Variant, column: Column, q: Query, db: Store): Response {
    match v
    case Current =>
      (match db.columns(q)
       case DbFailed => ServerError(v)
       case Rows(rows) =>
         if |rows| == 0 then Response(400, ErrorObject(NoRecordsMessage(v, column)))
         else Response(200, Formatted(FormatterOf(column), |rows|)))
    case Legacy =>
      if column == NameColumn then
        (match db.nameTotals(q)
         case DbFailed => ServerError(v)
         case Rows(rows) =>
           if |rows| == 0 then Response(400, ErrorObject(NoRecordsMessage(v, column)))
           else Response(200, Document(JArray(Items(rows, NameTotalsItem)))))
      else
        (match db.systemCounts(q)
         case DbFailed => ServerError(v)
         case Rows(rows) =>
           if |rows| == 0 then Response(400, ErrorObject(NoRecordsMessage(v, column)))
           else Response(200, Document(JArray(Items(rows, SystemCountItem)))))
  }

  /** The older overview document: three lists in this key order. */
  const LegacySummaryKeys: seq<string> := ["top_killers", "top_victims", "top_systems"]

  function LegacySummary(killers: seq<CountRow>, victims: seq<CountRow>, systems: seq<SystemCountRow>): Json {
    JObject([Member("top_killers", JArray(Items(killers, KillerItem))),
             Member("top_victims", JArray(Items(victims, VictimItem))),
             Member("top_systems", JArray(Items(systems, SystemCountItem)))])
  }

  /**
   * The overview: every top-ten statement with the same clause (four now,
   * three before); any of them throwing is a 500, and there is no zero-row
   * check.
   */
  function SummaryResponse(v: Relay.Variant, clause: string, db: Store): Response {
    var killers := db.counts(Top(TopKillers, clause));
    var victims := db.counts(Top(TopVictims, clause));
    match v
    case Current =>
      var systems := db.columns(Top(TopSystems, clause));
      var tribes := db.columns(Top(TopTribes, clause));
      if killers.DbFailed? || victims.DbFailed? || systems.DbFailed? || tribes.DbFailed? then ServerError(v)
      else Response(200, Overview(JArray(Items(killers.rows, KillerItem)), JArray(Items(victims.rows, VictimItem)),
                                  |systems.rows|, |tribes.rows|))
    case Legacy =>
      var systems := db.systemCounts(Top(TopSystems, clause));
      if killers.DbFailed? || victims.DbFailed? || systems.DbFailed? then ServerError(v)
      else Response(200, Document(LegacySummary(killers.rows, victims.rows, systems.rows)))
  }

  /** The handler: method, connection, then the selected branch. */
  function Totals(v: Relay.Variant, req: Request, db: Store): Response {
    if req.verb != Get then MethodNotAllowed
    else if !Connects(v, db) then ServerError(v)
    else
      var clause := Clause(v, Param(req.params, "filter"));
      match SelectBranch(v, req.params)
      case Category(column, value) => CategoryResponse(v, column, CategoryQuery(v, column, value, clause), db)
      case Summary => SummaryResponse(v, clause, db)
  }

  // ---------------------------------------------------------------- properties

  lemma TotalsStatuses(v: Relay.Variant, req: Request, db: Store)
    ensures Totals(v, req, db).status in {200, 400, 405, 500}
    ensures Totals(v, req, db).status == 405 <==> req.verb != Get
  {
  }

  /** 400 exactly when a category's statement returns no rows, with that category's message. */
  lemma TotalsBadRequest(v: Relay.Variant, req: Request, db: Store)
    ensures var r := Totals(v, req, db);
      var b := SelectBranch(v, req.params);
      r.status == 400 <==>
        && req.verb == Get && Connects(v, db) && b.Category?
        && CategoryRows(v, b.column,
             CategoryQuery(v, b.column, b.value, Clause(v, Param(req.params, "filter"))), db) == Some(0)
    ensures var r := Totals(v, req, db);
      r.status == 400 ==> r.body == ErrorObject(NoRecordsMessage(v, SelectBranch(v, req.params).column))
  {
  }

  /**
   * The overview is never a bad request: it is a 200 exactly when every
   * top-ten statement answers, and its killer and victim lists are those
   * rows, in order.
   */
  lemma SummaryOutcome(v: Relay.Variant, req: Request, db: Store)
    requires req.verb == Get && Connects(v, db) && SelectBranch(v, req.params) == Summary
    ensures var r := Totals(v, req, db);
      var clause := Clause(v, Param(req.params, "filter"));
      var killers, victims := db.counts(Top(TopKillers, clause)), db.counts(Top(TopVictims, clause));
      && r.status != 400
      && (r.status == 200 <==>
            killers.Rows? && victims.Rows?
            && (v.Current? ==> db.columns(Top(TopSystems, clause)).Rows? && db.columns(Top(TopTribes, clause)).Rows?)
            && (v.Legacy? ==> db.systemCounts(Top(TopSystems, clause)).Rows?))
      && (r.status == 200 && v.Current? ==>
            && r.body.Overview? && r.body.topKillers.JArray? && r.body.topVictims.JArray?
            && DecodeRows(r.body.topKillers.items, DecodeKiller) == Some(killers.rows)
            && DecodeRows(r.body.topVictims.items, DecodeVictim) == Some(victims.rows))
      && (r.status == 200 && v.Legacy? ==>
            && r.body.Document? && r.body.doc.JObject?
            && Keys(r.body.doc.members) == LegacySummaryKeys
            && r.body.doc.members[0].value.JArray? && r.body.doc.members[1].value.JArray?
            && r.body.doc.members[2].value.JArray?
            && DecodeRows(r.body.doc.members[0].value.items, DecodeKiller) == Some(killers.rows)
            && DecodeRows(r.body.doc.members[1].value.items, DecodeVictim) == Some(victims.rows)
            && DecodeRows(r.body.doc.members[2].value.items, DecodeSystemCount)
               == Some(db.systemCounts(Top(TopSystems, clause)).rows))
  {
    var clause := Clause(v, Param(req.params, "filter"));
    var killers, victims := db.counts(Top(TopKillers, clause)), db.counts(Top(TopVictims, clause));
    if killers.Rows? && victims.Rows? {
      KillerArrayRoundTrip(killers.rows);
      VictimArrayRoundTrip(victims.rows);
      var systems := db.systemCounts(Top(TopSystems, clause));
      if v.Legacy? && systems.Rows? {
        SystemCountArrayRoundTrip(systems.rows);
      }
    }
  }

  /** In the older handler a category's 200 document reads back as exactly the rows of its statement. */
  lemma LegacyCategoryDocument(req: Request, db: Store)
    requires req.verb == Get && Connects(Relay.Legacy, db) && SelectBranch(Relay.Legacy, req.params).Category?
    requires Totals(Relay.Legacy, req, db).status == 200
    ensures var b := SelectBranch(Relay.Legacy, req.params);
      var q := CategoryQuery(Relay.Legacy, b.column, b.value, Clause(Relay.Legacy, Param(req.params, "filter")));
      var body := Totals(Relay.Legacy, req, db).body;
      && body.Document? && body.doc.JArray?
      && (b.column == NameColumn ==> DecodeRows(body.doc.items, DecodeNameTotals) == Some(db.nameTotals(q).rows))
      && (b.column != NameColumn ==> DecodeRows(body.doc.items, DecodeSystemCount) == Some(db.systemCounts(q).rows))
  {
    var b := SelectBranch(Relay.Legacy, req.params);
    var q := CategoryQuery(Relay.Legacy, b.column, b.value, Clause(Relay.Legacy, Param(req.params, "filter")));
    if b.column == NameColumn {
      NameTotalsArrayRoundTrip(db.nameTotals(q).rows);
    } else {
      SystemCountArrayRoundTrip(db.systemCounts(q).rows);
    }
  }

  /** A `filter` value other than the three keywords is the same request as no `filter` at all. */
  lemma UnknownFilterIgnored(v: Relay.Variant, req: Request, db: Store)
    requires "filter" in req.params && Interval(Some(req.params["filter"])).None?
    ensures Totals(v, req, db) == Totals(v, req.(params := req.params - {"filter"}), db)
  {
    var p := req.params;
    var p' := p - {"filter"};
    assert SelectBranch(v, p) == SelectBranch(v, p');
    assert Clause(v, Param(p, "filter")) == "" == Clause(v, Param(p', "filter"));
  }
}
