/**
 * The `/incident` handler of Routes.cpp and its older copy in server.cpp:
 * the method check, the connection, the paging parameters, the one branch
 * the parameters select and the statement it issues, and the status the
 * rows lead to.
 */
module IncidentRoute {
  import opened Wrappers
  import opened Numbers
  import opened Json
  import opened QueryText
  import opened Serializer
  import opened Http
  import Relay

  /** The parameters that select a branch, in the order the if/else-if chain tests them; the older handler has no `tribe` branch. */
  function Selectors(v: Relay.Variant): seq<string> {
    match v
    case Current => ["name", "system", "mail_id", "tribe", "filter"]
    case Legacy => ["name", "system", "mail_id", "filter"]
  }

  datatype Branch =
    | Search(column: Column, value: string)
    | ByMail(text: string)
    | ByFilter(filter: string)
    | Latest

  /** The if/else-if chain over the parameters. */
  function SelectBranch(v: Relay.Variant, p: Params): Branch {
    if "name" in p then Search(NameColumn, p["name"])
    else if "system" in p then Search(SystemColumn, p["system"])
    else if "mail_id" in p then ByMail(p["mail_id"])
    else if v.Current? && "tribe" in p then Search(TribeColumn, p["tribe"])
    else if "filter" in p then ByFilter(p["filter"])
    else Latest
  }

  /** The parameter a branch was selected by, and the value it reads. */
  function BranchKey(b: Branch): Option<string> {
    match b
    case Search(NameColumn, _) => Some("name")
    case Search(SystemColumn, _) => Some("system")
    case Search(TribeColumn, _) => Some("tribe")
    case ByMail(_) => Some("mail_id")
    case ByFilter(_) => Some("filter")
    case Latest => None
  }

  function BranchValue(b: Branch): string {
    match b
    case Search(_, value) => value
    case ByMail(text) => text
    case ByFilter(filter) => filter
    case Latest => ""
  }

  /** Exactly one branch runs: the one of the first selecting parameter present, reading that parameter's value. */
  lemma SelectBranchFollowsPrecedence(v: Relay.Variant, p: Params)
    ensures BranchKey(SelectBranch(v, p)) == FirstKey(p, Selectors(v))
    ensures BranchKey(SelectBranch(v, p)).Some? ==>
              BranchValue(SelectBranch(v, p)) == p[BranchKey(SelectBranch(v, p)).value]
  {
    if v.Current? {
      CurrentPrecedence(p);
    } else {
      LegacyPrecedence(p);
    }
  }

  /** The current chain: name, system, mail_id, tribe, filter. */
  lemma CurrentPrecedence(p: Params)
    ensures FirstKey(p, Selectors(Relay.Current)) ==
      if "name" in p then Some("name") else if "system" in p then Some("system")
      else if "mail_id" in p then Some("mail_id") else if "tribe" in p then Some("tribe")
      else if "filter" in p then Some("filter") else None
  {
    FirstKeyCons(p, "filter", []);
    FirstKeyCons(p, "tribe", ["filter"]);
    FirstKeyCons(p, "mail_id", ["tribe", "filter"]);
    FirstKeyCons(p, "system", ["mail_id", "tribe", "filter"]);
    FirstKeyCons(p, "name", ["system", "mail_id", "tribe", "filter"]);
  }

  /** The older chain has no tribe search: name, system, mail_id, filter. */
  lemma LegacyPrecedence(p: Params)
    ensures FirstKey(p, Selectors(Relay.Legacy)) ==
      if "name" in p then Some("name") else if "system" in p then Some("system")
      else if "mail_id" in p then Some("mail_id") else if "filter" in p then Some("filter") else None
  {
    FirstKeyCons(p, "filter", []);
    FirstKeyCons(p, "mail_id", ["filter"]);
    FirstKeyCons(p, "system", ["mail_id", "filter"]);
    FirstKeyCons(p, "name", ["system", "mail_id", "filter"]);
  }

  // ---------------------------------------------------------------- paging

  const DefaultLimit: int := 100
  const DefaultOffset: int := 0

  /** `url_params.get(key) ? std::stoi(url_params.get(key)) : fallback`. */
  function IntParam(p: Params, key: string, fallback: int): StoiResult {
    if key in p then Stoi(p[key]) else Parsed(fallback)
  }

  /**
   * `limit` and then `offset`: read only by the current handler; the first
   * one `std::stoi` rejects is the exception that leaves the handler.
   */
  function PageOf(v: Relay.Variant, p: Params): (r: Result<Option<Paging>, StoiResult>)
    ensures v.Legacy? ==> r == Ok(None)
    ensures v.Current? && r.Ok? ==> r.value.Some?
    ensures r.Err? ==> !r.error.Parsed?
  {
    if v.Legacy? then Ok(None)
    else
      var limit := IntParam(p, "limit", DefaultLimit);
      if !limit.Parsed? then Err(limit)
      else
        var offset := IntParam(p, "offset", DefaultOffset);
        if !offset.Parsed? then Err(offset)
        else Ok(Some(Paging(limit.value, offset.value)))
  }

  /** Without `limit` and `offset` the current handler pages by 100 from 0. */
  lemma DefaultPaging(p: Params)
    requires "limit" !in p && "offset" !in p
    ensures PageOf(Relay.Current, p) == Ok(Some(Paging(DefaultLimit, DefaultOffset)))
  {
  }

  /** A limit and an offset written in decimal are read back as they were written. */
  lemma PagingRoundTrip(p: Params, limit: int, offset: int)
    requires Int32Min <= limit <= Int32Max && Int32Min <= offset <= Int32Max
    requires "limit" in p && p["limit"] == DecimalString(limit)
    requires "offset" in p && p["offset"] == DecimalString(offset)
    ensures PageOf(Relay.Current, p) == Ok(Some(Paging(limit, offset)))
  {
    StoiDecimalRoundTrip(limit);
    StoiDecimalRoundTrip(offset);
  }

  // ---------------------------------------------------------------- statements

  /**
   * The statement a branch issues: a search pattern for name, system and
   * tribe, the parsed id for `mail_id` (none when `std::stoi` throws), and
   * the time clause wherever the branch reads `filter`.
   */
  function BranchQuery(b: Branch, clause: string, page: Option<Paging>): Option<Query> {
    match b
    case Search(column, value) => Some(IncidentsMatching(column, SearchPattern(value), clause, page))
    case ByMail(text) =>
      (match Stoi(text)
       case Parsed(id) => Some(IncidentById(id))
       case _ => None)
    case ByFilter(_) => Some(RecentIncidents(clause, page))
    case Latest => Some(RecentIncidents("", page))
  }

  /** The statement the handler issues for `p`, once connected and paged. */
  function RequestQuery(v: Relay.Variant, p: Params, page: Option<Paging>): Option<Query> {
    BranchQuery(SelectBranch(v, p), Clause(v, Param(p, "filter")), page)
  }

  /** A search statement carries the searched value and the filter keyword, both recoverable from it. */
  lemma SearchQueryCarriesRequest(v: Relay.Variant, p: Params, page: Option<Paging>)
    requires SelectBranch(v, p).Search?
    ensures var q := RequestQuery(v, p, page);
      && q.Some? && q.value.IncidentsMatching?
      && q.value.column == SelectBranch(v, p).column
      && PatternValue(q.value.pattern) == Some(SelectBranch(v, p).value)
      && q.value.page == page
      && (q.value.clause == "" <==> Interval(Param(p, "filter")).None?)
      && (q.value.clause != "" ==> ClauseFilter(v, q.value.clause) == Param(p, "filter"))
  {
    PatternRoundTrip(SelectBranch(v, p).value);
    if Interval(Param(p, "filter")).Some? {
      ClauseRoundTrip(v, Param(p, "filter"));
    }
  }

  /** A `mail_id` written in decimal selects the incident with that id. */
  lemma MailIdRoundTrip(v: Relay.Variant, p: Params, page: Option<Paging>, id: int)
    requires Int32Min <= id <= Int32Max
    requires SelectBranch(v, p) == ByMail(DecimalString(id))
    ensures RequestQuery(v, p, page) == Some(IncidentById(id))
  {
    StoiDecimalRoundTrip(id);
  }

  // ---------------------------------------------------------------- responses

  const NoIncidents: string := "Bad Request! No incident records found"
  const InvalidId: string := "Invalid 'id' parameter"
  const OutOfRangeMessage: string := "Bad Request! Parameter value out of range for limit, or offset!"

  /** The zero-row message: the name branch alone ends it with '!'. */
  function NoRecordsMessage(b: Branch): string {
    if b.Search? && b.column == NameColumn then NoIncidents + "!" else NoIncidents
  }

  /** The statement's rows: zero rows are a bad request, then the commit, then the document. */
  function Respond(v: Relay.Variant, b: Branch, q: Query, db: Store): Response {
    match db.incidents(q)
    case DbFailed => ServerError(v)
    case Rows(rows) =>
      if |rows| == 0 then Response(400, ErrorObject(NoRecordsMessage(b)))
      else if !db.commits then ServerError(v)
      else Response(200, Document(JArray(Items(rows, IncidentItem))))
  }

  /**
   * The handler, with the response an `std::out_of_range` from `limit` or
   * `offset` ends in as a parameter.
   */
  function IncidentWith(v: Relay.Variant, req: Request, db: Store, outOfRange: Response): Response {
    if req.verb != Get then MethodNotAllowed
    else if !Connects(v, db) then ServerError(v)
    else
      match PageOf(v, req.params)
      case Err(e) => if e.OutOfRange? then outOfRange else ServerError(v)
      case Ok(page) =>
        match RequestQuery(v, req.params, page)
        case None => Response(400, Text(InvalidId))
        case Some(q) => Respond(v, SelectBranch(v, req.params), q, db)
  }

  /**
   * The handler as written: `std::out_of_range` derives from
   * `std::exception`, so the first catch clause takes it and the second is
   * never reached.
   */
  function Incident(v: Relay.Variant, req: Request, db: Store): Response {
    IncidentWith(v, req, db, ServerError(v))
  }

  /** The handler with its out-of-range clause reachable, as its message shows it was meant. */
  function IncidentIntended(v: Relay.Variant, req: Request, db: Store): Response {
    IncidentWith(v, req, db, Response(400, ErrorObject(OutOfRangeMessage)))
  }

  // ---------------------------------------------------------------- properties

  /** The four statuses the handler answers, and 405 exactly when the method it is given is not GET. */
  lemma IncidentStatuses(v: Relay.Variant, req: Request, db: Store)
    ensures Incident(v, req, db).status in {200, 400, 405, 500}
    ensures Incident(v, req, db).status == 405 <==> req.verb != Get
    ensures Incident(v, req, db).status == 405 ==> Incident(v, req, db).body == NoBody
  {
  }

  /**
   * 200 exactly when the request is a GET, the connection opens, the paging
   * parses, the branch has a statement, the statement returns rows and the
   * commit succeeds; the document then holds exactly those rows.
   */
  lemma IncidentSucceeds(v: Relay.Variant, req: Request, db: Store)
    ensures var r := Incident(v, req, db);
      r.status == 200 <==>
        && req.verb == Get && Connects(v, db) && PageOf(v, req.params).Ok?
        && RequestQuery(v, req.params, PageOf(v, req.params).value).Some?
        && var answer := db.incidents(RequestQuery(v, req.params, PageOf(v, req.params).value).value);
           answer.Rows? && |answer.rows| > 0 && db.commits
    ensures var r := Incident(v, req, db);
      r.status == 200 ==>
        && r.body.Document? && r.body.doc.JArray?
        && DecodeRows(r.body.doc.items, DecodeIncident)
           == Some(db.incidents(RequestQuery(v, req.params, PageOf(v, req.params).value).value).rows)
  {
    var r := Incident(v, req, db);
    if r.status == 200 {
      var rows := db.incidents(RequestQuery(v, req.params, PageOf(v, req.params).value).value).rows;
      IncidentArrayRoundTrip(rows);
    }
  }

  /**
   * 400 exactly when a GET that connects and pages either names a `mail_id`
   * `std::stoi` rejects (a plain-text body) or its statement returns no
   * rows (the branch's message).
   */
  lemma IncidentBadRequest(v: Relay.Variant, req: Request, db: Store)
    ensures var r := Incident(v, req, db);
      r.status == 400 <==>
        && req.verb == Get && Connects(v, db) && PageOf(v, req.params).Ok?
        && var q := RequestQuery(v, req.params, PageOf(v, req.params).value);
           q.None? || db.incidents(q.value) == Rows([])
    ensures var r := Incident(v, req, db);
      r.status == 400 ==>
        var q := RequestQuery(v, req.params, PageOf(v, req.params).value);
        && (q.None? ==> SelectBranch(v, req.params).ByMail? && r.body == Text(InvalidId))
        && (q.Some? ==> r.body == ErrorObject(NoRecordsMessage(SelectBranch(v, req.params))))
  {
  }

  /** A `filter` value other than the three keywords is the same request as no `filter` at all. */
  lemma UnknownFilterIgnored(v: Relay.Variant, req: Request, db: Store)
    requires "filter" in req.params && Interval(Some(req.params["filter"])).None?
    ensures Incident(v, req, db) == Incident(v, req.(params := req.params - {"filter"}), db)
  {
    var p := req.params;
    FilterDroppedPaging(v, p);
    if PageOf(v, p).Ok? {
      FilterDroppedQuery(v, p, PageOf(v, p).value);
    }
  }

  /** Dropping an unknown `filter` leaves the paging as it was. */
  lemma FilterDroppedPaging(v: Relay.Variant, p: Params)
    requires "filter" in p && Interval(Some(p["filter"])).None?
    ensures PageOf(v, p) == PageOf(v, p - {"filter"})
  {
    var p' := p - {"filter"};
    assert Param(p, "limit") == Param(p', "limit") && Param(p, "offset") == Param(p', "offset");
  }

  /** Dropping an unknown `filter` leaves the statement and the no-records message as they were. */
  lemma FilterDroppedQuery(v: Relay.Variant, p: Params, page: Option<Paging>)
    requires "filter" in p && Interval(Some(p["filter"])).None?
    ensures RequestQuery(v, p, page) == RequestQuery(v, p - {"filter"}, page)
    ensures NoRecordsMessage(SelectBranch(v, p)) == NoRecordsMessage(SelectBranch(v, p - {"filter"}))
  {
    var p' := p - {"filter"};
    assert forall k :: k != "filter" ==> (k in p <==> k in p') && (k in p ==> p[k] == p'[k]);
    assert Clause(v, Param(p, "filter")) == "" == Clause(v, Param(p', "filter"));
    var b, b' := SelectBranch(v, p), SelectBranch(v, p');
    assert b == b' || (b.ByFilter? && b' == Latest);
  }

  /** As written, a `limit` or `offset` that `std::stoi` rejects, out of range or not, is a 500. */
  lemma BadPagingIsServerError(req: Request, db: Store)
    requires req.verb == Get && Connects(Relay.Current, db) && PageOf(Relay.Current, req.params).Err?
    ensures Incident(Relay.Current, req, db) == ServerError(Relay.Current)
  {
  }

  /** Decimal text of a value above the `int` range is out of range for `std::stoi`. */
  lemma StoiAboveRange(n: nat)
    requires n > Int32Max
    ensures Stoi(NatString(n)) == OutOfRange
  {
    assert NatString(n) + "" == NatString(n);
    StoiDigitsThen(NatString(n), "");
    NatStringValue(n);
  }

  /** The input that shows it: `limit=2147483648` gets a 500, never the out-of-range message. */
  lemma OutOfRangeLimitIsServerError(db: Store)
    requires Connects(Relay.Current, db)
    ensures var req := Request(Get, map["limit" := NatString(Int32Max + 1)]);
      && PageOf(Relay.Current, req.params) == Err(OutOfRange)
      && Incident(Relay.Current, req, db) == ServerError(Relay.Current)
  {
    StoiAboveRange(Int32Max + 1);
  }

  /** With the out-of-range clause reachable, such a request gets 400 and its message. */
  lemma IntendedOutOfRangeIsBadRequest(req: Request, db: Store)
    requires req.verb == Get && Connects(Relay.Current, db)
    requires PageOf(Relay.Current, req.params) == Err(OutOfRange)
    ensures IncidentIntended(Relay.Current, req, db) == Response(400, ErrorObject(OutOfRangeMessage))
  {
  }

  /** Every other request gets the same response from both. */
  lemma IntendedAgreesElsewhere(v: Relay.Variant, req: Request, db: Store)
    requires PageOf(v, req.params) != Err(OutOfRange)
    ensures IncidentIntended(v, req, db) == Incident(v, req, db)
  {
  }
}
