/**
 * What the HTTP handlers share: requests and responses as values, the
 * statements they put to the database, the database itself as an oracle
 * that answers each statement, and the parameter-precedence reference used
 * to state each route's dispatch order.
 */
module Http {
  import opened Wrappers
  import opened Json
  import opened ConnInfo
  import opened QueryText
  import opened Serializer
  import Relay

  /** Crow's `url_params`: a key present with a value (possibly empty), or absent. */
  type Params = map<string, string>

  datatype HttpMethod = Get | Post | Put | Patch | Delete | Head | Options

  datatype Request = Request(verb: HttpMethod, params: Params)

  /** `req.url_params.get(key)`: the value, or the null pointer. */
  function Param(p: Params, key: string): (r: Option<string>)
    ensures r.Some? <==> key in p
    ensures r.Some? ==> r.value == p[key]
  {
    if key in p then Some(p[key]) else None
  }

  /** The bodies the handlers produce. */
  datatype Body =
    | NoBody
      /** A plain-text body. */
    | Text(text: string)
      /** Crow's `{"error": message}` object. */
    | ErrorObject(message: string)
      /** `doc.dump(4)` sent with Content-Type application/json. */
    | Document(doc: Json)
      /** The document a formatter outside this model makes of `rowCount` rows. */
    | Formatted(formatter: string, rowCount: nat)
      /**
       * The current `/totals` overview: the two lists the serializers build,
       * and the row counts handed to the two formatters outside this model.
       */
    | Overview(topKillers: Json, topVictims: Json, topSystemsRows: nat, topTribesRows: nat)

  datatype Response = Response(status: nat, body: Body)

  const MethodNotAllowed: Response := Response(405, NoBody)

  const InternalErrorText: string := "Internal Server Error!"

  /** The catch-all handler: the current routes answer a JSON object, the older ones plain text. */
  function ServerError(v: Relay.Variant): (r: Response)
    ensures r.status == 500
  {
    match v
    case Current => Response(500, ErrorObject(InternalErrorText))
    case Legacy => Response(500, Text(InternalErrorText))
  }

  // ---------------------------------------------------------------- statements

  /** The column a search pattern is matched against. */
  datatype Column = NameColumn | SystemColumn | TribeColumn

  /** The four top-ten lists of the `/totals` overview. */
  datatype TopList = TopKillers | TopVictims | TopSystems | TopTribes

  /** `LIMIT` and `OFFSET` of the current `/incident` statements. */
  datatype Paging = Paging(limit: int, offset: int)

  /**
   * A statement with its bound values: which SQL text the handler chose and
   * what it filled in (search pattern, time clause, paging). The SQL text
   * itself is not modelled; within one variant, two requests that issue equal
   * `Query` values issue the same statement. The two variants' texts differ
   * for some constructors (`ILIKE` against `LIKE`, the incident-by-id statement).
   */
  datatype Query =
    | IncidentsMatching(column: Column, pattern: string, clause: string, page: Option<Paging>)
    | IncidentById(id: int)
    | RecentIncidents(clause: string, page: Option<Paging>)
    | TotalsMatching(column: Column, pattern: string, clause: string)
    | TotalsAll(column: Column, clause: string)
    | Top(list: TopList, clause: string)
    | CharactersMatching(pattern: string)
    | TribeMembers(pattern: string)
    | AllTribes
    | SystemsMatching(pattern: string)
    | AllSystems

  /** What the database answers a statement: an exception, or the rows. */
  datatype Answer<R> = DbFailed | Rows(rows: seq<R>)

  /** A row read only by a formatter outside this model. */
  datatype Columns = Columns

  /**
   * The database as the handlers see it: the environment, which connection
   * strings connect, whether a commit succeeds, and the rows of each
   * statement, typed by the serializer that reads them.
   */
  datatype Store = Store(
    env: Environment,
    connects: string -> bool,
    commits: bool,
    incidents: Query -> Answer<IncidentRow>,
    systems: Query -> Answer<SystemRow>,
    nameTotals: Query -> Answer<NameTotalsRow>,
    counts: Query -> Answer<CountRow>,
    systemCounts: Query -> Answer<SystemCountRow>,
    columns: Query -> Answer<Columns>)

  /**
   * Opening `pqxx::connection` and `pqxx::work`: the current routes build the
   * pooled connection string first (throwing when a PGBOUNCER_* variable is
   * unset); the older ones use libpq's defaults, written here as "".
   */
  function Connects(v: Relay.Variant, db: Store): (ok: bool)
    ensures v.Current? && ok ==> AllSet(PoolPrefix, db.env)
  {
    match v
    case Current =>
      (match PoolConnectionString(db.env)
       case Err(_) => false
       case Ok(conninfo) => db.connects(conninfo))
    case Legacy => db.connects("")
  }

  /** The time-clause table each variant uses. */
  function Clause(v: Relay.Variant, filter: Option<string>): (c: string)
    ensures c == "" <==> Interval(filter).None?
  {
    TimeClauseEmptyIff(filter);
    match v
    case Current => TimeClause(filter)
    case Legacy => LegacyTimeClause(filter)
  }

  /** Reads the filter keyword back out of a clause of either table. */
  function ClauseFilter(v: Relay.Variant, clause: string): Option<string> {
    match v
    case Current => ClauseKeyword(clause, EpochClauseHead, EpochClauseTail)
    case Legacy => ClauseKeyword(clause, FileTimeClauseHead, FileTimeClauseTail)
  }

  /** A clause names its keyword: different keywords never share a clause, in either table. */
  lemma ClauseRoundTrip(v: Relay.Variant, filter: Option<string>)
    requires Interval(filter).Some?
    ensures ClauseFilter(v, Clause(v, filter)) == filter
  {
    TimeClauseRoundTrip(filter);
  }

  // ---------------------------------------------------------------- precedence

  /**
   * The reference for every if/else-if chain over parameters: the index of
   * the first key of `keys` present in `p`, if any.
   */
  function FirstPresent(p: Params, keys: seq<string>): (r: Option<nat>)
    ensures r.Some? ==> r.value < |keys| && keys[r.value] in p
    ensures r.Some? ==> forall j :: 0 <= j < r.value ==> keys[j] !in p
    ensures r.None? ==> forall j :: 0 <= j < |keys| ==> keys[j] !in p
  {
    if |keys| == 0 then None
    else if keys[0] in p then Some(0)
    else
      match FirstPresent(p, keys[1..])
      case None => None
      case Some(i) => Some(i + 1)
  }

  /** The key `FirstPresent` picks, as a key rather than an index. */
  function FirstKey(p: Params, keys: seq<string>): (r: Option<string>)
    ensures r.Some? <==> exists j :: 0 <= j < |keys| && keys[j] in p
    ensures r.Some? ==> r.value in p
  {
    match FirstPresent(p, keys)
    case None => None
    case Some(i) => Some(keys[i])
  }

  /** The chain tests its first key, then the rest in order. */
  lemma FirstKeyCons(p: Params, k: string, keys: seq<string>)
    ensures FirstKey(p, [k] + keys) == if k in p then Some(k) else FirstKey(p, keys)
  {
    assert ([k] + keys)[1..] == keys;
  }

  /** Removing a parameter that is not one of `keys` leaves the choice alone. */
  lemma {:induction false} FirstPresentIgnores(p: Params, keys: seq<string>, k: string)
    requires k !in keys
    ensures FirstPresent(p - {k}, keys) == FirstPresent(p, keys)
  {
    if |keys| > 0 {
      FirstPresentIgnores(p, keys[1..], k);
    }
  }
}
