/**
 * The three lookup handlers: `/characters` and `/tribes` (current routes
 * only) and `/location` (both variants). Each opens a connection, issues one
 * statement chosen by whether its parameter is present, commits, and answers
 * the rows as JSON.
 */
module LookupRoutes {
  import opened Wrappers
  import opened Json
  import opened QueryText
  import opened Serializer
  import opened Http
  import Relay

  /** The catch-all of `/characters` and `/tribes`, whose message is misspelled in the source. */
  const MisspelledServerError: Response := Response(500, ErrorObject("Interal Server Error!"))

  const MissingParameter: string := "Missing parameter!"
  const NoCharacters: string := "Bad Request! No character records found"
  const NoTribes: string := "Bad Request! No tribe records found"
  const NoSystems: string := "Bad Request! No system records found"

  /**
   * One statement read by a formatter outside this model: a throw is the
   * catch-all, no rows a 400 with `noRecords`, and otherwise the transaction
   * is committed before the rows are formatted.
   */
  function FormattedLookup(q: Query, formatter: string, noRecords: string, db: Store): Response {
    match db.columns(q)
    case DbFailed => MisspelledServerError
    case Rows(rows) =>
      if |rows| == 0 then Response(400, ErrorObject(noRecords))
      else if !db.commits then MisspelledServerError
      else Response(200, Formatted(formatter, |rows|))
  }

  // ---------------------------------------------------------------- /characters

  /** `/characters`: the connection is opened before `name` is looked at. */
  function Characters(req: Request, db: Store): Response {
    if req.verb != Get then MethodNotAllowed
    else if !Connects(Relay.Current, db) then MisspelledServerError
    else if "name" !in req.params then Response(400, ErrorObject(MissingParameter))
    else FormattedLookup(CharactersMatching(SearchPattern(req.params["name"])), "format_characters", NoCharacters, db)
  }

  /**
   * Every outcome of `/characters`: 405 for another method, 400 for a missing
   * name or no matching character, 200 with the matches once committed, and
   * the misspelled 500 otherwise.
   */
  lemma CharactersOutcome(req: Request, db: Store)
    ensures var r := Characters(req, db);
      // the statement a present `name` selects; with none, no statement is issued
      var q := CharactersMatching(SearchPattern(if "name" in req.params then req.params["name"] else ""));
      && (r.status == 405 <==> req.verb != Get)
      && (r.status == 400 <==>
            req.verb == Get && Connects(Relay.Current, db)
            && ("name" !in req.params || (db.columns(q).Rows? && |db.columns(q).rows| == 0)))
      && (r.status == 400 && "name" !in req.params ==> r.body == ErrorObject(MissingParameter))
      && (r.status == 400 && "name" in req.params ==> r.body == ErrorObject(NoCharacters))
      && (r.status == 200 <==>
            req.verb == Get && Connects(Relay.Current, db) && "name" in req.params
            && db.columns(q).Rows? && |db.columns(q).rows| > 0 && db.commits)
      && (r.status == 200 ==> r.body == Formatted("format_characters", |db.columns(q).rows|))
      && (r.status !in {200, 400, 405} ==> r == MisspelledServerError)
  {
  }

  /** A connection failure wins over a missing parameter: the request is a 500, not a 400. */
  lemma CharactersConnectsFirst(req: Request, db: Store)
    requires req.verb == Get && !Connects(Relay.Current, db)
    ensures Characters(req, db) == MisspelledServerError
    ensures Characters(req.(params := req.params - {"name"}), db) == MisspelledServerError
  {
  }

  /** The search is for the value the request carried. */
  lemma CharactersSearchCarriesName(req: Request, db: Store)
    requires req.verb == Get && Connects(Relay.Current, db) && "name" in req.params
    ensures var q := CharactersMatching(SearchPattern(req.params["name"]));
      && Characters(req, db) == FormattedLookup(q, "format_characters", NoCharacters, db)
      && PatternValue(q.pattern) == Some(req.params["name"])
  {
    PatternRoundTrip(req.params["name"]);
  }

  // ---------------------------------------------------------------- /tribes

  /** `/tribes`: the members of the tribes matching `name`, or every tribe without it. */
  function TribesQuery(p: Params): (q: Query)
    ensures q.TribeMembers? <==> "name" in p
    ensures q.TribeMembers? ==> PatternValue(q.pattern) == Some(p["name"])
  {
    if "name" in p then
      PatternRoundTrip(p["name"]);
      TribeMembers(SearchPattern(p["name"]))
    else AllTribes
  }

  function TribesFormatter(p: Params): string {
    if "name" in p then "format_tribe_membership" else "format_tribes"
  }

  function Tribes(req: Request, db: Store): Response {
    if req.verb != Get then MethodNotAllowed
    else if !Connects(Relay.Current, db) then MisspelledServerError
    else FormattedLookup(TribesQuery(req.params), TribesFormatter(req.params), NoTribes, db)
  }

  /**
   * Every outcome of `/tribes`: both branches answer 400 on no rows with the
   * same message, and a 200 is formatted by the formatter of its branch.
   */
  lemma TribesOutcome(req: Request, db: Store)
    ensures var r := Tribes(req, db);
      var q := TribesQuery(req.params);
      && (r.status == 405 <==> req.verb != Get)
      && (r.status == 400 <==>
            req.verb == Get && Connects(Relay.Current, db) && db.columns(q).Rows? && |db.columns(q).rows| == 0)
      && (r.status == 400 ==> r.body == ErrorObject(NoTribes))
      && (r.status == 200 <==>
            req.verb == Get && Connects(Relay.Current, db)
            && db.columns(q).Rows? && |db.columns(q).rows| > 0 && db.commits)
      && (r.status == 200 && "name" in req.params ==> r.body.Formatted? && r.body.formatter == "format_tribe_membership")
      && (r.status == 200 && "name" !in req.params ==> r.body.Formatted? && r.body.formatter == "format_tribes")
      && (r.status !in {200, 400, 405} ==> r == MisspelledServerError)
  {
  }

  // ---------------------------------------------------------------- /location

  /** `/location`: the systems whose name or id matches `system`, or every system. */
  function LocationQuery(p: Params): (q: Query)
    ensures q.SystemsMatching? <==> "system" in p
    ensures q.SystemsMatching? ==> PatternValue(q.pattern) == Some(p["system"])
  {
    if "system" in p then
      PatternRoundTrip(p["system"]);
      SystemsMatching(SearchPattern(p["system"]))
    else AllSystems
  }

  /**
   * Both variants: the search answers 400 on no rows, the full listing has
   * no such check; then commit and `build_system_json`.
   */
  function Location(v: Relay.Variant, req: Request, db: Store): Response {
    if req.verb != Get then MethodNotAllowed
    else if !Connects(v, db) then ServerError(v)
    else
      var q := LocationQuery(req.params);
      match db.systems(q)
      case DbFailed => ServerError(v)
      case Rows(rows) =>
        if q.SystemsMatching? && |rows| == 0 then Response(400, ErrorObject(NoSystems))
        else if !db.commits then ServerError(v)
        else Response(200, Document(JArray(Items(rows, SystemItem))))
  }

  /**
   * Every outcome of `/location`: a 400 only for a search with no match, and
   * a 200 whose document reads back as exactly the rows of the statement
   * (possibly none, for the full listing).
   */
  lemma LocationOutcome(v: Relay.Variant, req: Request, db: Store)
    ensures var r := Location(v, req, db);
      var q := LocationQuery(req.params);
      && (r.status == 405 <==> req.verb != Get)
      && (r.status == 400 <==>
            req.verb == Get && Connects(v, db) && "system" in req.params
            && db.systems(q).Rows? && |db.systems(q).rows| == 0)
      && (r.status == 400 ==> r.body == ErrorObject(NoSystems))
      && (r.status == 200 <==>
            req.verb == Get && Connects(v, db) && db.systems(q).Rows? && db.commits
            && ("system" in req.params ==> |db.systems(q).rows| > 0))
      && (r.status == 200 ==>
            r.body.Document? && r.body.doc.JArray?
            && DecodeRows(r.body.doc.items, DecodeSystem) == Some(db.systems(q).rows))
      && (r.status !in {200, 400, 405} ==> r == ServerError(v))
  {
    var q := LocationQuery(req.params);
    if db.systems(q).Rows? {
      SystemArrayRoundTrip(db.systems(q).rows);
    }
  }

  /** The two copies of `/location` differ only in the connection they open and the 500 body. */
  lemma LocationVariantsAgree(req: Request, db: Store)
    requires Connects(Relay.Current, db) == Connects(Relay.Legacy, db)
    ensures var c, l := Location(Relay.Current, req, db), Location(Relay.Legacy, req, db);
      c.status == l.status && (c.status != 500 ==> c == l)
  {
  }
}
