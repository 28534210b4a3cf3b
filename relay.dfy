/**
 * `NotifyListener::operator()`: the handler libpqxx calls with the payload of
 * an `incident_trigger` notification. It projects a fixed list of keys out of
 * the parsed payload, looks the solar system's name up, writes the document
 * once with `dump(4)` and sends that text to every registered connection.
 * The current handler and the older one in server.cpp differ only in the `id`
 * key and in how they reach the database.
 */
module Relay {
  import opened Wrappers
  import opened Numbers
  import opened Json
  import opened ConnInfo
  import opened Registry

  /** Current handler (pgListener.cpp) or the older one (server.cpp). */
  datatype Variant = Current | Legacy

  /** Why a handler call throws; libpqxx receives the exception. */
  datatype RelayError =
    | ParseError        // the payload is not JSON
    | TypeError         // a lookup on a payload that is neither an object nor null, or an id of the wrong type
    | PoolEnvMissing    // a PGBOUNCER_* variable is unset
    | ConnectFailed     // the lookup connection or its transaction could not be opened
    | QueryFailed       // the lookup query or its commit failed
    | NullColumn        // the first row's solar_system_name is NULL

  /** The lookup's answer: the failure, or the first column of every row returned. */
  datatype QueryAnswer = QueryError | Rows(names: seq<Option<string>>)

  /** The oracles the handler consults besides its payload. */
  datatype Backend = Backend(env: Environment, connects: bool, lookup: string -> QueryAnswer)

  /** One `send_text` call. */
  datatype Send = Send(client: Handle, text: string)

  /** What a handler call that returns normally did. */
  datatype Delivery = Delivery(key: string, document: Json, wire: string, sends: seq<Send>)

  const CurrentKeys: seq<string> := ["id", "victim_name", "loss_type", "killer_name", "time_stamp", "solar_system_id"]
  const LegacyKeys: seq<string> := ["victim_name", "loss_type", "killer_name", "time_stamp", "solar_system_id"]

  function ProjectedKeys(variant: Variant): (ks: seq<string>)
    ensures |ks| > 0 && ks[|ks| - 1] == "solar_system_id"
  {
    if variant == Current then CurrentKeys else LegacyKeys
  }

  /** Non-const `operator[]` is defined on objects and on null (which it turns into an object). */
  predicate Indexable(j: Json) {
    j.JNull? || j.JObject?
  }

  /** The value `operator[]` yields on an indexable value: the member, or null when absent. */
  function MemberValue(j: Json, key: string): (v: Json)
    requires Indexable(j)
    ensures j.JObject? && key in Keys(j.members) ==> Find(j.members, key) == Some(v)
    ensures !(j.JObject? && key in Keys(j.members)) ==> v == JNull
  {
    if j.JObject? then
      match Find(j.members, key)
      case Some(v) => v
      case None => JNull
    else JNull
  }

  /** The projected members, in the order the keys are assigned. */
  function Project(j: Json, keys: seq<string>): (ms: seq<Member>)
    requires Indexable(j)
    ensures Keys(ms) == keys
    ensures forall i :: 0 <= i < |keys| ==> ms[i].value == MemberValue(j, keys[i])
  {
    seq(|keys|, i requires 0 <= i < |keys| => Member(keys[i], MemberValue(j, keys[i])))
  }

  /**
   * The lookup parameter: an integer id (signed or unsigned) is read as
   * `long long` and written by `std::to_string`; a string id is used as is;
   * anything else makes `get<std::string>` throw.
   */
  function LookupKey(id: Json): (r: Option<string>)
    ensures r.Some? <==> id.JInt? || id.JString?
    ensures id.JString? ==> r == Some(id.s)
    ensures id.JInt? ==> r == Some(DecimalString(LongLong(id.i)))
  {
    match id
    case JInt(i) => Some(DecimalString(LongLong(i)))
    case JString(s) => Some(s)
    case _ => None
  }

  /** The key the name was looked up under and the document to publish. */
  datatype Found = Found(key: string, document: Json)

  /** Everything between the projection and the dump: environment, connection, lookup. */
  function Enrich(variant: Variant, payload: Json, backend: Backend): Result<Found, RelayError>
    requires Indexable(payload)
  {
    Assemble(variant, Project(payload, ProjectedKeys(variant)), MemberValue(payload, "solar_system_id"), backend)
  }

  /** The checks and the lookup, given the projected members and the payload's id. */
  function Assemble(variant: Variant, members: seq<Member>, id: Json, backend: Backend): Result<Found, RelayError> {
    if variant == Current && PoolConnectionString(backend.env).Err? then Err(PoolEnvMissing)
    else if !backend.connects then Err(ConnectFailed)
    else
      match LookupKey(id)
      case None => Err(TypeError)
      case Some(key) => Attach(members, key, backend.lookup(key))
  }

  /** The lookup stage: the first row's name, if there is a row, goes after the projected members. */
  function Attach(members: seq<Member>, key: string, answer: QueryAnswer): Result<Found, RelayError> {
    match answer
    case QueryError => Err(QueryFailed)
    case Rows(names) =>
      if |names| == 0 then Ok(Found(key, JObject(members)))
      else if names[0].None? then Err(NullColumn)
      else Ok(Found(key, JObject(members + [Member("solar_system_name", JString(names[0].value))])))
  }

  /** One send of `wire` to each client, in order. */
  function Fanout(wire: string, clients: seq<Handle>): (sends: seq<Send>)
    ensures |sends| == |clients| && forall i :: 0 <= i < |clients| ==> sends[i] == Send(clients[i], wire)
  {
    seq(|clients|, i requires 0 <= i < |clients| => Send(clients[i], wire))
  }

  /** The handler as a function of its payload, its back end and the registry it sends to. */
  function Notify(variant: Variant, parsed: Option<Json>, backend: Backend, clients: seq<Handle>)
    : Result<Delivery, RelayError>
  {
    if parsed.None? then Err(ParseError)
    else if !Indexable(parsed.value) then Err(TypeError)
    else
      match Enrich(variant, parsed.value, backend)
      case Err(e) => Err(e)
      case Ok(found) =>
        var wire := DumpIndented(found.document);
        Ok(Delivery(found.key, found.document, wire, Fanout(wire, clients)))
  }

  // ------------------------------------------------------------ properties

  /** An unparsable payload throws before any lookup or send, whatever the back end. */
  lemma UnparsableThrowsFirst(variant: Variant, backend: Backend, clients: seq<Handle>)
    ensures Notify(variant, None, backend, clients) == Err(ParseError)
  {
  }

  /** The handler returns normally exactly when the payload parses, is indexable and the enrichment succeeds. */
  lemma NotifyStages(variant: Variant, parsed: Option<Json>, backend: Backend, clients: seq<Handle>)
    ensures Notify(variant, parsed, backend, clients).Ok? <==>
      parsed.Some? && Indexable(parsed.value) && Enrich(variant, parsed.value, backend).Ok?
    ensures Notify(variant, parsed, backend, clients).Ok? ==>
      var d := Notify(variant, parsed, backend, clients).value;
      Enrich(variant, parsed.value, backend) == Ok(Found(d.key, d.document))
  {
  }

  /** A successful lookup stage keeps the members and adds the first row's name when there is a row. */
  lemma AssembleShape(variant: Variant, members: seq<Member>, id: Json, backend: Backend)
    requires Assemble(variant, members, id, backend).Ok?
    ensures var f := Assemble(variant, members, id, backend).value;
      && LookupKey(id) == Some(f.key)
      && backend.lookup(f.key).Rows?
      && f.document.JObject?
      && var names := backend.lookup(f.key).names;
         && (|names| == 0 ==> f.document.members == members)
         && (|names| > 0 ==>
               && names[0].Some?
               && f.document.members == members + [Member("solar_system_name", JString(names[0].value))])
  {
  }

  /**
   * A successful enrichment looks the name up under the key of the payload's
   * `solar_system_id`; the document holds the projected keys in order, plus
   * `solar_system_name` when and only when the lookup returned a row.
   */
  lemma DocumentShape(variant: Variant, payload: Json, backend: Backend)
    requires Indexable(payload) && Enrich(variant, payload, backend).Ok?
    ensures var f := Enrich(variant, payload, backend).value;
      && LookupKey(MemberValue(payload, "solar_system_id")) == Some(f.key)
      && backend.lookup(f.key).Rows?
      && f.document.JObject?
      && var ms := f.document.members;
         var n := |ProjectedKeys(variant)|;
         var names := backend.lookup(f.key).names;
         && (|names| == 0 ==> Keys(ms) == ProjectedKeys(variant))
         && (|names| > 0 ==> Keys(ms) == ProjectedKeys(variant) + ["solar_system_name"]
                              && names[0].Some? && ms[n].value == JString(names[0].value))
         && forall i :: 0 <= i < n ==> ms[i].value == MemberValue(payload, ProjectedKeys(variant)[i])
  {
    var members := Project(payload, ProjectedKeys(variant));
    var id := MemberValue(payload, "solar_system_id");
    assert Enrich(variant, payload, backend) == Assemble(variant, members, id, backend);
    AssembleKeys(variant, members, id, backend);
  }

  /** The keys of a successful lookup stage: the members' keys, then the name's key when there is a row. */
  lemma AssembleKeys(variant: Variant, members: seq<Member>, id: Json, backend: Backend)
    requires Assemble(variant, members, id, backend).Ok?
    ensures var f := Assemble(variant, members, id, backend).value;
      && LookupKey(id) == Some(f.key)
      && backend.lookup(f.key).Rows?
      && f.document.JObject?
      && var ms := f.document.members;
         var names := backend.lookup(f.key).names;
         && |ms| >= |members|
         && (forall i :: 0 <= i < |members| ==> ms[i] == members[i])
         && (|names| == 0 ==> Keys(ms) == Keys(members))
         && (|names| > 0 ==> Keys(ms) == Keys(members) + ["solar_system_name"]
                              && names[0].Some? && ms[|members|].value == JString(names[0].value))
  {
    AssembleShape(variant, members, id, backend);
    var f := Assemble(variant, members, id, backend).value;
    var names := backend.lookup(f.key).names;
    if |names| > 0 {
      KeysAppend(members, [Member("solar_system_name", JString(names[0].value))]);
    }
  }

  lemma {:induction false} KeysAppend(a: seq<Member>, b: seq<Member>)
    ensures Keys(a + b) == Keys(a) + Keys(b)
  {
    if |a| > 0 {
      assert (a + b)[1..] == a[1..] + b;
      KeysAppend(a[1..], b);
    } else {
      assert a + b == b;
    }
  }

  /** The document is written once, and every client gets that text once, in registry order. */
  lemma Broadcast(variant: Variant, parsed: Option<Json>, backend: Backend, clients: seq<Handle>)
    requires Notify(variant, parsed, backend, clients).Ok?
    ensures var d := Notify(variant, parsed, backend, clients).value;
      && d.wire == DumpIndented(d.document)
      && |d.sends| == |clients|
      && forall i :: 0 <= i < |clients| ==> d.sends[i] == Send(clients[i], d.wire)
  {
  }

  /** A throwing call sends nothing to anybody: the sends all come after the last throw. */
  lemma NoSendOnError(variant: Variant, parsed: Option<Json>, backend: Backend, clients: seq<Handle>, other: seq<Handle>)
    ensures Notify(variant, parsed, backend, clients).Err? <==> Notify(variant, parsed, backend, other).Err?
    ensures Notify(variant, parsed, backend, clients).Err? ==>
              Notify(variant, parsed, backend, clients) == Notify(variant, parsed, backend, other)
  {
  }

  /** Two integer ids inside the `long long` range are looked up under different keys. */
  lemma LookupKeyInjective(a: int, b: int)
    requires -TwoTo63 <= a < TwoTo63 && -TwoTo63 <= b < TwoTo63
    requires LookupKey(JInt(a)) == LookupKey(JInt(b))
    ensures a == b
  {
    DecimalStringInjective(LongLong(a), LongLong(b));
  }

  /** An integer id and the string of its decimal digits select the same row. */
  lemma IntegerAndStringIdAgree(i: int)
    requires -TwoTo63 <= i < TwoTo63
    ensures LookupKey(JInt(i)) == LookupKey(JString(DecimalString(i)))
  {
  }

  /** The current handler checks the PGBOUNCER_* environment; the older one ignores it. */
  lemma PoolEnvironmentChecked(parsed: Json, backend: Backend, clients: seq<Handle>)
    requires Indexable(parsed) && PoolConnectionString(backend.env).Err?
    ensures Notify(Current, Some(parsed), backend, clients) == Err(PoolEnvMissing)
  {
  }

  /**
   * Where both handlers return normally on the same input, the older
   * document is the current one without its leading `id` member.
   */
  lemma LegacyOmitsId(payload: Json, backend: Backend)
    requires Indexable(payload)
    requires Enrich(Current, payload, backend).Ok? && Enrich(Legacy, payload, backend).Ok?
    ensures var c := Enrich(Current, payload, backend).value;
            var l := Enrich(Legacy, payload, backend).value;
            && c.key == l.key && c.document.JObject? && l.document.JObject?
            && |c.document.members| > 0 && c.document.members[0].key == "id"
            && l.document.members == c.document.members[1..]
  {
    var c := Project(payload, CurrentKeys);
    var id := MemberValue(payload, "solar_system_id");
    assert LegacyKeys == CurrentKeys[1..];
    ProjectTail(payload, CurrentKeys);
    assert Enrich(Current, payload, backend) == Assemble(Current, c, id, backend);
    assert Enrich(Legacy, payload, backend) == Assemble(Legacy, c[1..], id, backend);
    assert Keys(c)[0] == "id";
    AssembleDropsFirst(c, id, backend);
  }

  /** The lookup stage on the members without the first, next to the stage on all of them. */
  lemma AssembleDropsFirst(c: seq<Member>, id: Json, backend: Backend)
    requires |c| > 0
    requires Assemble(Current, c, id, backend).Ok? && Assemble(Legacy, c[1..], id, backend).Ok?
    ensures var cur := Assemble(Current, c, id, backend).value;
            var leg := Assemble(Legacy, c[1..], id, backend).value;
            && cur.key == leg.key && cur.document.JObject? && leg.document.JObject?
            && |cur.document.members| > 0 && cur.document.members[0] == c[0]
            && leg.document.members == cur.document.members[1..]
  {
    AssembleShape(Current, c, id, backend);
    AssembleShape(Legacy, c[1..], id, backend);
    var names := backend.lookup(LookupKey(id).value).names;
    if |names| > 0 {
      var last := [Member("solar_system_name", JString(names[0].value))];
      assert (c + last)[1..] == c[1..] + last;
    }
  }

  /** Projecting all keys but the first is projecting all keys and dropping the first member. */
  lemma ProjectTail(j: Json, keys: seq<string>)
    requires Indexable(j) && |keys| > 0
    ensures Project(j, keys[1..]) == Project(j, keys)[1..]
  {
  }

  // ------------------------------------------------------------ the handler

  /** Steps 45-59 of the handler: fill the document key by key, then look the name up. */
  method EnrichPayload(variant: Variant, payload: Json, backend: Backend) returns (r: Result<Found, RelayError>)
    requires Indexable(payload)
    ensures r == Enrich(variant, payload, backend)
  {
    var members := ProjectPayload(payload, ProjectedKeys(variant));
    r := AssembleDocument(variant, members, MemberValue(payload, "solar_system_id"), backend);
  }

  /** Steps 45-50: one `filtered_json[key] = parsed_json[key]` per key, in order. */
  method ProjectPayload(payload: Json, keys: seq<string>) returns (members: seq<Member>)
    requires Indexable(payload)
    ensures members == Project(payload, keys)
  {
    members := [];
    for k := 0 to |keys|
      invariant |members| == k
      invariant forall i :: 0 <= i < k ==> members[i] == Member(keys[i], MemberValue(payload, keys[i]))
    {
      members := members + [Member(keys[k], MemberValue(payload, keys[k]))];
    }
    var projected := Project(payload, keys);
    assert forall i :: 0 <= i < |keys| ==> projected[i].key == Keys(projected)[i] == keys[i];
  }

  /** Steps 51-59: connect, convert the id, look the name up and append it when a row came back. */
  method AssembleDocument(variant: Variant, members: seq<Member>, id: Json, backend: Backend)
    returns (r: Result<Found, RelayError>)
    ensures r == Assemble(variant, members, id, backend)
  {
    if variant == Current && PoolConnectionString(backend.env).Err? {
      return Err(PoolEnvMissing);
    }
    if !backend.connects {
      return Err(ConnectFailed);
    }
    var key := LookupKey(id);
    if key.None? {
      return Err(TypeError);
    }
    var answer := backend.lookup(key.value);
    if answer.QueryError? {
      return Err(QueryFailed);
    }
    var document := members;
    if |answer.names| > 0 {
      if answer.names[0].None? {
        return Err(NullColumn);
      }
      document := document + [Member("solar_system_name", JString(answer.names[0].value))];
    }
    r := Ok(Found(key.value, JObject(document)));
  }

  /**
   * The handler as the source runs it: parse, enrich, dump once, and send to
   * each registered connection in turn.
   */
  method HandleNotification(variant: Variant, parsed: Option<Json>, backend: Backend, registry: ConnectionRegistry)
    returns (outcome: Result<Delivery, RelayError>)
    ensures outcome == Notify(variant, parsed, backend, registry.connections)
  {
    if parsed.None? {
      return Err(ParseError);
    }
    if !Indexable(parsed.value) {
      return Err(TypeError);
    }
    var found := EnrichPayload(variant, parsed.value, backend);
    if found.Err? {
      return Err(found.error);
    }
    var wire := DumpIndented(found.value.document);
    var sends := SendAll(wire, registry.connections);
    outcome := Ok(Delivery(found.value.key, found.value.document, wire, sends));
  }

  /** Step 61: `send_text(wire)` on each registered connection, in order. */
  method SendAll(wire: string, clients: seq<Handle>) returns (sends: seq<Send>)
    ensures sends == Fanout(wire, clients)
  {
    sends := [];
    for k := 0 to |clients|
      invariant |sends| == k
      invariant forall i :: 0 <= i < k ==> sends[i] == Send(clients[i], wire)
    {
      sends := sends + [Send(clients[k], wire)];
    }
  }
}
