# alpha-strike incident service: a Dafny model of its core

alpha-strike serves a database of in-game kill mails ("incidents") over HTTP
(Crow) and relays new incidents to WebSocket clients as PostgreSQL raises
them on the `incident_trigger` channel. The repository has a current server
(pgListener.cpp, Routes.cpp, Serializer.cpp) and an older single-file copy
(server.cpp). Every element below is modelled for both, with a `Variant`
(`Current` or `Legacy`) where the two differ.

This project models:

- **The relay loop** (`Listener`), `listen_notifications`. It is a state
  machine driven by an oracle that answers every question the loop asks the
  outside world:
  - does the n-th connection succeed, the n-th `LISTEN`, the n-th heartbeat;
  - what does the n-th `is_open` report;
  - which notifications the n-th wait dispatches, in order, or whether it fails;
  - from which read on is the shutdown flag raised.

  `RunFrom` is the specification, for a given number of loop iterations and
  for any handler the wait calls on each notification. The servers register
  `RelayHandler`, which is `Notify`. One wait runs the handler on every
  pending notification in order, and stops at the first exception that
  leaves it. The imperative loops (`CurrentLoops`, `LegacyLoops`, and
  `ListenNotifications` and `LegacyListenNotifications` with the relay
  handler) are proved to produce exactly that run. Lemmas give:
  - how the loop exits and how it retries;
  - a protocol automaton (`Next`/`Walk`) that every run follows.
- **The notification handler** (`Relay`), `NotifyListener::operator()`, with
  stages parse → project → lookup key → lookup → attach name → serialise once
  → send to every registered client.
- **The WebSocket registry** (`Registry`), `ws_connections`. It is a class
  over a `seq` field: append on open, erase-remove on close.
- **The request side**:
  - the connection-string builders (`ConnInfo`);
  - `std::stoi` and `std::to_string` (`Numbers`);
  - `build_search_pattern`, both time-clause tables and the clause splice
    (`QueryText`);
  - the handlers `/incident` (`IncidentRoute`), `/totals` (`TotalsRoute`),
    and `/characters`, `/tribes` and `/location` (`LookupRoutes`). Each
    handler is a function from a request and a `Store` (the database as an
    oracle) to a status and a body. Shared definitions are in `Http`.
- **The row-to-document projections** (`Serializer`), in Serializer.cpp and
  server.cpp. Each is a method with a loop, proved equal to a map over the
  rows. The lemmas decode each document back into its rows.

JSON values, key order, string escaping and the indented dump are modelled
in `Json`. Wrappers has `Option` and `Result`.

## Model

| member | source | states |
|---|---|---|
| ConnInfo.ConnectionString | pgListener.cpp:13-29 | succeeds if and only if all five variables of the prefix are set |
| ConnInfo.StringIsJoinedAssignments | pgListener.cpp:24-28 | when it succeeds, the string is `dbname=… user=… password=… host=… port=…`, in that field order, joined by single spaces |
| ConnInfo.ParseConnectionString | Routes.cpp:20-24 | when no value contains a space, the space-separated reading of the built string (split at spaces, strip each `keyword=`) gives back the five values in order |
| ConnInfo.ConnectionStringDependsOnlyOnFields | Routes.cpp:10-24 | the result depends only on the five variables of the prefix |
| ConnInfo.SpaceInValueIsAmbiguous | Routes.cpp:20-24 | values are not quoted: two environments whose user/password differ but concatenate alike give the same string |
| ConnInfo.SplitJoin | Routes.cpp:20-24 | splitting a join of separator-free parts gives back the parts |
| Numbers.NatStringValue | pgListener.cpp:55 | the decimal digits of `to_string` read back as the number |
| Numbers.DecimalStringInjective | pgListener.cpp:55 | different integers have different `to_string` texts |
| Numbers.LongLong | pgListener.cpp:55 | `get<long long>` is congruent to the value mod 2^64, lies in the 64-bit range, and is the value itself when that is in range |
| Numbers.SkipSpaces | Routes.cpp:685-689 | the input after its leading C-locale white space: everything dropped is white space, and what is kept does not start with it |
| Numbers.StoiSkipsLeadingSpace | Routes.cpp:685-689 | white space in front of the text does not change what `stoi` reads |
| Numbers.LeadingDigits | Routes.cpp:685-689 | the longest digit prefix: all digits, followed by a non-digit or the end |
| Numbers.Stoi | Routes.cpp:685-689 | a parsed value always lies in the 32-bit range |
| Numbers.StoiDecimalRoundTrip | server.cpp:586-590 | `stoi(to_string(n)) == n` for every 32-bit n |
| Numbers.StoiIgnoresTrailingText | Routes.cpp:685-689 | digits followed by non-digit text parse as the digits alone |
| Numbers.StoiUnsigned | server.cpp:586-590 | the decimal text of a non-negative 32-bit value reads back as that value |
| Numbers.StoiNegative | server.cpp:586-590 | `-` before the digits of a magnitude up to 2^31 reads back as the negative value |
| Numbers.StoiDigitsThen | Routes.cpp:685-689 | a run of digits that ends the text or is followed by a non-digit reads as the value of those digits, with the range check applied |
| Json.Keys | pgListener.cpp:38-50 | one key per member, in order |
| Json.Find | pgListener.cpp:45-50 | a key is found if and only if present, and the value found is a member's value |
| Json.EscapeRoundTrip | pgListener.cpp:60 | the string escaping of the dump reads back to the original text |
| Registry.WithoutMembers | Routes.cpp:854 | after erase-remove, exactly the other handles that were present remain |
| Registry.WithoutCounts | Routes.cpp:854 | every occurrence of the handle is removed, and each other handle keeps its count |
| Registry.WithoutAppend | Routes.cpp:854 | erase-remove distributes over concatenation, so the relative order of the rest is kept |
| Registry.WithoutAbsent | server.cpp:702 | removing an absent handle changes nothing |
| Registry.WithoutIdempotent | server.cpp:702 | removing twice is removing once |
| Registry.OpenThenClose | Routes.cpp:845-854 | opening a new handle and closing it again restores the registry |
| Registry.Welcome | Routes.cpp:848-850 | the greeting is an object with the single key `message` and the service's text |
| Registry.ConnectionRegistry.constructor | Routes.cpp:836 | the registry starts empty |
| Registry.ConnectionRegistry.OnOpen | Routes.cpp:840-850 | appends the handle at the end, keeps earlier entries, and answers the compact greeting |
| Registry.ConnectionRegistry.OnClose | server.cpp:698-702 | the new registry is the old one with every occurrence of the handle erased |
| Relay.ProjectedKeys | pgListener.cpp:45-50 | the projection ends with `solar_system_id` in both variants |
| Relay.MemberValue | pgListener.cpp:45-50 | `operator[]` gives the member's value, or null when the key is absent |
| Relay.Project | server.cpp:43-47 | the projected keys are exactly the variant's list, each with the payload's value |
| Relay.LookupKey | pgListener.cpp:54-56 | a key exists exactly for integer or string ids: an integer gives its decimal string after the long long conversion, a string passes through |
| Relay.LookupKeyInjective | pgListener.cpp:54-56 | different 64-bit integer ids give different lookup keys |
| Relay.IntegerAndStringIdAgree | server.cpp:56-61 | an integer id and its decimal text look up the same system |
| Relay.UnparsableThrowsFirst | pgListener.cpp:40-44 | an unparsable payload raises before any connection, lookup or send |
| Relay.NotifyStages | pgListener.cpp:40-61 | a delivery happens exactly when the payload parses, can be indexed, and its enrichment succeeds; it carries that enrichment |
| Relay.PoolEnvironmentChecked | pgListener.cpp:51 | the current handler raises when a PGBOUNCER_* variable is unset |
| Relay.AssembleShape | pgListener.cpp:51-59 | a success looked up the id's key, keeps the projected members, and appends the first row's name exactly when there is a row |
| Relay.DocumentShape | pgListener.cpp:45-59 | the keys are `id, victim_name, loss_type, killer_name, time_stamp, solar_system_id`, plus `solar_system_name` only when the lookup returned a row; the values are the payload's |
| Relay.LegacyOmitsId | server.cpp:42-47 | the older document is the current one without its leading `id` member, under the same lookup key |
| Relay.ProjectTail | server.cpp:42-47 | projecting a list without its first key drops the first member |
| Relay.Fanout | pgListener.cpp:61 | one send per client, in registry order, each of the same text |
| Relay.Broadcast | pgListener.cpp:60-61 | the document is dumped once with indent 4, and every registered client is sent that text once, in order |
| Relay.NoSendOnError | server.cpp:34-69 | an error depends neither on the registry nor on any sends |
| Relay.EnrichPayload | pgListener.cpp:45-59 | the key-by-key build of `filtered_json` computes `Enrich` |
| Relay.ProjectPayload | pgListener.cpp:45-50 | the six copies into `filtered_json` produce the projected members, key by key and in order |
| Relay.AssembleDocument | pgListener.cpp:51-59 | connecting, the name lookup, the commit and the optional `solar_system_name` give exactly `Assemble`'s outcome |
| Relay.AssembleKeys | pgListener.cpp:51-59 | a document keeps every projected member in place and adds only `solar_system_name`, carrying the first row's name, when the lookup returned rows |
| Relay.SendAll | pgListener.cpp:61 | the send loop computes `Fanout` |
| Relay.HandleNotification | server.cpp:27-78 | the whole handler, on the registry's current connections, computes `Notify` |
| Listener.ShutdownStopsAtNextCheck | pgListener.cpp:66-76 | once the flag is raised, the next check at either loop head returns, with no further action |
| Listener.ReturnsOnlyOnShutdown | pgListener.cpp:66 | a run returns only in the current loop and only when the shutdown flag is raised |
| Listener.LegacyNeverReturns | server.cpp:86-101 | the older loop never returns |
| Listener.MissingEnvironmentRetriesForever | pgListener.cpp:66-68 | with PGDIRECT_* unset, each iteration is one 5-second backoff, forever |
| Listener.ClosedConnectionReconnectsAtOnce | pgListener.cpp:76 | a connection that reports closed is followed at once by a new attempt, with no backoff |
| Listener.StepFollows | pgListener.cpp:65-93 | each loop step is a legal path of the protocol automaton |
| Listener.OuterStepFollows | pgListener.cpp:66-74 | the events of one pass of the outer loop (connect, LISTEN, or the failure and the 5 s wait) are a legal path from the idle mode |
| Listener.InnerStepFollows | pgListener.cpp:76-87 | the events of one pass of the inner loop (a notification, a heartbeat, or the heartbeat failure) are a legal path from the open mode |
| Listener.RunFollowsProtocol | pgListener.cpp:65-93 | every run follows the automaton: connect, `LISTEN` once, then waits; a quiet wait is followed by exactly one probe; any failure by one 5-second sleep and a new attempt |
| Listener.DeliverCharacterised | pgListener.cpp:77 | within one wait the i-th handled event carries the i-th notification's result; without an escaping exception every notification is handled; with one, handling stops right after the first notification whose exception escapes |
| Listener.DeliverStopsAtFirstEscape | pgListener.cpp:77 | when the k-th notification is the first whose exception escapes, exactly k + 1 are handled and the wait ends in that exception |
| Listener.WaitStepFollows | pgListener.cpp:77-86 | the events of one wait (every handled notification, the heartbeat, or a failure with its 5 s sleep) are a legal path from the open mode |
| Listener.DeliverAll | pgListener.cpp:77 | the handler loop inside `await_notification` computes `Deliver` of the handlers' results |
| Listener.AwaitOnce | pgListener.cpp:77-86 | one wait, with every dispatched notification or the heartbeat after a quiet wait, computes `WaitStep`, and never returns from the loops |
| Listener.OuterOnce | pgListener.cpp:66-75 | one outer iteration (flag, environment, connect, `LISTEN`) computes `OuterStep` |
| Listener.InnerOnce | server.cpp:101-119 | one inner iteration computes `InnerStep`, and never returns from the loops |
| Listener.InnerLoop | pgListener.cpp:76-87 | the inner loop extends the trace by exactly the events `RunFrom` puts next, and leaves only at the outer head or when the iteration bound is used up |
| Listener.OuterIteration | pgListener.cpp:66-88 | one outer pass and its inner loop extend the trace by exactly the events `RunFrom` puts next, using at least one iteration; the older loop never returns from it |
| Listener.CurrentLoops | pgListener.cpp:65-93 | the nested loops with any handler produce exactly `RunFrom(Current, …)` |
| Listener.LegacyLoops | server.cpp:84-128 | the older nested loops with any handler produce exactly `RunFrom(Legacy, …)`, and stop only at the iteration bound |
| Listener.ListenNotifications | pgListener.cpp:65-93 | with the relay handler registered, the nested loops produce exactly `RunFrom(Current, …)` |
| Listener.LegacyListenNotifications | server.cpp:84-128 | with the relay handler registered, the older nested loops produce exactly `RunFrom(Legacy, …)`, and stop only at the iteration bound |
| Serializer.IncidentItem | Serializer.cpp:6-15 | keys `id, victim_address, victim_name, loss_type, killer_address, killer_name, time_stamp, solar_system_id, solar_system_name`, in order |
| Serializer.SystemItem | Serializer.cpp:24-31 | keys `solar_system_id, solar_system_name, coordinates`; the id is an integer, and the coordinates have keys `x, y, z` |
| Serializer.NameTotalsItem | Serializer.cpp:40-43 | `person` becomes `name`; keys `name, total_kills, total_losses` |
| Serializer.KillerItem | Serializer.cpp:52-54 | keys `name, kills`; `kills` is the incident count |
| Serializer.VictimItem | Serializer.cpp:63-65 | keys `name, losses`; `losses` is the incident count |
| Serializer.SystemCountItem | Serializer.cpp:74-77 | keys `solar_system_id, solar_system_name, incident_count`; here the id is a string |
| Serializer.IncidentItemRoundTrip | Serializer.cpp:6-15 | an incident item decodes back to its row |
| Serializer.SystemItemRoundTrip | Serializer.cpp:24-31 | a system item decodes back to its row |
| Serializer.NameTotalsItemRoundTrip | Serializer.cpp:40-43 | a totals item decodes back to its row |
| Serializer.KillerItemRoundTrip | Serializer.cpp:52-54 | a killer item decodes back to its row |
| Serializer.VictimItemRoundTrip | Serializer.cpp:63-65 | a victim item decodes back to its row |
| Serializer.SystemCountItemRoundTrip | Serializer.cpp:74-77 | a system-count item decodes back to its row |
| Serializer.KillersAndVictimsDiffer | Serializer.cpp:54-65 | the killer and victim items of a row differ, and a killer item is not a victim item |
| Serializer.Items | Serializer.cpp:5-16 | one item per row, in row order |
| Serializer.DecodeItems | Serializer.cpp:4-18 | when every item decodes to its row, the whole array decodes to the rows, in order |
| Serializer.PushItems | server.cpp:130-152 | the `push_back` loop builds exactly `Items` of the rows |
| Serializer.IncidentArrayRoundTrip | Serializer.cpp:3-19 | an incident array decodes back to its rows |
| Serializer.SystemArrayRoundTrip | Serializer.cpp:21-35 | a system array decodes back to its rows |
| Serializer.NameTotalsArrayRoundTrip | Serializer.cpp:37-47 | a totals array decodes back to its rows |
| Serializer.KillerArrayRoundTrip | Serializer.cpp:49-58 | a killer array decodes back to its rows |
| Serializer.VictimArrayRoundTrip | Serializer.cpp:60-69 | a victim array decodes back to its rows |
| Serializer.SystemCountArrayRoundTrip | Serializer.cpp:71-81 | a system-count array decodes back to its rows |
| Serializer.BuildIncidentJson | Serializer.cpp:3-19 | the array has one incident item per row, in order, and decodes back to the rows (an empty result gives an empty array) |
| Serializer.BuildSystemJson | Serializer.cpp:21-35 | the array has one system item per row, in order, and decodes back to the rows |
| Serializer.FormatName | server.cpp:174-186 | the array has one totals item per row, in order, and decodes back to the rows |
| Serializer.FormatTopKillers | Serializer.cpp:49-58 | the array has one killer item per row, in order, and decodes back to the rows |
| Serializer.FormatTopVictims | server.cpp:200-212 | the array has one victim item per row, in order, and decodes back to the rows |
| Serializer.FormatSystems | Serializer.cpp:71-81 | the array has one system-count item per row, in order, and decodes back to the rows |
| QueryText.SearchPattern | Routes.cpp:285-287 | the pattern is two characters longer than the value, with `%` at both ends |
| QueryText.PatternRoundTrip | Routes.cpp:596-598 | the value can be read back from its pattern |
| QueryText.SearchPatternInjective | server.cpp:493-495 | different values give different patterns |
| QueryText.Interval | Routes.cpp:289-305 | an interval exists if and only if the filter is exactly `day`, `week` or `month` |
| QueryText.TimeClauseEmptyIff | Routes.cpp:599-612 | in both tables, the clause is empty if and only if the filter is null or not one of the three keywords |
| QueryText.TimeClauseRoundTrip | server.cpp:312-328 | in both tables, the keyword can be read back from its clause |
| QueryText.TimeClauseInjective | Routes.cpp:289-305 | different keywords give different clauses |
| QueryText.FileTimeClauseConstants | server.cpp:505-509 | the two numbers in the older clause's text are the decimal digits of the 1601-to-1970 offset in 100-ns ticks (369 years, 89 of them leap) and of the ticks per second |
| QueryText.FileTimeRoundTrip | server.cpp:505-509 | the clause's real division `/ 10000000.0` maps the FILETIME stamp of a Unix second plus a sub-second tick count back to that second and fraction, whose floor is the second |
| QueryText.FileTimeCutoff | server.cpp:505-509 | the clause keeps a stamp exactly when it is at or after the FILETIME of the cutoff second |
| QueryText.Splice | Routes.cpp:338-341 | with an empty clause the query is the base plus the fixed suffix; otherwise the joiners and the clause lie between them |
| QueryText.SpliceInjective | Routes.cpp:512-517 | the splice is injective in its clause: different clauses, empty or not, give different queries |
| QueryText.SpliceContains | Routes.cpp:418-423 | a spliced query begins with the base, and the clause follows the joiner |
| QueryText.AppendClause | Routes.cpp:510-517 | the `+=` assembly computes `Splice` |
| Http.Param | Routes.cpp:589-595 | `url_params.get` gives a value if and only if the key is present |
| Http.ServerError | Routes.cpp:572-577 | the catch-all is a 500: a JSON error object now, plain text in the older server |
| Http.Connects | Routes.cpp:585 | a current connection is possible only when all PGBOUNCER_* variables are set |
| Http.Clause | server.cpp:312-328 | the variant's clause is empty if and only if the filter names no interval |
| Http.ClauseRoundTrip | Routes.cpp:599-612 | the filter keyword can be read back from the variant's clause |
| Http.FirstPresent | Routes.cpp:613-809 | reference for an else-if chain: the index of the first present key, with every earlier key absent (or none present) |
| Http.FirstKey | Routes.cpp:613-809 | a key is chosen if and only if some selector is present, and the chosen key is present |
| Http.FirstKeyCons | server.cpp:515-664 | the chain tests its first key and otherwise the rest |
| Http.FirstPresentIgnores | Routes.cpp:307-473 | a parameter that is not a selector does not change the choice |
| IncidentRoute.SelectBranchFollowsPrecedence | Routes.cpp:613-809 | exactly one branch runs, the first present of name > system > mail_id > tribe > filter (the older server has no tribe), and it reads that parameter |
| IncidentRoute.CurrentPrecedence | Routes.cpp:613-809 | the current handler tests name, system, mail_id, tribe and filter in that order |
| IncidentRoute.LegacyPrecedence | server.cpp:486-660 | the older handler tests name, system, mail_id and filter in that order |
| IncidentRoute.PageOf | Routes.cpp:594-595 | only the current handler pages; a failure is a `stoi` exception |
| IncidentRoute.DefaultPaging | Routes.cpp:594-595 | with neither parameter, `limit` is 100 and `offset` 0 |
| IncidentRoute.PagingRoundTrip | Routes.cpp:594-595 | a 32-bit `limit` and `offset` written in decimal are the paging used |
| IncidentRoute.SearchQueryCarriesRequest | Routes.cpp:613-647 | a search statement matches the branch's column, with the value's pattern, the request's paging and the filter's clause, all recoverable |
| IncidentRoute.MailIdRoundTrip | server.cpp:583-590 | a decimal 32-bit `mail_id` selects exactly that incident id |
| IncidentRoute.IncidentStatuses | Routes.cpp:826-827 | the handler answers 200, 400, 405 or 500; 405 with no body exactly when the method it is given is not GET |
| IncidentRoute.IncidentSucceeds | Routes.cpp:810-813 | 200 exactly when connected, paged, and the statement answers rows that commit; the document decodes back to those rows |
| IncidentRoute.IncidentBadRequest | Routes.cpp:684-714 | 400 exactly for a `mail_id` `stoi` rejects (plain text `Invalid 'id' parameter`) or a statement with no rows (that branch's error object) |
| IncidentRoute.UnknownFilterIgnored | Routes.cpp:749-778 | a `filter` that is not a keyword handles the request exactly as without it |
| IncidentRoute.BadPagingIsServerError | Routes.cpp:816-820 | as written, any `limit`/`offset` that `stoi` rejects is a 500 |
| IncidentRoute.StoiAboveRange | Routes.cpp:594 | a decimal above 2^31-1 is out of range for `stoi` |
| IncidentRoute.OutOfRangeLimitIsServerError | Routes.cpp:816-825 | as written, `limit=2147483648` is a 500, not the out-of-range 400 |
| IncidentRoute.IntendedOutOfRangeIsBadRequest | Routes.cpp:821-825 | with the out-of-range clause reachable, such a request is a 400 with its message |
| IncidentRoute.IntendedAgreesElsewhere | Routes.cpp:816-825 | the corrected handler differs from the written one only on out-of-range paging |
| TotalsRoute.SelectBranchFollowsPrecedence | Routes.cpp:307-473 | exactly one branch runs, the first present of name > system > tribe (the older server has no tribe), or the overview |
| TotalsRoute.EmptyValueSelectsAggregate | Routes.cpp:307-308 | the current handler aggregates a whole category exactly when the value is present but empty; otherwise it searches the value's pattern |
| TotalsRoute.TotalsStatuses | Routes.cpp:263-266 | the handler answers 200, 400, 405 or 500; 405 exactly when the method it is given is not GET |
| TotalsRoute.TotalsBadRequest | Routes.cpp:372-376 | 400 exactly when a category's statement returns no rows, with that category's message (and the older messages) |
| TotalsRoute.SummaryOutcome | Routes.cpp:507-570 | the overview is never a 400; it is a 200 exactly when every top-ten statement answers; its killer and victim lists (and the older `top_systems`) decode back to the rows, and the older keys are in order |
| TotalsRoute.LegacyCategoryDocument | server.cpp:330-410 | an older category's 200 document (`formatName` or `formatSystems`) decodes back to the statement's rows |
| TotalsRoute.UnknownFilterIgnored | Routes.cpp:289-305 | a `filter` that is not a keyword handles the request exactly as without it |
| LookupRoutes.CharactersOutcome | Routes.cpp:59-118 | the handler answers 405 when given another method; 400 for a missing name or no match; 200 once committed; otherwise the misspelled 500 |
| LookupRoutes.CharactersConnectsFirst | Routes.cpp:66-72 | a connection failure is a 500 even when `name` is missing |
| LookupRoutes.CharactersSearchCarriesName | Routes.cpp:72-88 | the search pattern carries the requested name |
| LookupRoutes.TribesQuery | Routes.cpp:134-176 | with `name`, the members of the matching tribes; without it, every tribe |
| LookupRoutes.TribesOutcome | Routes.cpp:120-206 | both branches give 400 on no rows with the same message; a 200 comes from the branch's formatter; otherwise the misspelled 500 |
| LookupRoutes.LocationQuery | Routes.cpp:217-234 | with `system`, the matching systems; without it, all systems |
| LookupRoutes.LocationOutcome | Routes.cpp:208-259 | 400 only for a search with no match; a 200 document decodes back to exactly the rows, possibly none for the full listing |
| LookupRoutes.LocationVariantsAgree | server.cpp:237-284 | the two copies differ only in their connection and their 500 body |

## Left out

- SQL text and semantics: each statement is a `Query` value naming the branch and its bound values (pattern, clause, paging). The rows are oracle input, and Splice models the string assembly on abstract pieces.
- libpqxx, Crow and nlohmann internals are oracle inputs, not modelled:
  - whether an exception from the notification handler escapes `await_notification` is an oracle choice on every received notification (the `escapes` flag), not a claim either way;
  - the time unit of `await_notification(1000)` appears only as the bound recorded in `Await`.
- Concurrency: `ws_mutex`, the `shutdown_requested` atomic, the listener thread and signal handling. The relay handler holds the lock across the lookup and all sends. The model takes the registry as it is when the handler runs, and the flag as the answer to each read.
- Sleeping and wall-clock time: a backoff is the event `Sleep(cause, 5)`.
- The current relay's lookup connection is modelled by whether it connects, not by its connection string.
- Floating-point numbers in payloads are kept as their text. Invalid UTF-8 and duplicate payload keys are not modelled.
- `/health` (a count query), the WebSocket `onmessage` echo and `onerror` reply, response headers, and `main`/`Server.cpp` start-up are not part of this model.
- The formatters Routes.cpp calls but no shown file defines (`format_characters`, `format_tribe_membership`, `format_tribes`, `format_top_names`, `format_top_systems`, `format_top_tribes`) appear only as the `Formatted` and `Overview` bodies: the formatter's name and the row count it received.
- Serializer and relay column reads: NULL columns (except the relay's `solar_system_name`) and `as<int>` overflow are not modelled; rows are typed values.
- Repeated URL keys: `Params` is a map with one value per key.
- `dump(4)` and `dump()` are `Json.Pretty` and `Json.Compact`, a model of nlohmann's output layout. Only the escaping has a proved inverse.
- ConnInfo.ParseConnectionString: the read-back is a space-separated reading, not all of libpq's grammar. libpq also splits at tabs and newlines, skips blanks after `=` (so an empty value would swallow the next keyword), drops backslash escapes and treats a leading `'` as a quote. The lemma's requires excludes only spaces, so it does not claim what libpq reads for those other values.
- Relay.LookupKey: `JInt` is unbounded. nlohmann's parser stores an integer literal outside [-2^63, 2^64) as a float, so `is_number_integer()` is false and `get<std::string>` throws. The model instead wraps such a `JInt` modulo 2^64 like any other; payloads are given as parsed values, so those literals are not excluded.
- The older server's `pqxx::connection` with no argument uses libpq's own environment defaults. Its outcome is `Store.connects("")` or `Oracle.connects`.
- Crow's routing is not modelled. A route declared with `methods("GET")` rejects other methods, and answers OPTIONS with 204, before the handler runs. The handlers' own `req.method != "GET"` checks, which give 405, are modelled as written; each handler is taken to be given whatever request reaches it.
- The Python scripts, the unit test (which tests a route defined inside the test) and the headers are not part of this model.

## Findings

| source | as written | input that shows it | evidently intended | confidence | as-written member | corrected member |
|---|---|---|---|---|---|---|
| Routes.cpp:816-825 | `catch (const std::exception&)` comes before `catch (const std::out_of_range&)`, so an out-of-range `limit`/`offset` always gets the generic 500 | `GET /incident?limit=2147483648` | 400 with `Bad Request! Parameter value out of range for limit, or offset!` | not executed | IncidentRoute.OutOfRangeLimitIsServerError | IncidentRoute.IntendedOutOfRangeIsBadRequest |
