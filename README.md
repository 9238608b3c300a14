# ELK demo: logging and ToDo core, modelled in Dafny

This project models the parts of the ELK demo applications that decide what gets logged
and what the ToDo application stores:

- the Monolog JSON formatter of the Phase7 ToDo app;
- the winston ELK format and its helpers in the Next.js app;
- the request-logging middleware of the ToDo app;
- the log-generating test controller of the Application-Logger app;
- the ToDo controller and the query scopes of both `Todo` models;
- the generated route helpers of the Phase7 front end.

Each file is one module:

| file | module | models |
|---|---|---|
| `wrappers.dfy` | `Wrappers` | `Option` |
| `ascii.dfy` | `Ascii` | ASCII upper- and lower-casing of one character |
| `decimal.dfy` | `Decimal` | decimal rendering and parsing of integers (PHP string interpolation, JavaScript `String(n)`) |
| `php_value.dfy` | `Php` | PHP values: scalars, lists, associative arrays, throwables |
| `log_facade.dfy` | `LogFacade` | Laravel's `Log` facade as state: the shared context and the events written, in order |
| `custom_json_formatter.dfy` | `CustomJsonFormatter` | `CustomJsonFormatter::format` |
| `elk_logger.dfy` | `ElkLogger` | `elkFormat`, `logWithContext`, the configured level and the transport list |
| `log_requests.dfy` | `LogRequests` | the `LogRequests::handle` middleware over the log and a response object |
| `log_test_controller.dfy` | `LogTestController` | `generateLogs`, `batchLogs`, `errorScenarios` and the random helpers, with the random draws as parameters |
| `todo_model.dfy` | `TodoModel` | the `Todo` record, mass assignment and the query scopes of the ToDo app |
| `phase7_todo_model.dfy` | `Phase7TodoModel` | the Phase7 `Todo`'s `$fillable` and its priority-rank ordering |
| `todo_controller.dfy` | `TodoController` | `TodoController`'s actions over an in-memory table of todos |
| `todo_routes.dfy` | `TodoRoutes` | the `todos.ts` route helpers, including JavaScript's `String.prototype.replace` |

PHP associative arrays are finite maps and lists are sequences. A query over the `todos`
table is a filter over a sequence of rows.

Randomness, clocks, UUIDs and the JSON encoders are parameters of the operations that use
them: `rand()` draws, `now`, the request id, `toJson` and `JSON.stringify`.

The ToDo controller receives its form fields as Laravel's validator sees them after the
framework's `TrimStrings` and `ConvertEmptyStringsToNull` middleware. A field is missing,
null, or a non-blank string.

## Model

| member | source | states |
|---|---|---|
| CustomJsonFormatter.ExceptionOf | Phase7/ToDo/app/Logging/CustomJsonFormatter.php:29 | an exception is extracted exactly when the context's `exception` key is set and holds a `Throwable` |
| CustomJsonFormatter.RemainingContext | Phase7/ToDo/app/Logging/CustomJsonFormatter.php:29-39 | the context loses its `exception` key only when that key held a throwable, and is otherwise untouched |
| CustomJsonFormatter.Build | Phase7/ToDo/app/Logging/CustomJsonFormatter.php:18-40 | the array before filtering: `level` and `level_name` both carry the level's name, and timestamp, channel, message, context and extra come from the record; `exception` is present iff the context carried a throwable, and then describes it |
| CustomJsonFormatter.Describe | Phase7/ToDo/app/Logging/CustomJsonFormatter.php:31-38 | the exception descriptor has exactly the keys class, message, code, file, line and trace, each taken from the throwable; the code keeps its own kind (an integer, or the SQLSTATE string of a database exception) |
| CustomJsonFormatter.Prune | Phase7/ToDo/app/Logging/CustomJsonFormatter.php:43-45 | a key is kept iff its value is not an empty array; kept values are unchanged |
| CustomJsonFormatter.Normalize | Phase7/ToDo/app/Logging/CustomJsonFormatter.php:16-45 | timestamp, level, level_name, channel and message are always present (even an empty message); level equals level_name; `context` and `extra` appear iff non-empty; no empty array survives |
| CustomJsonFormatter.Format | Phase7/ToDo/app/Logging/CustomJsonFormatter.php:47 | the output is the encoder's text for the normalized record followed by one newline, the only newline in the line |
| CustomJsonFormatter.PruneIdempotent | Phase7/ToDo/app/Logging/CustomJsonFormatter.php:43-45 | filtering twice equals filtering once |
| CustomJsonFormatter.PruneFixpoints | Phase7/ToDo/app/Logging/CustomJsonFormatter.php:43-45 | an array is left unchanged by the filter iff it holds no empty array |
| CustomJsonFormatter.ExceptionLeavesContext | Phase7/ToDo/app/Logging/CustomJsonFormatter.php:29-39 | when an exception is described, the `exception` key is not inside the output's context |
| CustomJsonFormatter.ContextPreserved | Phase7/ToDo/app/Logging/CustomJsonFormatter.php:24-45 | every other context entry reaches the output's context unchanged |
| CustomJsonFormatter.OnlyExceptionDropsContext | Phase7/ToDo/app/Logging/CustomJsonFormatter.php:39-45 | a context holding only the exception disappears from the output while `exception` is present |
| CustomJsonFormatter.NormalizeStable | Phase7/ToDo/app/Logging/CustomJsonFormatter.php:43-45 | the normalized record is a fixpoint of the filter |
| Ascii.UpperChar | js-app/lib/logger.ts:15-16 | ASCII lower-case letters map to upper case and every other character is unchanged |
| ElkLogger.ToUpperCase | js-app/lib/logger.ts:15-16 | `toUpperCase` keeps the length and maps each character |
| ElkLogger.ToUpperCaseIdempotent | js-app/lib/logger.ts:15-16 | the result has no lower-case ASCII letter and upper-casing it again changes nothing |
| ElkLogger.Metadata | js-app/lib/logger.ts:12 | the rest-spread keeps exactly the keys other than timestamp, level and message, with their values |
| ElkLogger.ElkRecord | js-app/lib/logger.ts:12-24 | level and level_name are the upper-cased level; channel is `nextjs`; timestamp and message appear iff given; `context` appears iff metadata is non-empty and then is that metadata |
| ElkLogger.ElkFormat | js-app/lib/logger.ts:12-27 | the formatted line is `JSON.stringify` of exactly the ELK record, and it holds no newline, so every record is one line of `elk.log` |
| ElkLogger.ContextExcludesDestructured | js-app/lib/logger.ts:12-24 | the context never repeats timestamp, level or message |
| ElkLogger.MetadataReachesContext | js-app/lib/logger.ts:12-24 | every other info key reaches the context unchanged |
| ElkLogger.LogWithContext | js-app/lib/logger.ts:57-66 | the metadata is the caller's context plus `timestamp`, whose value is the current time even when the context had its own; the other keys are unchanged |
| ElkLogger.ConfiguredLevel | js-app/lib/logger.ts:30 | `LOG_LEVEL` is used when set and non-empty, else `info` |
| ElkLogger.Transports | js-app/lib/logger.ts:35-53 | the file transport `elk.log` with 10485760 bytes and 5 files comes first; a console transport is added iff `NODE_ENV` is exactly `development` |
| LogFacade.Stamp | ToDo/app/Http/Middleware/LogRequests.php:24-49 | each event carries its call's level and message, and the shared context overlaid by the call's own fields |
| LogFacade.SharedKeyReachesEvent | ToDo/app/Http/Middleware/LogRequests.php:24 | a shared key the call does not override reaches the event with the shared value |
| LogFacade.Log.ShareContext | ToDo/app/Http/Middleware/LogRequests.php:24-34 | the shared context is merged with the new entries, the new ones winning; no event is written |
| LogFacade.Log.Write | ToDo/app/Http/Middleware/LogRequests.php:37-49 | one stamped event is appended; the shared context is unchanged |
| LogFacade.Log.WriteAll | ToDo/app/Http/Middleware/LogRequests.php:43-45 | writing calls one by one appends their stamped events in order |
| LogFacade.StampAppend | ToDo/app/Http/Middleware/LogRequests.php:37-49 | stamping distributes over concatenation |
| LogFacade.StampExtend | Application-Logger/app/Http/Controllers/LogTestController.php:88-106 | appending one more stamped event equals stamping the extended call list |
| LogRequests.RequestContext | ToDo/app/Http/Middleware/LogRequests.php:24-34 | the shared context has exactly the nine keys, holds the request id, and has null user fields for a guest |
| LogRequests.RequestEvents | ToDo/app/Http/Middleware/LogRequests.php:37-52 | the request produces "Incoming request", then the downstream events, then "Request completed" with the status code; the two middleware events are at info level and the downstream events keep their own levels |
| LogRequests.IncomingCall | ToDo/app/Http/Middleware/LogRequests.php:37-41 | "Incoming request" at info level, with exactly the path, the query parameters and whether a file was uploaded |
| LogRequests.CompletedCall | ToDo/app/Http/Middleware/LogRequests.php:49-52 | "Request completed" at info level, with exactly the response's status code and the response time |
| LogRequests.EventsCarryRequestId | ToDo/app/Http/Middleware/LogRequests.php:24-49 | every event of the request carries its request id, unless the call overrides it |
| LogRequests.HeaderKey | ToDo/app/Http/Middleware/LogRequests.php:55 | a header name is stored with ASCII upper case lowered and `_` turned into `-`, character by character, so no key holds `_` |
| LogRequests.HeaderKeyIdempotent | ToDo/app/Http/Middleware/LogRequests.php:55 | normalising a stored key again leaves it unchanged |
| Ascii.LowerChar | ToDo/app/Http/Middleware/LogRequests.php:55 | ASCII upper-case letters map to lower case and every other character is unchanged |
| LogRequests.Response.SetHeader | ToDo/app/Http/Middleware/LogRequests.php:55 | the header's list of values is replaced by the single new value under its normalised name; the status is unchanged |
| LogRequests.RequestIdHeaderName | ToDo/app/Http/Middleware/LogRequests.php:55 | `X-Request-Id` is stored as `x-request-id` |
| LogRequests.Handle | ToDo/app/Http/Middleware/LogRequests.php:18-58 | shares the request context, logs the request's events around the downstream ones, returns the downstream response with `x-request-id` set to the id that the shared context carries |
| LogTestController.CumulativeThresholds | Application-Logger/app/Http/Controllers/LogTestController.php:175-191 | the weights 30, 40, 15, 10, 5 give cumulative thresholds 30, 70, 85, 95, 100 |
| LogTestController.WeightedLevel | Application-Logger/app/Http/Controllers/LogTestController.php:173-194 | the level for a draw is always one of the five levels |
| LogTestController.RandomLogLevel | Application-Logger/app/Http/Controllers/LogTestController.php:173-194 | the cumulative loop returns the level whose range holds the draw (the fallback is unreachable for draws 1 to 100) |
| LogTestController.StatusCodes | Application-Logger/app/Http/Controllers/LogTestController.php:199-211 | every level, known or not, has at least one candidate code |
| LogTestController.RandomStatusCode | Application-Logger/app/Http/Controllers/LogTestController.php:199-211 | the code is from the level's table: 200-202 for debug and info, 400-429 for warning, 500-504 for error and critical, 200 for any other level |
| LogTestController.SplitOn | Application-Logger/app/Http/Controllers/LogTestController.php:216-219 | splitting always gives at least one part |
| LogTestController.SplitOnNoSeparator | Application-Logger/app/Http/Controllers/LogTestController.php:216-219 | a string without the separator splits into itself |
| LogTestController.SplitOnFirst | Application-Logger/app/Http/Controllers/LogTestController.php:216-219 | splitting at a first separator peels off the text before it |
| LogTestController.RandomIp | Application-Logger/app/Http/Controllers/LogTestController.php:216-219 | the address is at least seven characters, all of them digits or dots |
| LogTestController.RandomIpOctets | Application-Logger/app/Http/Controllers/LogTestController.php:216-219 | the address splits into exactly four decimal parts that read back as the four drawn octets |
| LogTestController.Ucfirst | Application-Logger/app/Http/Controllers/LogTestController.php:93 | `ucfirst` upper-cases an ASCII lower-case first character and keeps every later one; a string starting otherwise, or empty, is unchanged |
| LogTestController.BatchFields | Application-Logger/app/Http/Controllers/LogTestController.php:89-104 | a batch entry's status code is drawn from the table of the entry's level |
| LogTestController.BatchCall | Application-Logger/app/Http/Controllers/LogTestController.php:88-104 | one iteration logs at its weighted level, one of the five known levels, with the message "<Action> operation" and a status code from that level's table |
| LogTestController.Pick | Application-Logger/app/Http/Controllers/LogTestController.php:90-96 | the chosen action or operation is an element of its list, and an in-range key selects that very element |
| LogTestController.BatchCallAt | Application-Logger/app/Http/Controllers/LogTestController.php:88-106 | the batch's i-th log call is the one the i-th iteration's draws make: one call per draw, in order |
| LogTestController.BatchCalls | Application-Logger/app/Http/Controllers/LogTestController.php:88-106 | the loop over the draws logs exactly one call per draw |
| LogTestController.ClampedCount | Application-Logger/app/Http/Controllers/LogTestController.php:82-83 | the count defaults to 10 and is capped at 100 |
| LogTestController.BatchSize | Application-Logger/app/Http/Controllers/LogTestController.php:82-88 | the loop runs the clamped count times, or not at all for a count of zero or less |
| LogTestController.BatchStatusMatchesLevel | Application-Logger/app/Http/Controllers/LogTestController.php:89-104 | each batch event is logged at its drawn level with a status code belonging to that level |
| LogTestController.BatchLogs | Application-Logger/app/Http/Controllers/LogTestController.php:80-114 | appends exactly one event per iteration, in draw order, and reports the clamped count |
| LogTestController.BatchPrefixStep | Application-Logger/app/Http/Controllers/LogTestController.php:88-106 | one more iteration adds one more call to the batch |
| LogTestController.BatchEventCount | Application-Logger/app/Http/Controllers/LogTestController.php:82-88 | a batch writes as many events as the loop's bound: the requested count up to 100, and 100 beyond it |
| LogTestController.Levels | Application-Logger/app/Http/Controllers/LogTestController.php:13-75 | the levels of a list of calls, in order |
| LogTestController.GenerateCalls | Application-Logger/app/Http/Controllers/LogTestController.php:19-65 | `generateLogs` logs the action event, the debug event, a fourth event exactly when the draw is at most 4, and the metrics event last |
| LogTestController.GenerateLevels | Application-Logger/app/Http/Controllers/LogTestController.php:13-75 | `generateLogs` writes info and debug, then an error (draw 1-2), a warning (draw 3-4) or nothing more, then the metrics info |
| LogTestController.GenerateResponse | Application-Logger/app/Http/Controllers/LogTestController.php:67-74 | the response has exactly six keys, reports success, and names the same user and action as the first logged event |
| LogTestController.GenerateLogs | Application-Logger/app/Http/Controllers/LogTestController.php:13-75 | appends the branch's events in order and returns the success response |
| LogTestController.ScenarioCalls | Application-Logger/app/Http/Controllers/LogTestController.php:123-161 | a known scenario logs one event and any other name three; the database event carries this call's backtrace when chosen directly and the nested call's when run from the default branch |
| LogTestController.OtherScenarioIsAllThree | Application-Logger/app/Http/Controllers/LogTestController.php:155-162 | any scenario name other than the three known ones logs exactly what the three nested calls log, in order (error, error, warning), each under the nested call's own backtrace |
| LogTestController.ScenarioResponse | Application-Logger/app/Http/Controllers/LogTestController.php:163-167 | the response has exactly three keys, reports success and echoes the scenario |
| LogTestController.ErrorScenarios | Application-Logger/app/Http/Controllers/LogTestController.php:119-168 | the scenario chosen, `all` by default, appends its events and returns its message; nested calls see their own backtrace |
| TodoModel.Fill | ToDo/app/Models/Todo.php:19-26 | mass assignment keeps the id; each fillable, supplied column takes the supplied value (null clears `description` and `due_date`), and every other column is unchanged |
| TodoModel.FillSetsOwner | ToDo/app/Models/Todo.php:19-20 | `user_id` is fillable, so a supplied owner is written |
| TodoModel.Where | ToDo/app/Models/Todo.php:52-88 | a `where` keeps exactly the rows that satisfy it, as a sub-multiset |
| TodoModel.WhereWhere | ToDo/app/Models/Todo.php:84-88 | chained `where`s equal one `where` on the conjunction |
| TodoModel.WhereSameCondition | ToDo/app/Models/Todo.php:52-88 | equivalent conditions select the same rows |
| TodoModel.ForUser | ToDo/app/Models/Todo.php:52-55 | keeps exactly the given user's rows |
| TodoModel.Completed | ToDo/app/Models/Todo.php:60-63 | keeps exactly the completed rows |
| TodoModel.Incomplete | ToDo/app/Models/Todo.php:68-71 | keeps exactly the incomplete rows |
| TodoModel.ByPriority | ToDo/app/Models/Todo.php:76-79 | keeps exactly the rows with the given priority |
| TodoModel.Overdue | ToDo/app/Models/Todo.php:84-88 | keeps exactly the incomplete rows whose due date is strictly before now |
| TodoModel.CompletedIncompleteMultiset | ToDo/app/Models/Todo.php:60-71 | the completed and the incomplete rows of any list together make up exactly that list's multiset of rows |
| TodoModel.CompletedIncompletePartition | ToDo/app/Models/Todo.php:60-71 | completed and incomplete split any list: disjoint, and together the whole multiset |
| TodoModel.OverdueIsIncompleteAndPast | ToDo/app/Models/Todo.php:84-88 | overdue is the incomplete rows filtered by due date, so a subset of incomplete |
| Phase7TodoModel.FillKeepsOwner | Phase7/ToDo/app/Models/Todo.php:10-16 | `user_id` is not fillable, so mass assignment never changes the owner |
| Phase7TodoModel.Rank | Phase7/ToDo/app/Models/Todo.php:58-62 | with the default `desc`, high, medium and low rank 1, 2, 3; other priorities have no rank |
| Phase7TodoModel.OtherDirectionReversesRank | Phase7/ToDo/app/Models/Todo.php:60-62 | any direction other than exactly `desc` gives each priority the mirrored rank |
| Phase7TodoModel.Reverse | Phase7/ToDo/app/Models/Todo.php:60-62 | reversal is a permutation that mirrors the indices |
| Phase7TodoModel.ReversedDescIsAsc | Phase7/ToDo/app/Models/Todo.php:58-64 | a result ordered by `desc` read backwards is a result ordered by the other direction |
| TodoController.ValidateStore | ToDo/app/Http/Controllers/TodoController.php:74-79 | store's rules pass iff the title is present with at most 255 characters, the priority is one of low, medium, high, and a due date, if given, is a date from today on; the validated data holds title and priority, holds description and due date exactly when sent (a null as null, a due date as its parsed instant), and every value has its column's kind |
| TodoController.SetDate | ToDo/app/Http/Controllers/TodoController.php:136 | a nullable date field sent as null is stored as null, one that parses as its parsed instant, and one not sent (or not a date) adds nothing; other keys are kept |
| TodoController.UpdateData | ToDo/app/Http/Controllers/TodoController.php:132-138 | the validated data holds title, description, priority and completed exactly when they were sent, with the sent value (`completed` as its boolean, a null description as null), holds `due_date` exactly when it was sent as null (stored as null) or as a parseable date (stored as its parsed instant), and no key outside the five rules |
| TodoController.ValidateUpdate | ToDo/app/Http/Controllers/TodoController.php:132-138 | update's rules pass iff a sent title has at most 255 characters, a sent priority is in the list, a due date parses and a sent `completed` is boolean; the validated data never holds `user_id`, is the `UpdateData` of the input, and every value has its column's kind |
| TodoController.UpdateTouchesOnlyValidated | ToDo/app/Http/Controllers/TodoController.php:132-141 | an update keeps id and owner, keeps each of title, description, priority, completed and due date that was not sent, and leaves the priority in the list |
| TodoController.UpdateWritesSentValues | ToDo/app/Http/Controllers/TodoController.php:132-141 | a validated update writes each sent field with its sent value; a null description or due date clears it, and a due date is stored as its parsed instant |
| TodoController.StoreCreatesSentTodo | ToDo/app/Http/Controllers/TodoController.php:74-81 | the created todo is exactly the sent title and priority, the description and parsed due date when sent as text and none otherwise, not completed, owned by the current user |
| TodoController.Caught | ToDo/app/Http/Controllers/TodoController.php:51-58 | `catch (\Exception)` turns an `HttpException` into the error redirect and lets an `Error` through |
| TodoController.CallByPriorityScope | ToDo/app/Models/Todo.php:76-79 | calling the scope without its priority throws `ArgumentCountError`; with it, keeps the rows of that priority |
| TodoController.Find | ToDo/app/Http/Controllers/TodoController.php:112 | route model binding finds a row with the id, or reports that none has it |
| TodoController.Todos.FilteredQuery | ToDo/app/Http/Controllers/TodoController.php:29-42 | the query holds exactly the user's rows, filtered by a status of exactly `completed` or `incomplete` and by a filled priority |
| TodoController.Todos.IndexAsWritten | ToDo/app/Http/Controllers/TodoController.php:21-61 | as written, index always ends in an uncaught `ArgumentCountError` |
| TodoController.Todos.Index | ToDo/app/Http/Controllers/TodoController.php:21-61 | the listing holds exactly the user's own rows that pass the filters |
| TodoController.Todos.Store | ToDo/app/Http/Controllers/TodoController.php:66-107 | invalid input changes nothing; valid input appends one todo with the next id, owned by the current user, built from the validated fields |
| TodoController.Todos.Update | ToDo/app/Http/Controllers/TodoController.php:112-169 | an unknown id is not found; a non-owner gets the error redirect and nothing changes; invalid input changes nothing; otherwise only that row is refilled from the validated fields |
| TodoController.Todos.Toggle | ToDo/app/Http/Controllers/TodoController.php:174-211 | for the owner, only `completed` of that row is negated; for anyone else nothing changes |
| TodoController.Todos.Destroy | ToDo/app/Http/Controllers/TodoController.php:216-254 | for the owner, exactly the rows with that id leave the table; for anyone else nothing changes |
| TodoController.RemoveAt | ToDo/app/Http/Controllers/TodoController.php:236 | deleting a row keeps ids unique and removes exactly the rows with its id |
| TodoRoutes.IdString | Phase7/ToDo/resources/js/routes/todos.ts:54 | a numeric id's text has no `$`; a string id is itself |
| TodoRoutes.IndexFrom | Phase7/ToDo/resources/js/routes/todos.ts:54 | the search returns the first occurrence of the pattern, or reports none |
| TodoRoutes.Expand | Phase7/ToDo/resources/js/routes/todos.ts:54 | a replacement without `$` is inserted verbatim; `$$` gives `$`, `$&` the match, `` $` `` the text before it and `$'` the text after it |
| TodoRoutes.Replace | Phase7/ToDo/resources/js/routes/todos.ts:54 | a template without the placeholder is returned unchanged |
| TodoRoutes.IndexUrl | Phase7/ToDo/resources/js/routes/todos.ts:17-19 | `index.url` is `/todos` followed by the query string |
| TodoRoutes.StoreUrl | Phase7/ToDo/resources/js/routes/todos.ts:35-37 | `store.url` is `/todos` followed by the query string |
| TodoRoutes.ShowUrl | Phase7/ToDo/resources/js/routes/todos.ts:53-55 | `show.url` is `/todos/`, the id and the query string, for an id without `$` |
| TodoRoutes.UpdateUrl | Phase7/ToDo/resources/js/routes/todos.ts:71-73 | `update.url` is `/todos/`, the id and the query string, for an id without `$` |
| TodoRoutes.DestroyUrl | Phase7/ToDo/resources/js/routes/todos.ts:89-91 | `destroy.url` is `/todos/`, the id and the query string, for an id without `$` |
| TodoRoutes.ToggleUrl | Phase7/ToDo/resources/js/routes/todos.ts:107-109 | `toggle.url` is `/todos/`, the id, `/toggle` and the query string, for an id without `$` |
| TodoRoutes.FirstPlaceholder | Phase7/ToDo/resources/js/routes/todos.ts:50-54 | the placeholder is found where it first appears |
| TodoRoutes.FillTemplate | Phase7/ToDo/resources/js/routes/todos.ts:54 | filling a `$`-free id puts it in place of the placeholder |
| TodoRoutes.Index | Phase7/ToDo/resources/js/routes/todos.ts:7-19 | the route object's URL is `index.url` and its method is one of the definition's |
| TodoRoutes.Store | Phase7/ToDo/resources/js/routes/todos.ts:25-37 | the route object's URL is `store.url` and its method is one of the definition's |
| TodoRoutes.Show | Phase7/ToDo/resources/js/routes/todos.ts:43-55 | the route object's URL is `show.url` and its method is one of the definition's |
| TodoRoutes.Update | Phase7/ToDo/resources/js/routes/todos.ts:61-73 | the route object's URL is `update.url` and its method is one of the definition's |
| TodoRoutes.Destroy | Phase7/ToDo/resources/js/routes/todos.ts:79-91 | the route object's URL is `destroy.url` and its method is one of the definition's |
| TodoRoutes.Toggle | Phase7/ToDo/resources/js/routes/todos.ts:97-109 | the route object's URL is `toggle.url` and its method is one of the definition's |
| TodoRoutes.CollectionUrls | Phase7/ToDo/resources/js/routes/todos.ts:14-37 | index and store build the same URL, `/todos` followed by the query string |
| TodoRoutes.MemberUrls | Phase7/ToDo/resources/js/routes/todos.ts:50-91 | show, update and destroy build the same URL, `/todos/` + id + query, and differ only in method |
| TodoRoutes.NumericIdUrls | Phase7/ToDo/resources/js/routes/todos.ts:50-109 | a numeric id always gives the literal URLs |
| TodoRoutes.FillAfterPattern | Phase7/ToDo/resources/js/routes/todos.ts:108 | a `$'` replacement repeats the text after the placeholder |
| TodoRoutes.DollarIdExpands | Phase7/ToDo/resources/js/routes/todos.ts:108 | the string id `$'` gives the toggle URL `/todos//toggle/toggle` |
| Decimal.NatToString | Application-Logger/app/Http/Controllers/LogTestController.php:218 | a natural number renders as at least one digit, with no leading zero |
| Decimal.IntToString | Phase7/ToDo/resources/js/routes/todos.ts:54 | a negative number starts with `-` followed by digits, otherwise all digits |
| Decimal.ParseNatToString | Application-Logger/app/Http/Controllers/LogTestController.php:218 | the rendering reads back as the number |
| Decimal.NatToStringInjective | Application-Logger/app/Http/Controllers/LogTestController.php:218 | different numbers render differently |

## Left out

- Directory creation for the logs (js-app/lib/logger.ts:7-9), file rotation, colourised console output, winston's level filtering and timestamp formatting: these are I/O or library behaviour.
- The JSON text itself: Monolog's `toJson` and `JSON.stringify` are parameters, and the key order of the encoded objects is not modelled, because PHP arrays and JS objects are maps here.
- The timestamp format (`Y-m-d\TH:i:s.uP`) and `Level::getName`'s source: timestamps are given strings, and level names are constants.
- ElkLogger.ToUpperCase: only ASCII letters are upper-cased; the full Unicode case mapping of `toUpperCase` is not modelled.
- ElkLogger.ElkRecord: winston's assembly of the `info` object is not modelled. The record is built from an `info` map given as input.
- Response time, `microtime`, `memory_get_usage` and `usleep`: floats and clocks. The elapsed time is a given value and the metrics fields are given values.
- Random draws (`rand`, `Str::uuid`, and the batch session id `substr(md5(rand()), 0, 16)`): these are parameters. An `array_rand` key is any natural number taken modulo the array's size, so every draw names a real element; the model says nothing about the distribution of draws. `logs_written` in `generateLogs`' response is an independent random value and is not related to the events.
- LogTestController.ClampedCount: `count` is an integer or absent; PHP's loose conversion of non-numeric query strings is not modelled.
- LogTestController.ErrorScenarios: the backtraces are parameters. The model does not relate the nested call's trace to the outer one, which it extends by one `errorScenarios` frame (cut to five frames).
- LogTestController.ErrorScenarios: the scenario is a string or absent; PHP's loose `switch` comparison of non-string input is not modelled.
- Authentication: unauthenticated requests are redirected by the `auth` middleware and never reach the actions, so every action takes the current user's id.
- The controller's own log calls in `TodoController`: they add events only. The same event mechanism is modelled for the middleware and the log test controller.
- TodoController.Todos.Index: the order of the listing is not stated, because `byPriority()->latest()` as written never returns.
- TodoController.Todos.Store: a new todo starts with `completed` false, which stands in for the column's default in the database.
- TodoModel.Fill: a value of the wrong kind for its column (a null `title`, say) is ignored rather than stored, because the record's columns are typed. Eloquent would store it. The controller only passes validated data, which `ValidateStore` and `ValidateUpdate` prove well-kinded (`TodoModel.WellKinded`).
- TodoController.ValidateStore: date parsing and "today" are parameters, since they come from Laravel's validation engine.
- TodoController.ValidateUpdate: the `boolean` rule only sees form strings here, so only `"0"` and `"1"` pass.
- Non-string request input (arrays in query strings): the fields are strings or null.
- The Phase7 `Todo`'s `forUser`, `completed`, `incomplete` and `overdue` scopes: they are the same `where` conditions as the ToDo model's and are modelled once in `TodoModel`.
- Phase7TodoModel.Rank: SQL's placement of a NULL rank (priorities outside the three) is a database choice; such rows are ordered first.
- `queryParams` (the wayfinder query-string builder): its output is a parameter.
- TodoRoutes.IdString: numeric ids are integers; JavaScript's rendering of fractions and of very large numbers in exponent form is not modelled.
- LogRequests.HeaderKey: only ASCII letters are lowered; Symfony's `strtr` mapping is ASCII-only as well, and multibyte names are not modelled.
- LogRequests.Handle: the middleware is taken to run inside the `web` group, so the request has a session and `$request->session()` (ToDo/app/Http/Middleware/LogRequests.php:30) does not throw; a request without a session is not modelled.
- Concurrency and per-request isolation of the shared log context: host-framework behaviour with no code here.

## Findings

| source | as written | input that shows it | evidently intended | confidence | as-written member | corrected member |
|---|---|---|---|---|---|---|
| ToDo/app/Http/Controllers/TodoController.php:44 | `$query->byPriority()` passes no argument, but the ToDo model's `scopeByPriority($query, string $priority)` requires one. PHP throws `ArgumentCountError`, an `Error` that `catch (\Exception $e)` at line 52 does not catch. | any request to the listing, e.g. GET `/todos` with no filters | the filtered list of the user's todos is shown | high; not executed | TodoController.Todos.IndexAsWritten | TodoController.Todos.Index |
