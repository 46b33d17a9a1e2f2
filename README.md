# Database auto-instrumentation: interception to span

A Dafny model of two auto-instrumentation modules of a PHP APM agent. Each one
watches calls into a database library and turns each call into at most one
database span.

- `WPDBAutoInstrumentation` watches the CMS class `wpdb`. It checks the shape of
  `wpdb::__construct` calls without tracking them. It turns each `wpdb::query`
  call into a span. The span's subtype comes from the receiver's `dbh` handle,
  and its destination comes from the subtype and the receiver's `dbname`.
- `MysqliAutoInstrumentation` watches the free function `mysqli_query`. It turns
  each call with exactly two arguments into a span with fixed metadata.

For every intercepted call, the pre-hook does one of three things:

- it declines, so no span is begun and no post-hook is returned;
- it begins exactly one span and returns the post-hook that ends that span;
- (wpdb only) it raises a type error before any span is begun.

Files:

- `wrappers.dfy`: `Option`, and PHP's `??` as `GetOr`.
- `php.dfy`: PHP values, `is_string`, `is_a`, and property lookup with a default.
- `dbspans.dfy`: the span-type constants, `SpanDescriptor`, and the pre-hook
  `Outcome`/`Decision`. It also holds `SplitResource`, which reads a destination
  resource back into its subtype and database name.
- `tracing.dfy`: the tracer-side objects as classes. `Span` has the context
  setters and `End`. `Tracer` keeps the list of begun spans, and `Logger` keeps
  the severities it has logged. `PostHook` ends one span.
- `registration.dfy`: the registration context, a class holding the ordered
  list of bound call sites.
- `wpdb.dfy`, `mysqli.dfy`: one module per source file. Each has the pure
  decision function (`QueryDecision`) and the lemmas about it. Each also has the
  instrumentation class, whose pre-hook methods are proved against that decision
  function. A `QueryCall` method runs a pre-hook and then its post-hook, and
  shows that every span begun is ended exactly once.
- `modules.dfy`: facts that compare the two modules.

Modelling choices:

- Inputs stand in for the runtime probes and the opaque helpers:
  - `class_exists('wpdb')` and `extension_loaded('mysqli')` are boolean inputs.
  - `is_a` is class membership on a value.
  - `getDynamicallyAttachedProperty` is a map lookup with a default.
  - `TextUtil::isEmptyString` means length 0.
- The values of `Constants::SPAN_TYPE_DB`, `SPAN_TYPE_DB_SUBTYPE_MYSQL`,
  `SPAN_TYPE_DB_SUBTYPE_UNKNOWN`, `SPAN_TYPE_DB_ACTION_QUERY` and
  `InstrumentationNames::DB` are not part of this model. The constants in
  `dbspans.dfy` are placeholders. The proofs use only three facts about them:
  - `SubtypeMysql != SubtypeUnknown`;
  - `SpanTypeDb != SubtypeMysql`;
  - neither subtype contains `/`.

Points where the code is less uniform than one might expect:

- The span name falls back only on null, because `??` does. So an
  empty-string statement becomes the span name (`Wpdb.QueryNameAndStatement`).
- Destination and service target are not built from one value:
  - wpdb's service-target name is the raw `dbname`, not the composed resource.
  - mysqli's destination resource is the subtype alone, while its destination
    name and target name are `<subtype>/mysqli`.
  - The destination type and target type differ between the two modules
    (`Modules.ServiceTargetsDiverge`).
- `beginDbSpan` in wpdb declares `?string $dbName`, and the file uses strict
  types. So a `dbname` property that is neither null nor a string raises a
  `TypeError` before any span is begun. The model keeps this path as the
  `Raised` outcome.

## Model

| member | source | states |
|---|---|---|
| `DbSpans.StatementOf` | src/ElasticApm/Impl/AutoInstrument/WPDBAutoInstrumentation.php:104-113 | The statement is set exactly when the argument is a string, and then it is that string unchanged. |
| `DbSpans.SplitResource` | src/ElasticApm/Impl/AutoInstrument/WPDBAutoInstrumentation.php:157-160 | Inverse of the resource composition: the head has no `/`, a resource without `/` is all head, and any other resource is head + `/` + tail. |
| `DbSpans.SplitPrefix` | src/ElasticApm/Impl/AutoInstrument/WPDBAutoInstrumentation.php:157-160 | A resource built as head + `/` + rest, with a `/`-free head, reads back as exactly (head, rest), whatever rest holds. |
| `Tracing.RunPostHook` | src/ElasticApm/Impl/AutoInstrument/WPDBAutoInstrumentation.php:134 | The post-hook ends the span it was made for once more, and changes nothing else on it. |
| `Wpdb.CheckIntercept` | src/ElasticApm/Impl/AutoInstrument/WPDBAutoInstrumentation.php:166-187 | Passes iff the receiver is a `wpdb` and the argument count equals the expected arity. Fails as not-an-instance iff the receiver is not a `wpdb`, whatever the arity. |
| `Wpdb.DbType` | src/ElasticApm/Impl/AutoInstrument/WPDBAutoInstrumentation.php:115-123 | The subtype is MySQL iff the `dbh` property, null when absent, is a `mysqli` object; otherwise it is unknown. |
| `Wpdb.QueryDecision` | src/ElasticApm/Impl/AutoInstrument/WPDBAutoInstrumentation.php:99-135 | Declines iff the check with arity 1 fails, and then logs exactly one error. Raises iff the check passes and `dbname` is neither null nor a string. Otherwise it logs only the debug entry for a non-string statement. |
| `Wpdb.DestinationResource` | src/ElasticApm/Impl/AutoInstrument/WPDBAutoInstrumentation.php:157-160 | For a `/`-free subtype, the resource reads back as the subtype and the database name (empty when null). It is the subtype alone iff the database name is null or empty. |
| `Wpdb.DbSpan` | src/ElasticApm/Impl/AutoInstrument/WPDBAutoInstrumentation.php:139-164 | Name and statement as given, type db, the given subtype, action query. Destination resource and name are one value, which begins with a `/`-free subtype. Destination type and target type are the subtype, and the target name is the database name unchanged. |
| `Wpdb.DbTypeHasNoSlash` | src/ElasticApm/Impl/AutoInstrument/WPDBAutoInstrumentation.php:115-123 | Both possible subtypes are free of `/`. |
| `Wpdb.ReceiverCheckedBeforeArity` | src/ElasticApm/Impl/AutoInstrument/WPDBAutoInstrumentation.php:166-176 | For a receiver that is not a `wpdb`, the check fails as not-an-instance whatever the arguments and the expected arity. |
| `Wpdb.QueryNameAndStatement` | src/ElasticApm/Impl/AutoInstrument/WPDBAutoInstrumentation.php:104-132 | For a tracked call, a string argument (even empty) is both the span name and the statement, with no log. Otherwise the name is `wpdb->query`, the statement is null, and one debug entry is logged. |
| `Wpdb.QuerySpanKind` | src/ElasticApm/Impl/AutoInstrument/WPDBAutoInstrumentation.php:115-146 | The span type is db and the action is query. The subtype is MySQL iff `dbh` is a `mysqli` object, and unknown otherwise. |
| `Wpdb.QueryDestination` | src/ElasticApm/Impl/AutoInstrument/WPDBAutoInstrumentation.php:155-164 | Destination resource and name are one value that reads back as (subtype, dbname). It is the subtype alone iff dbname is null or empty. Destination type and target type are the subtype, and the target name is dbname unchanged. |
| `Wpdb.QuerySpanConsistent` | src/ElasticApm/Impl/AutoInstrument/WPDBAutoInstrumentation.php:139-164 | Every tracked span's destination resource begins with its subtype. |
| `Wpdb.QueryOverMysqliScenario` | src/ElasticApm/Impl/AutoInstrument/WPDBAutoInstrumentation.php:99-134 | `query("SELECT 1")` on a `wpdb` over `mysqli` with database `shop` gives name and statement `SELECT 1`, subtype MySQL and destination `mysql/shop`. |
| `Wpdb.QueryOnOtherClassScenario` | src/ElasticApm/Impl/AutoInstrument/WPDBAutoInstrumentation.php:166-174 | A `query` on an object that is not a `wpdb` is declined with exactly one error log. |
| `Wpdb.WpdbAutoInstrumentation.constructor` | src/ElasticApm/Impl/AutoInstrument/WPDBAutoInstrumentation.php:29-39 | Keeps the tracer, and starts a logger of its own with no entries. |
| `Wpdb.WpdbAutoInstrumentation.Name` | src/ElasticApm/Impl/AutoInstrument/WPDBAutoInstrumentation.php:42-45 | The module's primary name, `wpdb`. |
| `Wpdb.WpdbAutoInstrumentation.OtherNames` | src/ElasticApm/Impl/AutoInstrument/WPDBAutoInstrumentation.php:47-51 | The module's other names: the db group alone. |
| `Wpdb.WpdbAutoInstrumentation.Register` | src/ElasticApm/Impl/AutoInstrument/WPDBAutoInstrumentation.php:54-68 | Binds nothing without class `wpdb`. Otherwise it appends exactly `wpdb::__construct` and then `wpdb::query`, each with its pre-hook. |
| `Wpdb.WpdbAutoInstrumentation.WpdbConstruct` | src/ElasticApm/Impl/AutoInstrument/WPDBAutoInstrumentation.php:70-86 | Appends the binding of `wpdb::__construct` to its pre-hook. |
| `Wpdb.WpdbAutoInstrumentation.WpdbQuery` | src/ElasticApm/Impl/AutoInstrument/WPDBAutoInstrumentation.php:88-137 | Appends the binding of `wpdb::query` to its pre-hook. |
| `Wpdb.WpdbAutoInstrumentation.CheckInterceptAndLog` | src/ElasticApm/Impl/AutoInstrument/WPDBAutoInstrumentation.php:166-187 | Returns whether `CheckIntercept` passes, and logs one error exactly when it fails. |
| `Wpdb.WpdbAutoInstrumentation.ConstructPreHook` | src/ElasticApm/Impl/AutoInstrument/WPDBAutoInstrumentation.php:81-84 | Never returns a post-hook and never begins a span, whatever the check says. It logs what the arity-4 check logs. |
| `Wpdb.WpdbAutoInstrumentation.QueryPreHook` | src/ElasticApm/Impl/AutoInstrument/WPDBAutoInstrumentation.php:99-135 | Logs what `QueryDecision` logs. On decline it returns no post-hook and begins no span. On raise it throws with no span. On tracking it begins exactly one fresh span, described by the decision, and returns the post-hook that ends that span. |
| `Wpdb.WpdbAutoInstrumentation.BeginDbSpan` | src/ElasticApm/Impl/AutoInstrument/WPDBAutoInstrumentation.php:139-153 | Appends exactly one fresh, not-yet-ended span to the tracer, carrying name, db type, subtype, query action, statement and service. |
| `Wpdb.WpdbAutoInstrumentation.SetService` | src/ElasticApm/Impl/AutoInstrument/WPDBAutoInstrumentation.php:155-164 | Sets destination resource and name to the composed resource and the destination type to the subtype. Sets the target name to the raw dbname and the target type to the subtype. Nothing else on the span changes. |
| `Wpdb.QueryCall` | src/ElasticApm/Impl/AutoInstrument/WPDBAutoInstrumentation.php:99-134 | A query call begins one span iff the decision tracks it, and the earlier spans are kept. Every span it begins is ended exactly once. |
| `Mysqli.ServiceNamesSplit` | src/ElasticApm/Impl/AutoInstrument/MysqliAutoInstrumentation.php:110-117 | The subtype reads back as itself, and `<subtype>/mysqli` as the subtype and `mysqli`. |
| `Mysqli.DbSpan` | src/ElasticApm/Impl/AutoInstrument/MysqliAutoInstrumentation.php:99-123 | Name and statement as given; type db, subtype MySQL, action query. The resource begins with the subtype, the destination name reads back as (subtype, `mysqli`), the target name equals the destination name, and destination and target type are db. |
| `Mysqli.QueryDecision` | src/ElasticApm/Impl/AutoInstrument/MysqliAutoInstrumentation.php:72-95 | Declines iff the argument count is not 2, with exactly one error log. It never raises. When tracking, the name and statement follow argument 1, with `mysqli_query` as the fallback name and a debug log when argument 1 is not a string. |
| `Mysqli.MetadataIndependentOfArguments` | src/ElasticApm/Impl/AutoInstrument/MysqliAutoInstrumentation.php:99-123 | Two tracked calls give spans that differ at most in name and statement. |
| `Mysqli.QuerySpanMetadata` | src/ElasticApm/Impl/AutoInstrument/MysqliAutoInstrumentation.php:99-120 | Type db, subtype MySQL, action query. Destination (MySQL, MySQL + `/mysqli`, db). Target name MySQL + `/mysqli` and target type db. |
| `Mysqli.QuerySpanConsistent` | src/ElasticApm/Impl/AutoInstrument/MysqliAutoInstrumentation.php:110-117 | The resource begins with the subtype. Destination name and target name read back as (subtype, `mysqli`). |
| `Mysqli.TwoArgumentScenario` | src/ElasticApm/Impl/AutoInstrument/MysqliAutoInstrumentation.php:72-94 | `mysqli_query($link, "SELECT 1")` is tracked with name and statement `SELECT 1`, type db and subtype MySQL. |
| `Mysqli.ThreeArgumentScenario` | src/ElasticApm/Impl/AutoInstrument/MysqliAutoInstrumentation.php:73-80 | Three arguments: declined with exactly one error log. |
| `Mysqli.MysqliAutoInstrumentation.constructor` | src/ElasticApm/Impl/AutoInstrument/MysqliAutoInstrumentation.php:29-39 | Keeps the tracer, and starts a logger of its own with no entries. |
| `Mysqli.MysqliAutoInstrumentation.Name` | src/ElasticApm/Impl/AutoInstrument/MysqliAutoInstrumentation.php:42-45 | The module's primary name, `mysqli`. |
| `Mysqli.MysqliAutoInstrumentation.OtherNames` | src/ElasticApm/Impl/AutoInstrument/MysqliAutoInstrumentation.php:47-51 | The module's other names: the db group alone. |
| `Mysqli.MysqliAutoInstrumentation.Register` | src/ElasticApm/Impl/AutoInstrument/MysqliAutoInstrumentation.php:54-61 | Binds nothing without the `mysqli` extension. Otherwise it appends exactly the function `mysqli_query` with its pre-hook. |
| `Mysqli.MysqliAutoInstrumentation.MysqliQuery` | src/ElasticApm/Impl/AutoInstrument/MysqliAutoInstrumentation.php:63-97 | Appends the binding of `mysqli_query` to its pre-hook. |
| `Mysqli.MysqliAutoInstrumentation.QueryPreHook` | src/ElasticApm/Impl/AutoInstrument/MysqliAutoInstrumentation.php:72-95 | Logs what `QueryDecision` logs. On decline it returns no post-hook and begins no span. Otherwise it begins exactly one fresh span, described by the decision, and returns the post-hook that ends it. |
| `Mysqli.MysqliAutoInstrumentation.BeginDbSpan` | src/ElasticApm/Impl/AutoInstrument/MysqliAutoInstrumentation.php:99-123 | Appends exactly one fresh, not-yet-ended span that carries the name, statement and the constant metadata. |
| `Mysqli.QueryCall` | src/ElasticApm/Impl/AutoInstrument/MysqliAutoInstrumentation.php:72-95 | A call begins one span iff it has 2 arguments, and the earlier spans are kept. Every span it begins is ended exactly once. |
| `Modules.Identities` | src/ElasticApm/Impl/AutoInstrument/WPDBAutoInstrumentation.php:42-51 | The names are `wpdb` and `mysqli` (also src/ElasticApm/Impl/AutoInstrument/MysqliAutoInstrumentation.php:42-51), which are distinct. Both modules' other names are exactly the db group. |
| `Modules.ServiceTargetsDiverge` | src/ElasticApm/Impl/AutoInstrument/WPDBAutoInstrumentation.php:155-164 | A wpdb span and a mysqli span can share the MySQL subtype and still differ in destination type and target type. |

## Left out

- Logger construction and message text: only the severity of each entry is kept.
- The interception mechanism: binding a call site appends a (target, pre-hook) entry to a list. The ordering of pre-hook, real call and post-hook, and exception propagation through the real call, belong to that mechanism.
- The tracer and span objects are stand-ins. A span is a descriptor plus an end counter, and the transaction is the list of begun spans. Nesting, timing and transport are not modelled.
- Runtime probes (`class_exists`, `extension_loaded`) are boolean inputs.
- `createPostHookFromEndSpan` and `getDynamicallyAttachedProperty` are not part of this model. Instead there is a post-hook value bound to one span, and a map lookup with a default.
- `Tracing.Logger.Log`: an entry stands for one log call at that severity. The source logs through `ifErrorLevelEnabled`/`ifDebugLevelEnabled`, so an entry is written only when that level is enabled; the model does not capture level filtering, and "one error log" means one error-level log call.
- `Php.IsA`: PHP's `is_a` compares class names case-insensitively. The model stores lower-cased class names and asks only about lower-case names (`wpdb`, `mysqli`); it does not fold case itself.
- `Mysqli.QueryDecision`: `$interceptedCallArgs[1]` is read as the second element of an argument list. A PHP array whose keys are not 0 and 1 is not modelled.
- `Wpdb.QueryDecision`: `$interceptedCallArgs[0]` is read as the first element of an argument list. A PHP array whose only key is not 0 is not modelled.
- The insert/replace/update/delete interceptions of `wpdb` exist only as commented-out calls, so they have no model.
- The real values of the agent's constants are not part of this model (see above).
