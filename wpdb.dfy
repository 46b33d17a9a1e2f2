/**
 * Auto-instrumentation of the CMS database class `wpdb`: the constructor is
 * watched only to check its call shape, and each `query` call becomes one
 * database span whose subtype and destination come from the receiver's
 * connection handle and database name.
 */
module Wpdb {
  import opened Wrappers
  import opened Php
  import opened DbSpans
  import opened Tracing
  import opened Registration

  const WpdbClass: string := "wpdb"
  const MysqliClass: string := "mysqli"
  /** Span name used when the query argument is not a string. */
  const QueryFallbackName: string := "wpdb->query"
  /** `__construct($dbuser, $dbpassword, $dbname, $dbhost)` */
  const ConstructArity: nat := 4
  /** `query($query)` */
  const QueryArity: nat := 1

  /** The verdict of `checkIntercept`. */
  datatype Check = Pass | NotAnInstance | WrongArgCount

  /**
   * `checkIntercept`: the receiver must be a `wpdb` instance, and only then is
   * the argument count compared with the expected arity.
   */
  function CheckIntercept(receiver: ObjectOrNull, args: seq<Value>, expectedArgs: nat): (r: Check)
    ensures r.Pass? <==> IsA(receiver, WpdbClass) && |args| == expectedArgs
    ensures r == NotAnInstance <==> !IsA(receiver, WpdbClass)
    ensures r == WrongArgCount <==> IsA(receiver, WpdbClass) && |args| != expectedArgs
  {
    if !IsA(receiver, WpdbClass) then NotAnInstance
    else if |args| != expectedArgs then WrongArgCount
    else Pass
  }

  /** A failed check is logged once at error severity; a passed one is not logged. */
  function CheckLogs(check: Check): seq<Severity> {
    if check.Pass? then [] else [Error]
  }

  /** The subtype: MySQL when the receiver's `dbh` (null when absent) is a `mysqli` object. */
  function DbType(receiver: ObjectOrNull): (r: string)
    ensures r == SubtypeMysql <==> IsA(PropertyOr(receiver, "dbh", Null), MysqliClass)
    ensures r == SubtypeUnknown <==> !IsA(PropertyOr(receiver, "dbh", Null), MysqliClass)
  {
    if IsA(PropertyOr(receiver, "dbh", Null), MysqliClass) then SubtypeMysql else SubtypeUnknown
  }

  /** The receiver's `dbname` property, null when absent. */
  function DbNameProperty(receiver: ObjectOrNull): Value {
    PropertyOr(receiver, "dbname", Null)
  }

  /**
   * `setService`'s resource: the subtype, then "/" and the database name when
   * that is non-null and non-empty. For a '/'-free subtype it reads back as the
   * subtype and the database name (empty when null).
   */
  function DestinationResource(dbType: string, dbName: Option<string>): (r: string)
    ensures '/' !in dbType ==> SplitResource(r) == (dbType, dbName.GetOr(""))
    ensures r == dbType <==> dbName.None? || dbName.value == ""
  {
    if dbName.Some? && |dbName.value| != 0 then
      var composed := dbType + "/" + dbName.value;
      assert |composed| > |dbType|;
      if '/' in dbType then composed else SplitPrefix(dbType, dbName.value); composed
    else dbType
  }

  /**
   * What `beginDbSpan` followed by `setService` leaves on the span: one value as
   * destination resource and name, the subtype as destination and target type,
   * the database name unchanged as target name.
   */
  function DbSpan(name: string, dbType: string, dbName: Option<string>, statement: Option<string>): (r: SpanDescriptor)
    ensures r.name == name && r.statement == statement
    ensures r.spanType == SpanTypeDb && r.subtype == dbType && r.action == ActionQuery
    ensures r.destination.Some? && r.destination.value.resource == r.destination.value.name
    ensures '/' !in dbType ==> SubtypeMatchesDestination(r)
    ensures r.destination.value.destinationType == dbType && r.targetType == Some(dbType)
    ensures r.targetName == dbName
  {
    var resource := DestinationResource(dbType, dbName);
    SpanDescriptor(name, SpanTypeDb, dbType, ActionQuery, statement,
                   Some(Destination(resource, resource, dbType)), dbName, Some(dbType))
  }

  /**
   * The `query` pre-hook as a decision. `beginDbSpan` declares `?string $dbName`
   * under strict types, so a `dbname` that is neither null nor a string raises
   * a type error before any span is begun.
   */
  function QueryDecision(receiver: ObjectOrNull, args: seq<Value>): (r: Decision)
    ensures r.outcome.Declined? <==> !CheckIntercept(receiver, args, QueryArity).Pass?
    ensures r.outcome.Declined? ==> r.logs == [Error]
    ensures r.outcome.Raised? <==>
              CheckIntercept(receiver, args, QueryArity).Pass? && !(DbNameProperty(receiver).Null? || DbNameProperty(receiver).Str?)
    ensures !r.outcome.Declined? ==> |args| == 1 && r.logs == StatementLogs(args[0])
  {
    var check := CheckIntercept(receiver, args, QueryArity);
    if !check.Pass? then Decision(Declined, CheckLogs(check))
    else
      var statement := StatementOf(args[0]);
      var dbType := DbType(receiver);
      var dbName := DbNameProperty(receiver);
      if !(dbName.Null? || dbName.Str?) then Decision(Raised, StatementLogs(args[0]))
      else Decision(Tracking(DbSpan(statement.GetOr(QueryFallbackName), dbType, AsOption(dbName), statement)),
                    StatementLogs(args[0]))
  }

  /** Whatever the receiver's handle, the query pre-hook's subtype is one that holds no '/'. */
  lemma DbTypeHasNoSlash(receiver: ObjectOrNull)
    ensures '/' !in DbType(receiver)
  {
  }

  /** The receiver type is checked first: a non-`wpdb` receiver fails whatever the arguments. */
  lemma ReceiverCheckedBeforeArity(receiver: ObjectOrNull, args1: seq<Value>, n1: nat, args2: seq<Value>, n2: nat)
    requires !IsA(receiver, WpdbClass)
    ensures CheckIntercept(receiver, args1, n1) == CheckIntercept(receiver, args2, n2) == NotAnInstance
  {
  }

  /** A string query, the empty one included, is both the span name and the statement; otherwise the name falls back. */
  lemma QueryNameAndStatement(receiver: ObjectOrNull, args: seq<Value>)
    requires QueryDecision(receiver, args).outcome.Tracking?
    ensures |args| == 1
    ensures var d := QueryDecision(receiver, args);
      if IsString(args[0])
      then d.outcome.span.name == args[0].s && d.outcome.span.statement == Some(args[0].s) && d.logs == []
      else d.outcome.span.name == QueryFallbackName && d.outcome.span.statement == None && d.logs == [Debug]
  {
  }

  /** Type and action are fixed; the subtype is MySQL exactly when `dbh` is a `mysqli` object. */
  lemma QuerySpanKind(receiver: ObjectOrNull, args: seq<Value>)
    requires QueryDecision(receiver, args).outcome.Tracking?
    ensures var s := QueryDecision(receiver, args).outcome.span;
      s.spanType == SpanTypeDb && s.action == ActionQuery &&
      (s.subtype == SubtypeMysql <==> IsA(PropertyOr(receiver, "dbh", Null), MysqliClass)) &&
      (s.subtype == SubtypeUnknown <==> !IsA(PropertyOr(receiver, "dbh", Null), MysqliClass))
  {
  }

  /**
   * Destination resource and name are one value built from the subtype and
   * `dbname`; the destination type and the target type are the subtype; the
   * target name is `dbname` unchanged.
   */
  lemma QueryDestination(receiver: ObjectOrNull, args: seq<Value>)
    requires QueryDecision(receiver, args).outcome.Tracking?
    ensures var s := QueryDecision(receiver, args).outcome.span;
      var dbName := AsOption(DbNameProperty(receiver));
      s.destination.Some? &&
      s.destination.value.resource == s.destination.value.name &&
      SplitResource(s.destination.value.resource) == (s.subtype, dbName.GetOr("")) &&
      (s.destination.value.resource == s.subtype <==> dbName.None? || dbName.value == "") &&
      s.destination.value.destinationType == s.subtype &&
      s.targetType == Some(s.subtype) &&
      s.targetName == dbName
  {
    var dbName := AsOption(DbNameProperty(receiver));
    DbTypeHasNoSlash(receiver);
  }

  /** Every span the query pre-hook begins has a destination that agrees with its subtype. */
  lemma QuerySpanConsistent(receiver: ObjectOrNull, args: seq<Value>)
    ensures QueryDecision(receiver, args).outcome.Tracking? ==>
              SubtypeMatchesDestination(QueryDecision(receiver, args).outcome.span)
  {
    if QueryDecision(receiver, args).outcome.Tracking? {
      QueryDestination(receiver, args);
    }
  }

  /** A `query("SELECT 1")` on a `wpdb` over `mysqli` with database "shop". */
  lemma QueryOverMysqliScenario()
    ensures var receiver := Obj(PhpObject({WpdbClass}, map["dbh" := Obj(PhpObject({MysqliClass}, map[])),
                                                            "dbname" := Str("shop")]));
      var d := QueryDecision(receiver, [Str("SELECT 1")]);
      d.outcome.Tracking? && d.logs == [] &&
      d.outcome.span.name == "SELECT 1" && d.outcome.span.statement == Some("SELECT 1") &&
      d.outcome.span.subtype == SubtypeMysql &&
      d.outcome.span.destination == Some(Destination(SubtypeMysql + "/shop", SubtypeMysql + "/shop", SubtypeMysql))
  {
    var receiver := Obj(PhpObject({WpdbClass}, map["dbh" := Obj(PhpObject({MysqliClass}, map[])),
                                                   "dbname" := Str("shop")]));
    assert IsA(PropertyOr(receiver, "dbh", Null), MysqliClass);
    assert DbNameProperty(receiver) == Str("shop");
    assert DestinationResource(SubtypeMysql, Some("shop")) == SubtypeMysql + "/shop";
  }

  /** A `query` intercepted on an object that is not a `wpdb`: declined with one error. */
  lemma QueryOnOtherClassScenario()
    ensures QueryDecision(Obj(PhpObject({"PDO"}, map[])), [Str("SELECT 1")]) == Decision(Declined, [Error])
  {
  }

  /** The module for `wpdb`, with the tracer it begins spans on and its own logger. */
  class WpdbAutoInstrumentation {
    const tracer: Tracer
    const logger: Logger

    constructor (tracer: Tracer)
      ensures this.tracer == tracer
      ensures fresh(logger) && logger.entries == []
    {
      this.tracer := tracer;
      logger := new Logger();
    }

    function Name(): string {
      "wpdb"
    }

    function OtherNames(): seq<string> {
      [GroupDb]
    }

    /** Binds `wpdb::__construct` and then `wpdb::query`, or nothing when class `wpdb` does not exist. */
    method Register(ctx: RegistrationContext, wpdbClassExists: bool)
      modifies ctx
      ensures ctx.bindings == old(ctx.bindings) +
        if wpdbClassExists
        then [Binding(ClassMethod(WpdbClass, "__construct"), WpdbConstructPreHook),
              Binding(ClassMethod(WpdbClass, "query"), WpdbQueryPreHook)]
        else []
    {
      if !wpdbClassExists {
        return;
      }
      WpdbConstruct(ctx);
      WpdbQuery(ctx);
    }

    method WpdbConstruct(ctx: RegistrationContext)
      modifies ctx
      ensures ctx.bindings == old(ctx.bindings) + [Binding(ClassMethod(WpdbClass, "__construct"), WpdbConstructPreHook)]
    {
      ctx.InterceptCallsToMethod(WpdbClass, "__construct", WpdbConstructPreHook);
    }

    method WpdbQuery(ctx: RegistrationContext)
      modifies ctx
      ensures ctx.bindings == old(ctx.bindings) + [Binding(ClassMethod(WpdbClass, "query"), WpdbQueryPreHook)]
    {
      ctx.InterceptCallsToMethod(WpdbClass, "query", WpdbQueryPreHook);
    }

    /** `checkIntercept`, logging the failed check. */
    method CheckInterceptAndLog(receiver: ObjectOrNull, args: seq<Value>, expectedArgs: nat) returns (ok: bool)
      modifies logger
      ensures ok == CheckIntercept(receiver, args, expectedArgs).Pass?
      ensures logger.entries == old(logger.entries) + CheckLogs(CheckIntercept(receiver, args, expectedArgs))
    {
      if !IsA(receiver, WpdbClass) {
        logger.Log(Error);
        return false;
      }
      if |args| != expectedArgs {
        logger.Log(Error);
        return false;
      }
      return true;
    }

    /** The `__construct` pre-hook: checks the call shape, never begins a span nor returns a post-hook. */
    method ConstructPreHook(receiver: ObjectOrNull, args: seq<Value>) returns (r: HookReturn)
      modifies logger
      ensures r == Returned(None)
      ensures tracer.spans == old(tracer.spans)
      ensures logger.entries == old(logger.entries) + CheckLogs(CheckIntercept(receiver, args, ConstructArity))
    {
      var _ := CheckInterceptAndLog(receiver, args, ConstructArity);
      r := Returned(None);
    }

    /** The `query` pre-hook: declines, raises, or begins one span and returns the post-hook that ends it. */
    method QueryPreHook(receiver: ObjectOrNull, args: seq<Value>) returns (r: HookReturn)
      modifies tracer, logger
      ensures logger.entries == old(logger.entries) + QueryDecision(receiver, args).logs
      ensures !QueryDecision(receiver, args).outcome.Tracking? ==> tracer.spans == old(tracer.spans)
      ensures QueryDecision(receiver, args).outcome.Declined? ==> r == Returned(None)
      ensures QueryDecision(receiver, args).outcome.Raised? ==> r == Threw
      ensures QueryDecision(receiver, args).outcome.Tracking? ==>
                r.Returned? && r.post.Some? &&
                var span := r.post.value.span;
                fresh(span) && tracer.spans == old(tracer.spans) + [span] &&
                span.descriptor == QueryDecision(receiver, args).outcome.span && span.endCount == 0
    {
      var ok := CheckInterceptAndLog(receiver, args, QueryArity);
      if !ok {
        return Returned(None);
      }
      var statement := StatementOf(args[0]);
      if !IsString(args[0]) {
        logger.Log(Debug);
      }
      var dbType := DbType(receiver);
      var dbName := DbNameProperty(receiver);
      if !(dbName.Null? || dbName.Str?) {
        return Threw;
      }
      var span := BeginDbSpan(statement.GetOr(QueryFallbackName), dbType, AsOption(dbName), statement);
      r := Returned(Some(EndSpan(span)));
    }

    /** `beginDbSpan`: begins the span, sets its statement, then its service. */
    method BeginDbSpan(name: string, dbType: string, dbName: Option<string>, statement: Option<string>)
      returns (span: Span)
      modifies tracer
      ensures fresh(span) && tracer.spans == old(tracer.spans) + [span]
      ensures span.descriptor == DbSpan(name, dbType, dbName, statement) && span.endCount == 0
    {
      span := tracer.BeginCurrentSpan(name, SpanTypeDb, dbType, ActionQuery);
      span.SetStatement(statement);
      SetService(span, dbType, dbName);
    }

    /** `setService`: destination resource and name from subtype and database name, target from the raw pair. */
    static method SetService(span: Span, dbType: string, dbName: Option<string>)
      modifies span
      ensures span.descriptor == old(span.descriptor).(
                destination := Some(Destination(DestinationResource(dbType, dbName), DestinationResource(dbType, dbName), dbType)),
                targetName := dbName,
                targetType := Some(dbType))
      ensures span.endCount == old(span.endCount)
    {
      var resource := dbType;
      if dbName.Some? && |dbName.value| != 0 {
        resource := resource + "/" + dbName.value;
      }
      span.SetDestinationService(resource, resource, dbType);
      span.SetTargetName(dbName);
      span.SetTargetType(dbType);
    }
  }

  /**
   * One intercepted `query` call with the real call left out: the pre-hook,
   * then the post-hook when one came back. At most one span is begun, and a
   * span that is begun is ended exactly once.
   */
  method QueryCall(instrumentation: WpdbAutoInstrumentation, receiver: ObjectOrNull, args: seq<Value>)
    modifies instrumentation.tracer, instrumentation.logger
    ensures |instrumentation.tracer.spans| ==
              |old(instrumentation.tracer.spans)| + if QueryDecision(receiver, args).outcome.Tracking? then 1 else 0
    ensures instrumentation.tracer.spans[..|old(instrumentation.tracer.spans)|] == old(instrumentation.tracer.spans)
    ensures forall k :: |old(instrumentation.tracer.spans)| <= k < |instrumentation.tracer.spans| ==>
              instrumentation.tracer.spans[k].endCount == 1
  {
    var r := instrumentation.QueryPreHook(receiver, args);
    if r.Returned? && r.post.Some? {
      RunPostHook(r.post.value);
    }
  }
}
