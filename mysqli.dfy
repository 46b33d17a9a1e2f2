/**
 * Auto-instrumentation of the free function `mysqli_query($link, $query)`:
 * each call with exactly two arguments becomes one database span whose
 * subtype and destination are fixed.
 */
module Mysqli {
  import opened Wrappers
  import opened Php
  import opened DbSpans
  import opened Tracing
  import opened Registration

  const QueryFunction: string := "mysqli_query"
  /** Span name used when the query argument is not a string. */
  const QueryFallbackName: string := "mysqli_query"
  /** `mysqli_query($link, $query)` */
  const QueryArity: nat := 2

  /** Destination name and service-target name: the MySQL subtype followed by "/mysqli". */
  function MysqliServiceName(): string {
    SubtypeMysql + "/mysqli"
  }

  /** The subtype reads back as itself, and "<subtype>/mysqli" as the subtype and "mysqli". */
  lemma ServiceNamesSplit()
    ensures SplitResource(SubtypeMysql) == (SubtypeMysql, "")
    ensures SplitResource(MysqliServiceName()) == (SubtypeMysql, "mysqli")
  {
    assert '/' !in SubtypeMysql;
    assert MysqliServiceName() == SubtypeMysql + "/" + "mysqli";
    SplitPrefix(SubtypeMysql, "mysqli");
  }

  /**
   * What `beginDbSpan` leaves on the span: only the name and statement vary.
   * The resource is the subtype alone; destination name and target name read
   * back as the subtype and "mysqli".
   */
  function DbSpan(name: string, statement: Option<string>): (r: SpanDescriptor)
    ensures r.name == name && r.statement == statement
    ensures r.spanType == SpanTypeDb && r.subtype == SubtypeMysql && r.action == ActionQuery
    ensures SubtypeMatchesDestination(r)
    ensures SplitResource(r.destination.value.name) == (r.subtype, "mysqli")
    ensures r.targetName == Some(r.destination.value.name)
    ensures r.destination.value.destinationType == SpanTypeDb && r.targetType == Some(SpanTypeDb)
  {
    ServiceNamesSplit();
    SpanDescriptor(name, SpanTypeDb, SubtypeMysql, ActionQuery, statement,
                   Some(Destination(SubtypeMysql, MysqliServiceName(), SpanTypeDb)),
                   Some(MysqliServiceName()), Some(SpanTypeDb))
  }

  /** The `mysqli_query` pre-hook as a decision. */
  function QueryDecision(args: seq<Value>): (r: Decision)
    ensures r.outcome.Declined? <==> |args| != QueryArity
    ensures r.outcome.Declined? ==> r.logs == [Error]
    ensures !r.outcome.Raised?
    ensures r.outcome.Tracking? ==>
              |args| == 2 && r.logs == StatementLogs(args[1]) &&
              r.outcome.span.statement == StatementOf(args[1]) &&
              r.outcome.span.name == if IsString(args[1]) then args[1].s else QueryFallbackName
  {
    if |args| != QueryArity then Decision(Declined, [Error])
    else
      var statement := StatementOf(args[1]);
      Decision(Tracking(DbSpan(statement.GetOr(QueryFallbackName), statement)), StatementLogs(args[1]))
  }

  /** Everything but the name and statement is the same for every tracked call. */
  lemma MetadataIndependentOfArguments(args1: seq<Value>, args2: seq<Value>)
    requires |args1| == |args2| == QueryArity
    ensures var s1 := QueryDecision(args1).outcome.span;
      var s2 := QueryDecision(args2).outcome.span;
      s1.(name := s2.name, statement := s2.statement) == s2
  {
  }

  /**
   * The constant metadata: type, subtype and action; destination resource is
   * the MySQL subtype and destination name and target name are
   * "<MySQL subtype>/mysqli"; destination and target type are the db type.
   */
  lemma QuerySpanMetadata(args: seq<Value>)
    requires |args| == QueryArity
    ensures var s := QueryDecision(args).outcome.span;
      s.spanType == SpanTypeDb && s.subtype == SubtypeMysql && s.action == ActionQuery &&
      s.destination == Some(Destination(SubtypeMysql, SubtypeMysql + "/mysqli", SpanTypeDb)) &&
      s.targetName == Some(SubtypeMysql + "/mysqli") && s.targetType == Some(SpanTypeDb)
  {
  }

  /**
   * The destination name and target name read back as the subtype and "mysqli",
   * and the resource as the subtype alone: the span never contradicts itself.
   */
  lemma QuerySpanConsistent(args: seq<Value>)
    requires |args| == QueryArity
    ensures var s := QueryDecision(args).outcome.span;
      SubtypeMatchesDestination(s) &&
      SplitResource(s.destination.value.name) == (s.subtype, "mysqli") &&
      SplitResource(s.targetName.value) == (s.subtype, "mysqli")
  {
    ServiceNamesSplit();
  }

  /** `mysqli_query($link, "SELECT 1")` is tracked under the statement's text. */
  lemma TwoArgumentScenario(link: Value)
    ensures var d := QueryDecision([link, Str("SELECT 1")]);
      d.outcome.Tracking? && d.logs == [] &&
      d.outcome.span.name == "SELECT 1" && d.outcome.span.statement == Some("SELECT 1") &&
      d.outcome.span.spanType == SpanTypeDb && d.outcome.span.subtype == SubtypeMysql
  {
  }

  /** A call with three arguments is declined with one error. */
  lemma ThreeArgumentScenario(a: Value, b: Value, c: Value)
    ensures QueryDecision([a, b, c]) == Decision(Declined, [Error])
  {
  }

  /** The module for `mysqli`, with the tracer it begins spans on and its own logger. */
  class MysqliAutoInstrumentation {
    const tracer: Tracer
    const logger: Logger

    constructor (tracer: Tracer)
      ensures this.tracer == tracer
      ensures fresh(logger) && logger.entries == []
    {
      this.tracer := tracer;
      logger := new Logger();
    }

    function Name(): string {
      "mysqli"
    }

    function OtherNames(): seq<string> {
      [GroupDb]
    }

    /** Binds the function `mysqli_query`, or nothing when the `mysqli` extension is not loaded. */
    method Register(ctx: RegistrationContext, mysqliExtensionLoaded: bool)
      modifies ctx
      ensures ctx.bindings == old(ctx.bindings) +
        if mysqliExtensionLoaded then [Binding(FreeFunction(QueryFunction), MysqliQueryPreHook)] else []
    {
      if !mysqliExtensionLoaded {
        return;
      }
      MysqliQuery(ctx);
    }

    method MysqliQuery(ctx: RegistrationContext)
      modifies ctx
      ensures ctx.bindings == old(ctx.bindings) + [Binding(FreeFunction(QueryFunction), MysqliQueryPreHook)]
    {
      ctx.InterceptCallsToFunction(QueryFunction, MysqliQueryPreHook);
    }

    /** The `mysqli_query` pre-hook: declines, or begins one span and returns the post-hook that ends it. */
    method QueryPreHook(args: seq<Value>) returns (post: Option<PostHook>)
      modifies tracer, logger
      ensures logger.entries == old(logger.entries) + QueryDecision(args).logs
      ensures QueryDecision(args).outcome.Declined? ==> post == None && tracer.spans == old(tracer.spans)
      ensures QueryDecision(args).outcome.Tracking? ==>
                post.Some? &&
                var span := post.value.span;
                fresh(span) && tracer.spans == old(tracer.spans) + [span] &&
                span.descriptor == QueryDecision(args).outcome.span && span.endCount == 0
    {
      if |args| != QueryArity {
        logger.Log(Error);
        return None;
      }
      var statement := StatementOf(args[1]);
      if !IsString(args[1]) {
        logger.Log(Debug);
      }
      var span := BeginDbSpan(statement.GetOr(QueryFallbackName), statement);
      post := Some(EndSpan(span));
    }

    /** `beginDbSpan`: begins the span, then sets statement, destination and service target. */
    method BeginDbSpan(name: string, statement: Option<string>) returns (span: Span)
      modifies tracer
      ensures fresh(span) && tracer.spans == old(tracer.spans) + [span]
      ensures span.descriptor == DbSpan(name, statement) && span.endCount == 0
    {
      span := tracer.BeginCurrentSpan(name, SpanTypeDb, SubtypeMysql, ActionQuery);
      span.SetStatement(statement);
      span.SetDestinationService(SubtypeMysql, SubtypeMysql + "/mysqli", SpanTypeDb);
      span.SetTargetName(Some(SubtypeMysql + "/mysqli"));
      span.SetTargetType(SpanTypeDb);
    }
  }

  /**
   * One intercepted `mysqli_query` call with the real call left out: the
   * pre-hook, then the post-hook when one came back. At most one span is
   * begun, and a span that is begun is ended exactly once.
   */
  method QueryCall(instrumentation: MysqliAutoInstrumentation, args: seq<Value>)
    modifies instrumentation.tracer, instrumentation.logger
    ensures |instrumentation.tracer.spans| ==
              |old(instrumentation.tracer.spans)| + if |args| == QueryArity then 1 else 0
    ensures instrumentation.tracer.spans[..|old(instrumentation.tracer.spans)|] == old(instrumentation.tracer.spans)
    ensures forall k :: |old(instrumentation.tracer.spans)| <= k < |instrumentation.tracer.spans| ==>
              instrumentation.tracer.spans[k].endCount == 1
  {
    var post := instrumentation.QueryPreHook(args);
    if post.Some? {
      RunPostHook(post.value);
    }
  }
}
