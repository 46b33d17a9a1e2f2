/**
 * Stand-ins for the tracer-side objects the instrumentation drives: spans and
 * their context setters, the current transaction that begins spans, the
 * logger, and the post-hook that ends a span.
 */
module Tracing {
  import opened Wrappers
  import opened DbSpans

  /** A span owned by the tracer: what has been set on it, and how often it was ended. */
  class Span {
    var descriptor: SpanDescriptor
    var endCount: nat

    constructor (name: string, spanType: string, subtype: string, action: string)
      ensures descriptor == Begun(name, spanType, subtype, action)
      ensures endCount == 0
    {
      descriptor := Begun(name, spanType, subtype, action);
      endCount := 0;
    }

    /** `context()->db()->setStatement(statement)` */
    method SetStatement(statement: Option<string>)
      modifies this
      ensures descriptor == old(descriptor).(statement := statement)
      ensures endCount == old(endCount)
    {
      descriptor := descriptor.(statement := statement);
    }

    /** `context()->destination()->setService(resource, name, type)` */
    method SetDestinationService(resource: string, name: string, destinationType: string)
      modifies this
      ensures descriptor == old(descriptor).(destination := Some(Destination(resource, name, destinationType)))
      ensures endCount == old(endCount)
    {
      descriptor := descriptor.(destination := Some(Destination(resource, name, destinationType)));
    }

    /** `context()->service()->target()->setName(name)` */
    method SetTargetName(name: Option<string>)
      modifies this
      ensures descriptor == old(descriptor).(targetName := name)
      ensures endCount == old(endCount)
    {
      descriptor := descriptor.(targetName := name);
    }

    /** `context()->service()->target()->setType(targetType)` */
    method SetTargetType(targetType: string)
      modifies this
      ensures descriptor == old(descriptor).(targetType := Some(targetType))
      ensures endCount == old(endCount)
    {
      descriptor := descriptor.(targetType := Some(targetType));
    }

    method End()
      modifies this
      ensures descriptor == old(descriptor)
      ensures endCount == old(endCount) + 1
    {
      endCount := endCount + 1;
    }
  }

  /** The current transaction, as the record of every span begun under it, in order. */
  class Tracer {
    var spans: seq<Span>

    constructor ()
      ensures spans == []
    {
      spans := [];
    }

    /** `getCurrentTransaction()->beginCurrentSpan(name, type, subtype, action)` */
    method BeginCurrentSpan(name: string, spanType: string, subtype: string, action: string)
      returns (span: Span)
      modifies this
      ensures fresh(span)
      ensures spans == old(spans) + [span]
      ensures span.descriptor == Begun(name, spanType, subtype, action)
      ensures span.endCount == 0
    {
      span := new Span(name, spanType, subtype, action);
      spans := spans + [span];
    }
  }

  /** A logger, as the severities of the entries written to it, in order. */
  class Logger {
    var entries: seq<Severity>

    constructor ()
      ensures entries == []
    {
      entries := [];
    }

    method Log(severity: Severity)
      modifies this
      ensures entries == old(entries) + [severity]
    {
      entries := entries + [severity];
    }
  }

  /** The post-hook made by `createPostHookFromEndSpan`: it ends the one span it was made for. */
  datatype PostHook = EndSpan(span: Span)

  /** Runs a post-hook after the intercepted call has returned or thrown. */
  method RunPostHook(hook: PostHook)
    modifies hook.span
    ensures hook.span.descriptor == old(hook.span.descriptor)
    ensures hook.span.endCount == old(hook.span.endCount) + 1
  {
    hook.span.End();
  }

  /** What a pre-hook hands back to the interception layer: a (nullable) post-hook, or an error. */
  datatype HookReturn = Returned(post: Option<PostHook>) | Threw
}
