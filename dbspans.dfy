/**
 * What the database instrumentations derive for a span: the shared constants,
 * the span descriptor, the outcome of a pre-hook, and the reading of a
 * destination resource back into the subtype and database name it was built
 * from.
 */
module DbSpans {
  import opened Wrappers
  import opened Php

  // The agent's span-type constants and the instrumentation group name. The
  // proofs below use only that SubtypeMysql != SubtypeUnknown, that
  // SpanTypeDb != SubtypeMysql, and that neither subtype contains '/'.
  const SpanTypeDb: string := "db"
  const SubtypeMysql: string := "mysql"
  const SubtypeUnknown: string := "unknown"
  const ActionQuery: string := "query"
  const GroupDb: string := "db"

  /** Severity of one log entry written by a pre-hook. */
  datatype Severity = Error | Debug

  /** Destination service as set by `setService(resource, name, type)`. */
  datatype Destination = Destination(resource: string, name: string, destinationType: string)

  /** Everything a database span carries once its pre-hook has set it up. */
  datatype SpanDescriptor = SpanDescriptor(
    name: string,
    spanType: string,
    subtype: string,
    action: string,
    statement: Option<string>,
    destination: Option<Destination>,
    targetName: Option<string>,
    targetType: Option<string>)

  /** A span just begun with a name, type, subtype and action: no context set yet. */
  function Begun(name: string, spanType: string, subtype: string, action: string): SpanDescriptor {
    SpanDescriptor(name, spanType, subtype, action, None, None, None, None)
  }

  /**
   * What a pre-hook decides for one intercepted call: no span and no post-hook,
   * exactly one span described by the descriptor, or an error raised before any
   * span is begun.
   */
  datatype Outcome = Declined | Tracking(span: SpanDescriptor) | Raised

  /** A pre-hook's outcome together with the severities it logged, in order. */
  datatype Decision = Decision(outcome: Outcome, logs: seq<Severity>)

  /** The statement argument: a string is kept verbatim, anything else becomes null. */
  function StatementOf(arg: Value): (r: Option<string>)
    ensures r.Some? <==> IsString(arg)
    ensures r.Some? ==> r.value == arg.s
  {
    if arg.Str? then Some(arg.s) else None
  }

  /** A non-string statement argument is reported once at debug severity. */
  function StatementLogs(arg: Value): seq<Severity> {
    if IsString(arg) then [] else [Debug]
  }

  /**
   * Splits a destination resource at its first '/': the part before it and the
   * part after it (empty when there is no '/').
   */
  function SplitResource(resource: string): (r: (string, string))
    ensures '/' !in r.0
    ensures '/' !in resource ==> r == (resource, "")
    ensures '/' in resource ==> resource == r.0 + "/" + r.1
  {
    if resource == [] then ([], [])
    else if resource[0] == '/' then ([], resource[1..])
    else
      var (head, tail) := SplitResource(resource[1..]);
      assert resource == [resource[0]] + resource[1..];
      ([resource[0]] + head, tail)
  }

  /** A resource that starts with a '/'-free head reads back as that head and the rest. */
  lemma {:induction false} SplitPrefix(head: string, rest: string)
    requires '/' !in head
    ensures SplitResource(head + "/" + rest) == (head, rest)
  {
    if head == [] {
      assert head + "/" + rest == ['/'] + rest;
    } else {
      var whole := head + "/" + rest;
      assert whole[0] == head[0] != '/';
      assert whole[1..] == head[1..] + "/" + rest;
      SplitPrefix(head[1..], rest);
      assert [head[0]] + head[1..] == head;
    }
  }

  /**
   * The span's subtype and its destination resource come from the same engine
   * identity: the resource's part before the first '/' is the subtype.
   */
  predicate SubtypeMatchesDestination(d: SpanDescriptor) {
    d.destination.Some? && SplitResource(d.destination.value.resource).0 == d.subtype
  }
}
