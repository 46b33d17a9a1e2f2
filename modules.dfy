/** Facts that relate the two database instrumentation modules to each other. */
module Modules {
  import opened Wrappers
  import opened Php
  import opened DbSpans
  import Wpdb
  import Mysqli

  /** Distinct primary names, and both in the one db group used to switch them on or off together. */
  lemma Identities(w: Wpdb.WpdbAutoInstrumentation, m: Mysqli.MysqliAutoInstrumentation)
    ensures w.Name() == "wpdb" && m.Name() == "mysqli" && w.Name() != m.Name()
    ensures w.OtherNames() == m.OtherNames() == [GroupDb]
  {
  }

  /**
   * Both modules track a MySQL-backed query as subtype MySQL, but they disagree on
   * the destination type and the service-target type: `wpdb` uses the subtype,
   * `mysqli` the db span type.
   */
  lemma ServiceTargetsDiverge(receiver: ObjectOrNull, wpdbArgs: seq<Value>, mysqliArgs: seq<Value>)
    requires Wpdb.QueryDecision(receiver, wpdbArgs).outcome.Tracking?
    requires Wpdb.QueryDecision(receiver, wpdbArgs).outcome.span.subtype == SubtypeMysql
    requires |mysqliArgs| == Mysqli.QueryArity
    ensures var w := Wpdb.QueryDecision(receiver, wpdbArgs).outcome.span;
      var m := Mysqli.QueryDecision(mysqliArgs).outcome.span;
      w.subtype == m.subtype &&
      w.destination.Some? && m.destination.Some? &&
      w.destination.value.destinationType != m.destination.value.destinationType &&
      w.targetType != m.targetType
  {
    Wpdb.QueryDestination(receiver, wpdbArgs);
    Mysqli.QuerySpanMetadata(mysqliArgs);
  }
}
