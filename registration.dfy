/** The registration context through which a module asks for calls to be intercepted. */
module Registration {

  /** An intercepted call site: a free function, or a method of a named class. */
  datatype CallTarget =
    | FreeFunction(name: string)
    | ClassMethod(className: string, methodName: string)

  /** The pre-hooks the modules install, one per call site they bind. */
  datatype PreHook = WpdbConstructPreHook | WpdbQueryPreHook | MysqliQueryPreHook

  datatype Binding = Binding(target: CallTarget, preHook: PreHook)

  /** The registration context: every call site bound so far, in order. */
  class RegistrationContext {
    var bindings: seq<Binding>

    constructor ()
      ensures bindings == []
    {
      bindings := [];
    }

    /** `interceptCallsToMethod(className, methodName, preHook)` */
    method InterceptCallsToMethod(className: string, methodName: string, preHook: PreHook)
      modifies this
      ensures bindings == old(bindings) + [Binding(ClassMethod(className, methodName), preHook)]
    {
      bindings := bindings + [Binding(ClassMethod(className, methodName), preHook)];
    }

    /** `interceptCallsToFunction(name, preHook)` */
    method InterceptCallsToFunction(name: string, preHook: PreHook)
      modifies this
      ensures bindings == old(bindings) + [Binding(FreeFunction(name), preHook)]
    {
      bindings := bindings + [Binding(FreeFunction(name), preHook)];
    }
  }
}
