/**
 * The registration table of BasicTomcat7HttpService, on values. The default Tomcat host is a
 * map from child name to child: a context created by this service (an HttpServiceStandardContext,
 * whose name equals its path) or a context deployed some other way. A context holds its children
 * (wrappers, keyed by name) and its servlet mappings (URL pattern to wrapper name). The `wrappers`
 * list of the service is a sequence of references (context path, wrapper name).
 */
module Registry {
  import opened Wrappers
  import opened Aliases
  import opened SecurityValve

  /** A servlet instance, known by identity, with the class loader of its class. */
  datatype Servlet = Servlet(id: nat, classLoader: nat)

  /** A Tomcat wrapper created for a registration. */
  datatype Wrapper = Wrapper(servlet: Servlet, initParams: map<string, string>, parentClassLoader: nat, valve: Valve)

  /** A child of a context: a StandardWrapper, or some other kind of container. */
  datatype Child = WrapperChild(wrapper: Wrapper) | OtherChild

  datatype Context = Context(
    path: string,
    name: string,
    httpContext: HttpContextRef,
    children: map<string, Child>,
    mappings: map<string, string>)

  /** A child of the host: a context of this service, or one it did not create. */
  datatype HostChild = ServiceContext(context: Context) | ForeignContext

  /**
   * The children and mappings the container installs in every context it starts (the `default`
   * and `jsp` servlets of the global web.xml in Tomcat's configuration).
   */
  datatype Template = Template(children: map<string, Child>, mappings: map<string, string>)

  /** An element of the `wrappers` list: the wrapper named `name` in the context at `contextPath`. */
  datatype WrapperRef = WrapperRef(contextPath: string, name: string)

  datatype Registry = Registry(host: map<string, HostChild>, wrappers: seq<WrapperRef>)

  /** A context and the host that holds it. */
  datatype Placement = Placement(host: map<string, HostChild>, context: Context)

  /** IllegalArgumentException (alias, foreign path, not registered, not a wrapper) and NamespaceException. */
  datatype Error =
    | InvalidAlias(reason: AliasError)
    | ForeignPath(path: string)
    | AliasInUse(alias: AliasInfo)
    | NotRegistered
    | NotAWrapper

  /** The container's own children never carry a servlet path as their name. */
  predicate TemplateOk(t: Template) {
    forall n :: n in t.children ==> !IsServletPath(n)
  }

  /** The mapping pattern installed for a servlet path. */
  function Pattern(servletPath: string): string {
    servletPath + "/*"
  }

  lemma PatternInjective(a: string, b: string)
    requires Pattern(a) == Pattern(b)
    ensures a == b
  {
    assert |a| == |b|;
    assert a == Pattern(a)[..|a|];
    assert b == Pattern(b)[..|b|];
  }

  /** `r` names a wrapper of a context of this service, mapped at its pattern. */
  ghost predicate Registered(host: map<string, HostChild>, r: WrapperRef) {
    && IsServletPath(r.name)
    && r.contextPath in host
    && host[r.contextPath].ServiceContext?
    && r.name in host[r.contextPath].context.children
    && host[r.contextPath].context.children[r.name].WrapperChild?
    && Pattern(r.name) in host[r.contextPath].context.mappings
    && host[r.contextPath].context.mappings[Pattern(r.name)] == r.name
  }

  /** Every listed wrapper is live and listed once. */
  ghost predicate Invariant(s: Registry) {
    && (forall i :: 0 <= i < |s.wrappers| ==> Registered(s.host, s.wrappers[i]))
    && (forall i, j :: 0 <= i < j < |s.wrappers| ==> s.wrappers[i] != s.wrappers[j])
  }

  /** getStandardContext(aliasInfo): `None` for null. */
  function LookupContext(host: map<string, HostChild>, path: string): (r: Result<Option<Context>, Error>)
    ensures r == Success(None) <==> path !in host
    ensures r.Success? && r.value.Some? <==> path in host && host[path].ServiceContext?
    ensures r.Success? && r.value.Some? ==> r.value.value == host[path].context
    ensures r.Failure? ==> r.error == ForeignPath(path)
  {
    if path !in host then Success(None)
    else match host[path]
      case ServiceContext(c) => Success(Some(c))
      case ForeignContext => Failure(ForeignPath(path))
  }

  /** A context created for `path`: path and name are both `path`. */
  function NewContext(path: string, httpContext: HttpContextRef, t: Template): Context {
    Context(path, path, httpContext, t.children, t.mappings)
  }

  /** getStandardContext(aliasInfo, httpContext): reuse, or create and add to the host. */
  function ContextFor(host: map<string, HostChild>, path: string, httpContext: HttpContextRef, t: Template): (r: Result<Placement, Error>)
    ensures r.Failure? <==> path in host && host[path].ForeignContext?
    ensures r.Failure? ==> r.error == ForeignPath(path)
    ensures r.Success? ==> r.value.host == host[path := ServiceContext(r.value.context)]
    ensures r.Success? && path in host ==> r.value.host == host
    ensures r.Success? && path !in host ==>
      var c := r.value.context;
      c.path == path && c.name == path && c.httpContext == httpContext &&
      c.children == t.children && c.mappings == t.mappings
  {
    match LookupContext(host, path)
    case Failure(e) => Failure(e)
    case Success(None) =>
      var c := NewContext(path, httpContext, t);
      Success(Placement(host[path := ServiceContext(c)], c))
    case Success(Some(c)) => Success(Placement(host, c))
  }

  /** The wrapper registerServlet builds, with the init parameters copied and the valve installed. */
  function MakeWrapper(servlet: Servlet, initParams: Option<map<string, string>>, httpContext: HttpContextRef): Wrapper {
    Wrapper(servlet, initParams.GetOr(map[]), servlet.classLoader, HttpContextSecurityValve(httpContext))
  }

  /** addChild(wrapper) and addServletMapping(Pattern(servletPath), name). */
  function AddWrapper(c: Context, servletPath: string, w: Wrapper): Context {
    c.(children := c.children[servletPath := WrapperChild(w)],
       mappings := c.mappings[Pattern(servletPath) := servletPath])
  }

  /** registerServlet. */
  function Register(s: Registry, t: Template, alias: Option<string>, servlet: Servlet,
                    initParams: Option<map<string, string>>, httpContext: HttpContextRef): (r: Result<Registry, Error>)
    ensures GetAliasInfo(alias).Failure? ==> r == Failure(InvalidAlias(GetAliasInfo(alias).error))
    ensures r.Success? ==> GetAliasInfo(alias).Success?
    ensures r.Success? ==>
      var info := GetAliasInfo(alias).value;
      && r.value.wrappers == s.wrappers + [WrapperRef(info.contextPath, info.servletPath)]
      && r.value.host.Keys == s.host.Keys + {info.contextPath}
  {
    match GetAliasInfo(alias)
    case Failure(e) => Failure(InvalidAlias(e))
    case Success(info) =>
      match ContextFor(s.host, info.contextPath, httpContext, t)
      case Failure(e) => Failure(e)
      case Success(pl) =>
        if info.servletPath in pl.context.children then Failure(AliasInUse(info))
        else
          var c := AddWrapper(pl.context, info.servletPath, MakeWrapper(servlet, initParams, httpContext));
          Success(Registry(pl.host[info.contextPath := ServiceContext(c)],
                           s.wrappers + [WrapperRef(info.contextPath, info.servletPath)]))
  }

  /** unregisterWrapper: drop the wrapper's mapping and the wrapper from its context. */
  function RemoveWrapper(host: map<string, HostChild>, r: WrapperRef): (h: map<string, HostChild>)
    ensures h.Keys == host.Keys
    ensures forall p :: p in host && p != r.contextPath ==> h[p] == host[p]
    ensures r.contextPath in host && host[r.contextPath].ServiceContext? ==>
      var c := host[r.contextPath].context;
      && h[r.contextPath].ServiceContext?
      && h[r.contextPath].context.path == c.path && h[r.contextPath].context.name == c.name
      && h[r.contextPath].context.httpContext == c.httpContext
      && h[r.contextPath].context.children.Keys == c.children.Keys - {r.name}
      && h[r.contextPath].context.mappings.Keys == c.mappings.Keys - {Pattern(r.name)}
    ensures !(r.contextPath in host && host[r.contextPath].ServiceContext?) ==> h == host
  {
    if r.contextPath in host && host[r.contextPath].ServiceContext? then
      var c := host[r.contextPath].context;
      host[r.contextPath := ServiceContext(c.(mappings := c.mappings - {Pattern(r.name)},
                                              children := c.children - {r.name}))]
    else host
  }

  /** Only the container's `default` and `jsp` children are left. */
  predicate OnlyContainerChildren(c: Context) {
    |c.children| == 2 && "default" in c.children && "jsp" in c.children
  }

  /** List.remove(Object): the first occurrence goes, nothing else moves. */
  function RemoveFirst<T(==)>(s: seq<T>, x: T): (r: seq<T>)
    ensures x !in s ==> r == s
    ensures x in s ==> |r| == |s| - 1 && multiset(r) == multiset(s) - multiset{x}
    ensures forall y :: y in r ==> y in s
  {
    if s == [] then []
    else if s[0] == x then
      assert s == [s[0]] + s[1..];
      s[1..]
    else
      assert s == [s[0]] + s[1..];
      [s[0]] + RemoveFirst(s[1..], x)
  }

  /** unregister. */
  function Unregister(s: Registry, alias: Option<string>): (r: Result<Registry, Error>)
    ensures GetAliasInfo(alias).Failure? ==> r == Failure(InvalidAlias(GetAliasInfo(alias).error))
    ensures r.Success? ==> GetAliasInfo(alias).Success?
    ensures r.Success? ==>
      var info := GetAliasInfo(alias).value;
      && r.value.wrappers == RemoveFirst(s.wrappers, WrapperRef(info.contextPath, info.servletPath))
      && r.value.host.Keys <= s.host.Keys
      && s.host.Keys - r.value.host.Keys <= {info.contextPath}
  {
    match GetAliasInfo(alias)
    case Failure(e) => Failure(InvalidAlias(e))
    case Success(info) =>
      match LookupContext(s.host, info.contextPath)
      case Failure(e) => Failure(e)
      case Success(None) => Failure(NotRegistered)
      case Success(Some(c)) =>
        if info.servletPath !in c.children || !c.children[info.servletPath].WrapperChild? then
          Failure(NotAWrapper)
        else
          var r := WrapperRef(info.contextPath, info.servletPath);
          var host := RemoveWrapper(s.host, r);
          var wrappers := RemoveFirst(s.wrappers, r);
          if OnlyContainerChildren(host[info.contextPath].context) then
            Success(Registry(host - {info.contextPath}, wrappers))
          else
            Success(Registry(host, wrappers))
  }

  /** unregisterWrapper applied to each listed wrapper in order. */
  function RemoveWrappers(host: map<string, HostChild>, refs: seq<WrapperRef>): (h: map<string, HostChild>)
    ensures h.Keys == host.Keys
    ensures forall p :: p in host && host[p].ForeignContext? ==> h[p] == host[p]
    decreases |refs|
  {
    if refs == [] then host else RemoveWrappers(RemoveWrapper(host, refs[0]), refs[1..])
  }

  /** unregisterAll: every listed wrapper is unregistered, then the list is cleared. */
  function UnregisterAll(s: Registry): (r: Registry)
    ensures r.wrappers == []
    ensures r.host.Keys == s.host.Keys
    ensures forall p :: p in s.host && s.host[p].ForeignContext? ==> r.host[p] == s.host[p]
  {
    Registry(RemoveWrappers(s.host, s.wrappers), [])
  }
}
