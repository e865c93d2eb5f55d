/**
 * BasicTomcat7HttpService as a class: the default host's children and the `wrappers` list are
 * fields that its methods update in place. Each method is proved to leave exactly the state
 * the functions of module Registry compute, and to keep Registry.Invariant.
 */
module HttpService {
  import opened Wrappers
  import opened Aliases
  import opened SecurityValve
  // Opened under a second name so that its functions stay reachable where the class's methods
  // of the same name shadow them.
  import opened Table = Registry
  import opened RegistryProperties

  /** The init-parameter copy of registerServlet: every key of the dictionary, with its value. */
  method CopyInitParams(initParams: Option<map<string, string>>) returns (copied: map<string, string>)
    ensures initParams.None? ==> copied == map[]
    ensures initParams.Some? ==> copied == initParams.value
  {
    copied := map[];
    if initParams.Some? {
      var dictionary := initParams.value;
      var keys := dictionary.Keys;
      while keys != {}
        invariant keys <= dictionary.Keys
        invariant copied.Keys == dictionary.Keys - keys
        invariant forall k :: k in copied ==> copied[k] == dictionary[k]
        decreases keys
      {
        var key :| key in keys;
        copied := copied[key := dictionary[key]];
        keys := keys - {key};
      }
      assert copied.Keys == dictionary.Keys;
    }
  }

  class BasicTomcat7HttpService {
    /** The children of the default host, by name. */
    var host: map<string, HostChild>
    /** The wrappers registered through this service, in registration order. */
    var wrappers: seq<WrapperRef>
    /** What the container installs in each context it starts. */
    const template: Template

    ghost predicate Valid()
      reads this
    {
      TemplateOk(template) && Invariant(Registry(host, wrappers))
    }

    constructor (host: map<string, HostChild>, template: Template)
      requires TemplateOk(template)
      ensures Valid()
      ensures this.host == host && wrappers == [] && this.template == template
    {
      this.host := host;
      this.wrappers := [];
      this.template := template;
    }

    /** getStandardContext(aliasInfo, httpContext): finds the context, or creates it and adds it to the host. */
    method GetStandardContext(info: AliasInfo, httpContext: HttpContextRef) returns (r: Result<Context, Error>)
      modifies this
      ensures wrappers == old(wrappers)
      ensures match ContextFor(old(host), info.contextPath, httpContext, template)
        case Success(placed) => r == Success(placed.context) && host == placed.host
        case Failure(e) => r == Failure(e) && host == old(host)
    {
      var found := LookupContext(host, info.contextPath);
      match found
      case Failure(e) =>
        r := Failure(e);
      case Success(None) =>
        var c := NewContext(info.contextPath, httpContext, template);
        host := host[info.contextPath := ServiceContext(c)];
        r := Success(c);
      case Success(Some(c)) =>
        r := Success(c);
    }

    /**
     * The second half of registerServlet: the wrapper is listed, gets the servlet's class loader
     * and a copy of the init parameters, and is added to context `c` with its mapping.
     */
    method InstallWrapper(info: AliasInfo, c: Context, servlet: Servlet, initParams: Option<map<string, string>>,
                          httpContext: HttpContextRef)
      modifies this
      ensures wrappers == old(wrappers) + [WrapperRef(info.contextPath, info.servletPath)]
      ensures host == old(host)[info.contextPath :=
        ServiceContext(AddWrapper(c, info.servletPath, MakeWrapper(servlet, initParams, httpContext)))]
    {
      var wrapper := Wrapper(servlet, map[], servlet.classLoader, HttpContextSecurityValve(httpContext));
      wrappers := wrappers + [WrapperRef(info.contextPath, info.servletPath)];
      var params := CopyInitParams(initParams);
      wrapper := wrapper.(initParams := params);
      var updated := c.(children := c.children[info.servletPath := WrapperChild(wrapper)]);
      host := host[info.contextPath := ServiceContext(updated)];
      updated := updated.(mappings := updated.mappings[Pattern(info.servletPath) := info.servletPath]);
      host := host[info.contextPath := ServiceContext(updated)];
    }

    /** registerServlet. */
    method RegisterServlet(alias: Option<string>, servlet: Servlet, initParams: Option<map<string, string>>,
                           httpContext: HttpContextRef) returns (r: Outcome<Error>)
      requires Valid()
      modifies this
      ensures Valid()
      ensures var spec := Register(old(Registry(host, wrappers)), template, alias, servlet, initParams, httpContext);
        && (spec.Success? ==> r == Pass && Registry(host, wrappers) == spec.value)
        && (spec.Failure? ==> r == Fail(spec.error) && host == old(host) && wrappers == old(wrappers))
    {
      ghost var before := Registry(host, wrappers);
      var parsed := GetAliasInfo(alias);
      if parsed.Failure? {
        return Fail(InvalidAlias(parsed.error));
      }
      var info := parsed.value;
      ghost var placed := ContextFor(host, info.contextPath, httpContext, template);
      var found := GetStandardContext(info, httpContext);
      if found.Failure? {
        return Fail(found.error);
      }
      var c := found.value;
      assert c == placed.value.context && host == placed.value.host;
      if info.servletPath in c.children {
        // a context created just now holds only the template's children, none of which is a servlet path
        assert info.contextPath in before.host;
        return Fail(AliasInUse(info));
      }
      InstallWrapper(info, c, servlet, initParams, httpContext);
      RegisterPreservesInvariant(before, template, alias, servlet, initParams, httpContext);
      r := Pass;
    }

    /** unregisterWrapper: the wrapper's own context loses its mapping and the wrapper. */
    method UnregisterWrapper(ref: WrapperRef)
      modifies this
      ensures host == RemoveWrapper(old(host), ref)
      ensures wrappers == old(wrappers)
    {
      if ref.contextPath in host && host[ref.contextPath].ServiceContext? {
        var c := host[ref.contextPath].context;
        c := c.(mappings := c.mappings - {Pattern(ref.name)});
        c := c.(children := c.children - {ref.name});
        host := host[ref.contextPath := ServiceContext(c)];
      }
    }

    /** unregister. */
    method Unregister(alias: Option<string>) returns (r: Outcome<Error>)
      requires Valid()
      modifies this
      ensures Valid()
      ensures var spec := Table.Unregister(old(Registry(host, wrappers)), alias);
        && (spec.Success? ==> r == Pass && Registry(host, wrappers) == spec.value)
        && (spec.Failure? ==> r == Fail(spec.error) && host == old(host) && wrappers == old(wrappers))
    {
      ghost var before := Registry(host, wrappers);
      var parsed := GetAliasInfo(alias);
      if parsed.Failure? {
        return Fail(InvalidAlias(parsed.error));
      }
      var info := parsed.value;
      var found := LookupContext(host, info.contextPath);
      if found.Failure? {
        return Fail(found.error);
      }
      if found.value.None? {
        return Fail(NotRegistered);
      }
      var c := found.value.value;
      if info.servletPath !in c.children || !c.children[info.servletPath].WrapperChild? {
        return Fail(NotAWrapper);
      }
      var ref := WrapperRef(info.contextPath, info.servletPath);
      UnregisterWrapper(ref);
      wrappers := RemoveFirst(wrappers, ref);
      if OnlyContainerChildren(host[info.contextPath].context) {
        host := host - {info.contextPath};
      }
      UnregisterPreservesInvariant(before, alias);
      r := Pass;
    }

    /** unregisterAll: every listed wrapper is unregistered, then the list is cleared. */
    method UnregisterAll()
      requires Valid()
      modifies this
      ensures Valid()
      ensures Registry(host, wrappers) == Table.UnregisterAll(old(Registry(host, wrappers)))
    {
      var i := 0;
      while i < |wrappers|
        invariant 0 <= i <= |wrappers|
        invariant wrappers == old(wrappers)
        invariant host == RemoveWrappers(old(host), wrappers[..i])
      {
        RemoveWrappersSnoc(old(host), wrappers[..i], wrappers[i]);
        assert wrappers[..i + 1] == wrappers[..i] + [wrappers[i]];
        UnregisterWrapper(wrappers[i]);
        i := i + 1;
      }
      assert wrappers[..i] == wrappers;
      wrappers := [];
    }
  }
}
