/** What registerServlet, unregister and unregisterAll promise, proved on the value model. */
module RegistryProperties {
  import opened Wrappers
  import opened Aliases
  import opened SecurityValve
  import opened Registry

  /** The context a registration lands in, before its wrapper is added. */
  function ContextBefore(s: Registry, t: Template, info: AliasInfo, httpContext: HttpContextRef): Context
    requires info.contextPath in s.host ==> s.host[info.contextPath].ServiceContext?
  {
    if info.contextPath in s.host then s.host[info.contextPath].context
    else NewContext(info.contextPath, httpContext, t)
  }

  /** registerServlet fails exactly on a bad alias, a foreign context, or a servlet path in use. */
  lemma RegisterOutcome(s: Registry, t: Template, alias: Option<string>, servlet: Servlet,
                        initParams: Option<map<string, string>>, httpContext: HttpContextRef)
    requires TemplateOk(t)
    ensures var r := Register(s, t, alias, servlet, initParams, httpContext);
      && (GetAliasInfo(alias).Failure? ==> r == Failure(InvalidAlias(GetAliasInfo(alias).error)))
      && (GetAliasInfo(alias).Success? ==>
            var info := GetAliasInfo(alias).value;
            var path := info.contextPath;
            && (r == Failure(ForeignPath(path)) <==> path in s.host && s.host[path].ForeignContext?)
            && (r == Failure(AliasInUse(info)) <==>
                  path in s.host && s.host[path].ServiceContext? && info.servletPath in s.host[path].context.children)
            && (r.Success? <==>
                  path !in s.host || (s.host[path].ServiceContext? && info.servletPath !in s.host[path].context.children)))
  {
    if GetAliasInfo(alias).Success? {
      var info := GetAliasInfo(alias).value;
      if info.contextPath !in s.host {
        assert IsServletPath(info.servletPath);
        assert info.servletPath !in t.children;
      }
    }
  }

  /**
   * A successful registerServlet appends the new wrapper to the list and adds it, with its
   * servlet, a copy of the init parameters, the servlet's class loader and a security valve bound
   * to the HttpContext, under the servlet path, mapped at servletPath + "/" + "*". Every other
   * context, child and mapping is as before.
   */
  lemma RegisterEffect(s: Registry, t: Template, alias: Option<string>, servlet: Servlet,
                       initParams: Option<map<string, string>>, httpContext: HttpContextRef)
    requires Register(s, t, alias, servlet, initParams, httpContext).Success?
    ensures GetAliasInfo(alias).Success?
    ensures var info := GetAliasInfo(alias).value;
      var path, sp := info.contextPath, info.servletPath;
      var r := Register(s, t, alias, servlet, initParams, httpContext).value;
      && r.wrappers == s.wrappers + [WrapperRef(path, sp)]
      && r.host.Keys == s.host.Keys + {path}
      && (forall p :: p in s.host && p != path ==> r.host[p] == s.host[p])
      && r.host[path].ServiceContext?
      && (path in s.host ==> s.host[path].ServiceContext?)
      && var before := ContextBefore(s, t, info, httpContext);
         var c := r.host[path].context;
         && sp !in before.children
         && sp in c.children
         && c.children[sp] == WrapperChild(Wrapper(servlet, initParams.GetOr(map[]), servlet.classLoader,
                                                   HttpContextSecurityValve(httpContext)))
         && Pattern(sp) in c.mappings && c.mappings[Pattern(sp)] == sp
         && c.children - {sp} == before.children
         && c.mappings - {Pattern(sp)} == before.mappings - {Pattern(sp)}
         && c.path == before.path && c.name == before.name && c.httpContext == before.httpContext
  {
    RegisterShape(s, t, alias, servlet, initParams, httpContext);
    var info := GetAliasInfo(alias).value;
    var path, sp := info.contextPath, info.servletPath;
    var before := ContextBefore(s, t, info, httpContext);
    var c := AddWrapper(before, sp, MakeWrapper(servlet, initParams, httpContext));
    assert c.children - {sp} == before.children;
  }

  /** A successful registerServlet puts the context of the alias, with the wrapper added, on the host. */
  lemma RegisterShape(s: Registry, t: Template, alias: Option<string>, servlet: Servlet,
                      initParams: Option<map<string, string>>, httpContext: HttpContextRef)
    requires Register(s, t, alias, servlet, initParams, httpContext).Success?
    ensures GetAliasInfo(alias).Success?
    ensures var info := GetAliasInfo(alias).value;
      var path, sp := info.contextPath, info.servletPath;
      && (path in s.host ==> s.host[path].ServiceContext?)
      && var before := ContextBefore(s, t, info, httpContext);
         && sp !in before.children
         && Register(s, t, alias, servlet, initParams, httpContext).value ==
              Registry(s.host[path := ServiceContext(AddWrapper(before, sp, MakeWrapper(servlet, initParams, httpContext)))],
                       s.wrappers + [WrapperRef(path, sp)])
  {
    var info := GetAliasInfo(alias).value;
    var path, sp := info.contextPath, info.servletPath;
    var found := ContextFor(s.host, path, httpContext, t);
    assert found.Success?;
    var pl := found.value;
    var c := AddWrapper(pl.context, sp, MakeWrapper(servlet, initParams, httpContext));
    assert Register(s, t, alias, servlet, initParams, httpContext) ==
      Success(Registry(pl.host[path := ServiceContext(c)], s.wrappers + [WrapperRef(path, sp)]));
    assert pl.context == ContextBefore(s, t, info, httpContext);
    assert pl.host[path := ServiceContext(c)] == s.host[path := ServiceContext(c)];
  }

  /** registerServlet keeps every listed wrapper live and listed once. */
  lemma RegisterPreservesInvariant(s: Registry, t: Template, alias: Option<string>, servlet: Servlet,
                                   initParams: Option<map<string, string>>, httpContext: HttpContextRef)
    requires Invariant(s)
    requires Register(s, t, alias, servlet, initParams, httpContext).Success?
    ensures Invariant(Register(s, t, alias, servlet, initParams, httpContext).value)
  {
    var info := GetAliasInfo(alias).value;
    var path, sp := info.contextPath, info.servletPath;
    var r := Register(s, t, alias, servlet, initParams, httpContext).value;
    RegisterEffect(s, t, alias, servlet, initParams, httpContext);
    var added := WrapperRef(path, sp);
    forall i | 0 <= i < |s.wrappers|
      ensures Registered(r.host, s.wrappers[i]) && s.wrappers[i] != added
    {
      var w := s.wrappers[i];
      assert Registered(s.host, w);
      if w.contextPath == path {
        assert w.name != sp;
        if Pattern(w.name) == Pattern(sp) { PatternInjective(w.name, sp); }
        var c := r.host[path].context;
        assert w.name in c.children - {sp};
        assert Pattern(w.name) in c.mappings - {Pattern(sp)};
      }
    }
    assert r.wrappers[|s.wrappers|] == added;
    assert Registered(r.host, added);
  }

  /** Registering the same alias again fails with NamespaceException and leaves the first in place. */
  lemma DuplicateRegistrationFails(s: Registry, t: Template, alias: Option<string>,
                                   first: Servlet, firstParams: Option<map<string, string>>, firstContext: HttpContextRef,
                                   second: Servlet, secondParams: Option<map<string, string>>, secondContext: HttpContextRef)
    requires Register(s, t, alias, first, firstParams, firstContext).Success?
    ensures var r := Register(s, t, alias, first, firstParams, firstContext).value;
      Register(r, t, alias, second, secondParams, secondContext) == Failure(AliasInUse(GetAliasInfo(alias).value))
  {
    RegisterEffect(s, t, alias, first, firstParams, firstContext);
  }

  /** unregister fails exactly on a bad alias, a foreign context, an absent context, or no wrapper at the servlet path. */
  lemma UnregisterOutcome(s: Registry, alias: Option<string>)
    ensures var r := Unregister(s, alias);
      && (GetAliasInfo(alias).Failure? ==> r == Failure(InvalidAlias(GetAliasInfo(alias).error)))
      && (GetAliasInfo(alias).Success? ==>
            var info := GetAliasInfo(alias).value;
            var path, sp := info.contextPath, info.servletPath;
            && (r == Failure(NotRegistered) <==> path !in s.host)
            && (r == Failure(ForeignPath(path)) <==> path in s.host && s.host[path].ForeignContext?)
            && (r == Failure(NotAWrapper) <==>
                  path in s.host && s.host[path].ServiceContext? &&
                  (sp !in s.host[path].context.children || !s.host[path].context.children[sp].WrapperChild?))
            && (r.Success? <==>
                  path in s.host && s.host[path].ServiceContext? &&
                  sp in s.host[path].context.children && s.host[path].context.children[sp].WrapperChild?))
  {
  }

  /** The context left after the wrapper at `sp` and its mapping are removed. */
  function WithoutWrapper(c: Context, sp: string): Context {
    c.(mappings := c.mappings - {Pattern(sp)}, children := c.children - {sp})
  }

  /**
   * A successful unregister drops the wrapper's mapping and the wrapper, removes the first
   * occurrence of the wrapper from the list, and removes the context from the host exactly when
   * only `default` and `jsp` are left in it. Nothing else changes.
   */
  lemma UnregisterEffect(s: Registry, alias: Option<string>)
    requires Unregister(s, alias).Success?
    ensures GetAliasInfo(alias).Success?
    ensures var info := GetAliasInfo(alias).value;
      var path, sp := info.contextPath, info.servletPath;
      var r := Unregister(s, alias).value;
      && path in s.host && s.host[path].ServiceContext?
      && var after := WithoutWrapper(s.host[path].context, sp);
      && r.wrappers == RemoveFirst(s.wrappers, WrapperRef(path, sp))
      && (path in r.host <==> !OnlyContainerChildren(after))
      && (path in r.host ==> r.host[path] == ServiceContext(after))
      && (forall p :: p != path ==> (p in r.host <==> p in s.host))
      && (forall p :: p in s.host && p != path ==> r.host[p] == s.host[p])
  {
  }

  /** unregister keeps every listed wrapper live and listed once, and the unregistered one is gone. */
  lemma UnregisterPreservesInvariant(s: Registry, alias: Option<string>)
    requires Invariant(s)
    requires Unregister(s, alias).Success?
    ensures var info := GetAliasInfo(alias).value;
      var r := Unregister(s, alias).value;
      && Invariant(r)
      && WrapperRef(info.contextPath, info.servletPath) !in r.wrappers
  {
    var info := GetAliasInfo(alias).value;
    var path, sp := info.contextPath, info.servletPath;
    var gone := WrapperRef(path, sp);
    var r := Unregister(s, alias).value;
    UnregisterEffect(s, alias);
    var after := WithoutWrapper(s.host[path].context, sp);
    RemoveFirstKeepsDistinct(s.wrappers, gone);
    forall i | 0 <= i < |r.wrappers|
      ensures Registered(r.host, r.wrappers[i])
    {
      var w := r.wrappers[i];
      assert w in s.wrappers;
      assert w != gone;
      var k :| 0 <= k < |s.wrappers| && s.wrappers[k] == w;
      assert Registered(s.host, w);
      if w.contextPath == path {
        assert w.name != sp;
        assert w.name in after.children;
        if Pattern(w.name) == Pattern(sp) { PatternInjective(w.name, sp); }
        assert Pattern(w.name) in after.mappings;
        if OnlyContainerChildren(after) {
          OnlyContainerChildrenNames(after, w.name);
          assert false;
        }
      }
    }
  }

  /** A context with only the container's children holds no other name. */
  lemma OnlyContainerChildrenNames(c: Context, n: string)
    requires OnlyContainerChildren(c) && n in c.children
    ensures n == "default" || n == "jsp"
  {
    if n != "default" && n != "jsp" {
      var names := {"default", "jsp", n};
      assert names <= c.children.Keys;
      assert "default" != "jsp";
      assert |names| == 3;
      CardinalityOfSubset(names, c.children.Keys);
      assert false;
    }
  }

  /** Removing one element of a list without repeats leaves it without repeats and without that element. */
  lemma {:induction false} RemoveFirstKeepsDistinct<T>(s: seq<T>, x: T)
    requires forall i, j :: 0 <= i < j < |s| ==> s[i] != s[j]
    ensures var r := RemoveFirst(s, x);
      && x !in r
      && (forall i, j :: 0 <= i < j < |r| ==> r[i] != r[j])
    decreases |s|
  {
    if s != [] {
      RemoveFirstKeepsDistinct(s[1..], x);
      if s[0] == x {
        assert x !in s[1..];
      } else {
        var r := RemoveFirst(s, x);
        assert r == [s[0]] + RemoveFirst(s[1..], x);
        assert s[0] !in s[1..];
        assert s[0] !in RemoveFirst(s[1..], x);
      }
    }
  }

  /** Removing the element just appended gives the list back. */
  lemma {:induction false} RemoveFirstOfAppended<T>(s: seq<T>, x: T)
    requires x !in s
    ensures RemoveFirst(s + [x], x) == s
    decreases |s|
  {
    if s == [] {
      assert s + [x] == [x];
    } else {
      assert (s + [x])[0] == s[0];
      assert (s + [x])[1..] == s[1..] + [x];
      RemoveFirstOfAppended(s[1..], x);
      assert s == [s[0]] + s[1..];
    }
  }

  /**
   * registerServlet followed by unregister of the same alias gives the wrappers list back, and the
   * host as before except that the context is gone when it was left with only `default` and `jsp`,
   * and that a mapping the registration overwrote at its pattern is not restored.
   */
  lemma RegisterThenUnregister(s: Registry, t: Template, alias: Option<string>, servlet: Servlet,
                               initParams: Option<map<string, string>>, httpContext: HttpContextRef)
    requires Invariant(s)
    requires Register(s, t, alias, servlet, initParams, httpContext).Success?
    ensures var r := Register(s, t, alias, servlet, initParams, httpContext).value;
      Unregister(r, alias).Success?
    ensures var r := Register(s, t, alias, servlet, initParams, httpContext).value;
      var info := GetAliasInfo(alias).value;
      var path, sp := info.contextPath, info.servletPath;
      var before := ContextBefore(s, t, info, httpContext);
      var back := Unregister(r, alias).value;
      && back.wrappers == s.wrappers
      && (OnlyContainerChildren(before) ==> back.host == s.host - {path})
      && (!OnlyContainerChildren(before) ==>
            back.host == s.host[path := ServiceContext(before.(mappings := before.mappings - {Pattern(sp)}))])
  {
    var r := Register(s, t, alias, servlet, initParams, httpContext).value;
    RegisterEffect(s, t, alias, servlet, initParams, httpContext);
    var info := GetAliasInfo(alias).value;
    var path, sp := info.contextPath, info.servletPath;
    var before := ContextBefore(s, t, info, httpContext);
    var ref := WrapperRef(path, sp);
    NewWrapperNotListed(s, ref, before);
    RemoveFirstOfAppended(s.wrappers, ref);
    UnregisterOutcome(r, alias);
    UnregisterEffect(r, alias);
    var back := Unregister(r, alias).value;
    var c := r.host[path].context;
    var restored := before.(mappings := before.mappings - {Pattern(sp)});
    UndoAddedWrapper(before, c, sp);
    HostAfterRoundTrip(s.host, r.host, back.host, path, restored, OnlyContainerChildren(before));
  }

  /** The host after a registration and its unregistration, from the two frames. */
  lemma HostAfterRoundTrip(host: map<string, HostChild>, registered: map<string, HostChild>,
                           back: map<string, HostChild>, path: string, restored: Context, tornDown: bool)
    requires registered.Keys == host.Keys + {path}
    requires forall p :: p in host && p != path ==> registered[p] == host[p]
    requires forall p :: p != path ==> (p in back <==> p in registered)
    requires forall p :: p in registered && p != path ==> back[p] == registered[p]
    requires path in back <==> !tornDown
    requires path in back ==> back[path] == ServiceContext(restored)
    ensures tornDown ==> back == host - {path}
    ensures !tornDown ==> back == host[path := ServiceContext(restored)]
  {
    if tornDown {
      assert back.Keys == (host - {path}).Keys;
    } else {
      assert back.Keys == host[path := ServiceContext(restored)].Keys;
    }
  }

  /** A wrapper whose name is not a child of its context is not listed. */
  lemma NewWrapperNotListed(s: Registry, ref: WrapperRef, before: Context)
    requires Invariant(s)
    requires ref.contextPath in s.host ==> s.host[ref.contextPath] == ServiceContext(before)
    requires ref.name !in before.children
    ensures ref !in s.wrappers
  {
  }

  /** Removing the added wrapper and its mapping gives the context back, less any mapping overwritten. */
  lemma UndoAddedWrapper(before: Context, c: Context, sp: string)
    requires sp !in before.children
    requires c.children - {sp} == before.children
    requires c.mappings - {Pattern(sp)} == before.mappings - {Pattern(sp)}
    requires c.path == before.path && c.name == before.name && c.httpContext == before.httpContext
    ensures WithoutWrapper(c, sp) == before.(mappings := before.mappings - {Pattern(sp)})
  {
  }

  /**
   * A registration that created its context, whose template holds just the container's `default`
   * and `jsp`, is undone completely by unregister: the context created for it is removed.
   */
  lemma FreshContextRoundTrip(s: Registry, t: Template, alias: Option<string>, servlet: Servlet,
                              initParams: Option<map<string, string>>, httpContext: HttpContextRef)
    requires Invariant(s)
    requires GetAliasInfo(alias).Success?
    requires GetAliasInfo(alias).value.contextPath !in s.host
    requires |t.children| == 2 && "default" in t.children && "jsp" in t.children
    requires Register(s, t, alias, servlet, initParams, httpContext).Success?
    ensures Unregister(Register(s, t, alias, servlet, initParams, httpContext).value, alias) == Success(s)
  {
    RegisterThenUnregister(s, t, alias, servlet, initParams, httpContext);
    var path := GetAliasInfo(alias).value.contextPath;
    assert s.host - {path} == s.host;
  }

  /**
   * A registration into a context that holds other registrations, at a pattern nothing was mapped
   * at, is undone completely by unregister.
   */
  lemma SharedContextRoundTrip(s: Registry, t: Template, alias: Option<string>, servlet: Servlet,
                               initParams: Option<map<string, string>>, httpContext: HttpContextRef)
    requires Invariant(s)
    requires GetAliasInfo(alias).Success?
    requires var path := GetAliasInfo(alias).value.contextPath;
      && path in s.host && s.host[path].ServiceContext?
      && !OnlyContainerChildren(s.host[path].context)
      && Pattern(GetAliasInfo(alias).value.servletPath) !in s.host[path].context.mappings
    requires Register(s, t, alias, servlet, initParams, httpContext).Success?
    ensures Unregister(Register(s, t, alias, servlet, initParams, httpContext).value, alias) == Success(s)
  {
    RegisterThenUnregister(s, t, alias, servlet, initParams, httpContext);
    var info := GetAliasInfo(alias).value;
    var c := s.host[info.contextPath].context;
    assert c.mappings - {Pattern(info.servletPath)} == c.mappings;
    assert c.(mappings := c.mappings - {Pattern(info.servletPath)}) == c;
    assert s.host[info.contextPath := ServiceContext(c)] == s.host;
  }

  /** The names of the listed wrappers of the context at `p`. */
  function NamesAt(refs: seq<WrapperRef>, p: string): set<string> {
    set r | r in refs && r.contextPath == p :: r.name
  }

  /** The mapping patterns of the listed wrappers of the context at `p`. */
  function PatternsAt(refs: seq<WrapperRef>, p: string): set<string> {
    set r | r in refs && r.contextPath == p :: Pattern(r.name)
  }

  /** A host child with the listed wrappers and their mappings removed. */
  function Stripped(hc: HostChild, refs: seq<WrapperRef>, p: string): HostChild {
    match hc
    case ForeignContext => ForeignContext
    case ServiceContext(c) =>
      ServiceContext(c.(children := c.children - NamesAt(refs, p), mappings := c.mappings - PatternsAt(refs, p)))
  }

  lemma StrippedStep(hc: HostChild, refs: seq<WrapperRef>, p: string)
    requires refs != []
    ensures Stripped(RemoveWrapper(map[p := hc], refs[0])[p], refs[1..], p) == Stripped(hc, refs, p)
  {
    var r0 := refs[0];
    assert refs == [r0] + refs[1..];
    assert NamesAt(refs, p) == NamesAt(refs[1..], p) + (if r0.contextPath == p then {r0.name} else {});
    assert PatternsAt(refs, p) == PatternsAt(refs[1..], p) + (if r0.contextPath == p then {Pattern(r0.name)} else {});
    if hc.ServiceContext? && r0.contextPath == p {
      var c := hc.context;
      assert (c.children - {r0.name}) - NamesAt(refs[1..], p) == c.children - NamesAt(refs, p);
      assert (c.mappings - {Pattern(r0.name)}) - PatternsAt(refs[1..], p) == c.mappings - PatternsAt(refs, p);
    }
  }

  /**
   * unregisterWrapper over a list removes from each context exactly the listed wrappers and their
   * mappings, tears down no context, and leaves foreign contexts alone.
   */
  lemma {:induction false} RemoveWrappersEffect(host: map<string, HostChild>, refs: seq<WrapperRef>)
    ensures RemoveWrappers(host, refs).Keys == host.Keys
    ensures forall p :: p in host ==> RemoveWrappers(host, refs)[p] == Stripped(host[p], refs, p)
    decreases |refs|
  {
    if refs == [] {
      forall p | p in host ensures RemoveWrappers(host, refs)[p] == Stripped(host[p], refs, p) {
        if host[p].ServiceContext? {
          var c := host[p].context;
          assert c.children - NamesAt(refs, p) == c.children;
          assert c.mappings - PatternsAt(refs, p) == c.mappings;
        }
      }
    } else {
      var h1 := RemoveWrapper(host, refs[0]);
      RemoveWrappersEffect(h1, refs[1..]);
      forall p | p in host ensures RemoveWrappers(host, refs)[p] == Stripped(host[p], refs, p) {
        StrippedStep(host[p], refs, p);
        assert h1[p] == RemoveWrapper(map[p := host[p]], refs[0])[p];
      }
    }
  }

  /**
   * After unregisterAll the list is empty, the host holds the same contexts, and no wrapper that
   * was listed is a child of its context or mapped there any more.
   */
  lemma UnregisterAllRemovesEveryWrapper(s: Registry)
    requires Invariant(s)
    ensures var r := UnregisterAll(s);
      && r.wrappers == []
      && Invariant(r)
      && r.host.Keys == s.host.Keys
      && (forall i :: 0 <= i < |s.wrappers| ==>
            var w := s.wrappers[i];
            && r.host[w.contextPath].ServiceContext?
            && w.name !in r.host[w.contextPath].context.children
            && Pattern(w.name) !in r.host[w.contextPath].context.mappings)
  {
    RemoveWrappersEffect(s.host, s.wrappers);
    var r := UnregisterAll(s);
    forall i | 0 <= i < |s.wrappers|
      ensures var w := s.wrappers[i];
        && r.host[w.contextPath].ServiceContext?
        && w.name !in r.host[w.contextPath].context.children
        && Pattern(w.name) !in r.host[w.contextPath].context.mappings
    {
      var w := s.wrappers[i];
      assert Registered(s.host, w);
      assert w.name in NamesAt(s.wrappers, w.contextPath);
      assert Pattern(w.name) in PatternsAt(s.wrappers, w.contextPath);
    }
  }

  /** unregisterWrapper over a list, one element more at the end. */
  lemma {:induction false} RemoveWrappersSnoc(host: map<string, HostChild>, refs: seq<WrapperRef>, r: WrapperRef)
    ensures RemoveWrappers(host, refs + [r]) == RemoveWrapper(RemoveWrappers(host, refs), r)
    decreases |refs|
  {
    if refs == [] {
      assert refs + [r] == [r];
    } else {
      assert (refs + [r])[1..] == refs[1..] + [r];
      RemoveWrappersSnoc(RemoveWrapper(host, refs[0]), refs[1..], r);
    }
  }
}
