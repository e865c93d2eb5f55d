# Peergreen Tomcat 7 web container: the OSGi HttpService registry, in Dafny

This project models the core of Peergreen's Tomcat 7 web container and proves properties of the model.
The core is the OSGi HttpService implementation `BasicTomcat7HttpService`. It turns an alias such as
`/mycontext/myPath` into a Tomcat context (`/mycontext`) plus a wrapper named after the servlet path
(`/myPath`), mapped at the servlet path followed by `/*`. It records each wrapper in a shared list, takes
the wrappers down again on unregister, and removes a context once only the container's `default` and
`jsp` servlets are left in it.

Around the registry sit these smaller rules:

- the security valve placed in front of every servlet;
- the servlet that serves HttpContext resources;
- the context class that lists its URIs and forces Peergreen's class loader;
- host selection among the server's services;
- the table update made when a ServletContainerInitializer is added;
- the account-store realm.

Modules, one per source file, plus helpers:

- `Wrappers`: Option, Result and Outcome.
- `Strings`: prefix and suffix tests, `indexOf`, and `String.valueOf(int)` with its inverse.
- `Aliases`: `getAliasInfo`.
- `SecurityValve`: `HttpContextSecurityValve.invoke`, as the trace of calls it makes.
- `Registry`: the registry on values. The default host is a map from context path to context. A context
  holds its children (by name) and its servlet mappings (pattern to wrapper name). The `wrappers` list is a
  sequence of (context path, wrapper name) references. `Register`, `Unregister` and `UnregisterAll` are
  the specification functions of the three operations.
- `RegistryProperties`: what those operations promise, proved on the value model. This includes the
  registry invariant: every listed wrapper is live, mapped at its pattern, and listed once.
- `HttpService`: the class `BasicTomcat7HttpService`. Its methods update the host and the list in place,
  as the source does (including the init-parameter loop and the `unregisterAll` loop). Each method is
  proved to leave exactly the state the `Registry` function computes, and to keep the invariant.
- `ResourceServlet`: `WrappingResourceInServlet.doGet`/`doPost`, with the 4096-byte copy loop over an
  array buffer.
- `StandardContext`: the `PeergreenStandardContext` under `impl/`.
- `HostSelection`: `PeergreenTomcat7Service.getHost` and `getDefaultHost`.
- `ContextConfig`: `PeergreenContextConfig.addServletContainerInitializer`.
- `Realm`: `AccountStoreRealm`.

Java's `null` is `None`. Each exception the source throws is a `Failure` value that names it.

The container's own children of a freshly created context are the Tomcat `default` and `jsp` servlets.
Tomcat installs them from the global web.xml. Here they are the `Template` given to the service's
constructor. `TemplateOk` states the one thing the proofs need about them: their names are not servlet
paths.

## Model

| member | source | states |
|---|---|---|
| Aliases.GetAliasInfo | src/main/java/com/peergreen/webcontainer/tomcat7/internal/httpservice/BasicTomcat7HttpService.java:177-206 | A null alias, an alias without a leading `/`, and an alias other than `/` that ends with `/` are refused with NullAlias, NoLeadingSlash and TrailingSlash respectively. Any other alias is accepted. The result joins back to the alias. The context path is `/` followed by no further `/`. The servlet path is empty, or starts with `/` and does not end with one. |
| Aliases.SplitAtFirstSlash | src/main/java/com/peergreen/webcontainer/tomcat7/internal/httpservice/BasicTomcat7HttpService.java:201-205 | The split is at the first `/` after index 0. The servlet path is empty exactly when there is no such `/`. |
| Aliases.JoinRoundTrip | src/main/java/com/peergreen/webcontainer/tomcat7/internal/httpservice/BasicTomcat7HttpService.java:177-206 | Parsing the concatenation of a well-formed context path and servlet path gives back that same pair. |
| Aliases.RootAliasExample | src/test/java/com/peergreen/webcontainer/tomcat7/internal/httpservice/TestHttpServiceAliases.java:43-47 | `/` splits into (`/`, empty). |
| Aliases.OneSegmentExample | src/test/java/com/peergreen/webcontainer/tomcat7/internal/httpservice/TestHttpServiceAliases.java:52-54 | `/toto` splits into (`/toto`, empty). |
| Aliases.ThreeSegmentExample | src/test/java/com/peergreen/webcontainer/tomcat7/internal/httpservice/TestHttpServiceAliases.java:60-62 | `/my/name/space` splits into (`/my`, `/name/space`). |
| Aliases.NoLeadingSlashExample | src/test/java/com/peergreen/webcontainer/tomcat7/internal/httpservice/TestHttpServiceAliases.java:66-69 | `myContext/entry` is refused for lacking a leading slash. |
| Aliases.TrailingSlashExample | src/test/java/com/peergreen/webcontainer/tomcat7/internal/httpservice/TestHttpServiceAliases.java:71-74 | `/myContext/entry/` is refused for its trailing slash. |
| SecurityValve.Invoke | src/main/java/com/peergreen/webcontainer/tomcat7/internal/httpservice/HttpContextSecurityValve.java:51-60 | `handleSecurity` is asked first, with the valve's own HttpContext. The next valve is then called once, with the same request and response, exactly when it answered true. |
| SecurityValve.InvokeAllCounts | src/main/java/com/peergreen/webcontainer/tomcat7/internal/httpservice/HttpContextSecurityValve.java:51-60 | Over any series of requests, security is checked once per request. The next valve runs exactly as often as requests were admitted. |
| SecurityValve.RefusingContextBlocksAll | src/main/java/com/peergreen/webcontainer/tomcat7/internal/httpservice/HttpContextSecurityValve.java:54-56 | An HttpContext that refuses everything lets no request reach the next valve. |
| Registry.LookupContext | src/main/java/com/peergreen/webcontainer/tomcat7/internal/httpservice/BasicTomcat7HttpService.java:105-125 | One-argument `getStandardContext`: null when the path is free, the context when it is one of this service's, an IllegalArgumentException otherwise. |
| Registry.ContextFor | src/main/java/com/peergreen/webcontainer/tomcat7/internal/httpservice/BasicTomcat7HttpService.java:135-170 | Two-argument `getStandardContext`: fails only on a foreign context. A missing context is created with path = name = context path, the given HttpContext and the container's children, then added to the host. An existing context is returned with the host unchanged. |
| Registry.Register | src/main/java/com/peergreen/webcontainer/tomcat7/internal/httpservice/BasicTomcat7HttpService.java:212-289 | A bad alias fails with its alias error. On success the alias was valid, its reference is appended to the list, and the host gains the context path if it lacked it and no other key. |
| Registry.RemoveWrapper | src/main/java/com/peergreen/webcontainer/tomcat7/internal/httpservice/BasicTomcat7HttpService.java:351-366 | Only the wrapper's own context changes, and only when it is a context of this service. It loses the wrapper's child name and its pattern, and keeps its path, name and HttpContext. The host's keys stay the same. |
| Registry.Unregister | src/main/java/com/peergreen/webcontainer/tomcat7/internal/httpservice/BasicTomcat7HttpService.java:296-329 | A bad alias fails with its alias error. On success the first occurrence of the alias's reference leaves the list. The host loses at most the alias's context and gains nothing. |
| Registry.RemoveWrappers | src/main/java/com/peergreen/webcontainer/tomcat7/internal/httpservice/BasicTomcat7HttpService.java:338-340 | A series of `unregisterWrapper` calls keeps the host's keys and leaves foreign contexts as they are. |
| Registry.UnregisterAll | src/main/java/com/peergreen/webcontainer/tomcat7/internal/httpservice/BasicTomcat7HttpService.java:335-345 | The list ends empty. The host keeps every key, and foreign contexts are unchanged. |
| Registry.RemoveFirst | src/main/java/com/peergreen/webcontainer/tomcat7/internal/httpservice/BasicTomcat7HttpService.java:319 | `List.remove`: an absent element changes nothing. Otherwise exactly one occurrence goes (as a multiset) and nothing new appears. |
| Registry.PatternInjective | src/main/java/com/peergreen/webcontainer/tomcat7/internal/httpservice/BasicTomcat7HttpService.java:289 | Distinct servlet paths have distinct mapping patterns. |
| RegistryProperties.RegisterOutcome | src/main/java/com/peergreen/webcontainer/tomcat7/internal/httpservice/BasicTomcat7HttpService.java:212-246 | Of the failures this model covers, `registerServlet` fails exactly on a bad alias, on a foreign context, or on a context already holding a child named by the servlet path. Servlet init and endpoint URIs are taken to succeed (see Left out). |
| RegistryProperties.RegisterEffect | src/main/java/com/peergreen/webcontainer/tomcat7/internal/httpservice/BasicTomcat7HttpService.java:249-289 | On success, the wrapper is appended to the list. It is added under the servlet path with the servlet, a copy of the init parameters, the servlet's class loader and a security valve bound to the HttpContext. It is mapped at its pattern. Every other context, child and mapping is unchanged. |
| RegistryProperties.RegisterShape | src/main/java/com/peergreen/webcontainer/tomcat7/internal/httpservice/BasicTomcat7HttpService.java:212-289 | On success, the new host is the old one with the alias's context, wrapper added, stored at the context path. |
| RegistryProperties.RegisterPreservesInvariant | src/main/java/com/peergreen/webcontainer/tomcat7/internal/httpservice/BasicTomcat7HttpService.java:249-289 | `registerServlet` keeps every listed wrapper live, mapped and listed once. |
| RegistryProperties.DuplicateRegistrationFails | src/main/java/com/peergreen/webcontainer/tomcat7/internal/httpservice/BasicTomcat7HttpService.java:243-246 | Registering an alias a second time fails with NamespaceException. The first registration stays. |
| RegistryProperties.UnregisterOutcome | src/main/java/com/peergreen/webcontainer/tomcat7/internal/httpservice/BasicTomcat7HttpService.java:296-315 | `unregister` fails exactly on a bad alias, a foreign context, an absent context, or a servlet path that names no wrapper. |
| RegistryProperties.UnregisterEffect | src/main/java/com/peergreen/webcontainer/tomcat7/internal/httpservice/BasicTomcat7HttpService.java:316-325 | On success, the mapping and the wrapper leave the context and the wrapper's first occurrence leaves the list. The context leaves the host exactly when only `default` and `jsp` remain. Every other context is unchanged. |
| RegistryProperties.UnregisterPreservesInvariant | src/main/java/com/peergreen/webcontainer/tomcat7/internal/httpservice/BasicTomcat7HttpService.java:296-329 | `unregister` keeps the invariant, and the unregistered wrapper is no longer listed. |
| RegistryProperties.RegisterThenUnregister | src/main/java/com/peergreen/webcontainer/tomcat7/internal/httpservice/BasicTomcat7HttpService.java:212-329 | Unregistering what was just registered restores the list. How the host is restored depends on the context: a context left with only the container's children is removed; otherwise it only loses the new mapping. |
| RegistryProperties.FreshContextRoundTrip | src/main/java/com/peergreen/webcontainer/tomcat7/internal/httpservice/BasicTomcat7HttpService.java:135-170 | Registering into a new context and unregistering gives back exactly the original registry. |
| RegistryProperties.SharedContextRoundTrip | src/main/java/com/peergreen/webcontainer/tomcat7/internal/httpservice/BasicTomcat7HttpService.java:296-329 | In a context with other servlets, where the pattern was unmapped, a register/unregister pair gives back exactly the original registry. |
| RegistryProperties.StrippedStep | src/main/java/com/peergreen/webcontainer/tomcat7/internal/httpservice/BasicTomcat7HttpService.java:351-366 | One more `unregisterWrapper` removes one more name and pattern from the context it names, and only from it. |
| RegistryProperties.RemoveWrappersEffect | src/main/java/com/peergreen/webcontainer/tomcat7/internal/httpservice/BasicTomcat7HttpService.java:335-345 | After `unregisterWrapper` on each listed wrapper, every context has lost exactly the listed names and patterns. No context is added or removed. |
| RegistryProperties.UnregisterAllRemovesEveryWrapper | src/main/java/com/peergreen/webcontainer/tomcat7/internal/httpservice/BasicTomcat7HttpService.java:335-345 | `unregisterAll` empties the list and removes every listed wrapper and its mapping. It removes no context, even one left with only the container's children. |
| RegistryProperties.RemoveWrappersSnoc | src/main/java/com/peergreen/webcontainer/tomcat7/internal/httpservice/BasicTomcat7HttpService.java:338-340 | Unregistering one more wrapper at the end of the loop is one more `unregisterWrapper`. |
| HttpService.CopyInitParams | src/main/java/com/peergreen/webcontainer/tomcat7/internal/httpservice/BasicTomcat7HttpService.java:271-278 | The enumeration loop copies every key with its value. A null dictionary copies nothing. |
| HttpService.BasicTomcat7HttpService.GetStandardContext | src/main/java/com/peergreen/webcontainer/tomcat7/internal/httpservice/BasicTomcat7HttpService.java:135-170 | The host ends as `ContextFor` says. The list is unchanged. |
| HttpService.BasicTomcat7HttpService.InstallWrapper | src/main/java/com/peergreen/webcontainer/tomcat7/internal/httpservice/BasicTomcat7HttpService.java:249-289 | The wrapper is appended to the list and installed with its mapping, as `AddWrapper` describes. |
| HttpService.BasicTomcat7HttpService.RegisterServlet | src/main/java/com/peergreen/webcontainer/tomcat7/internal/httpservice/BasicTomcat7HttpService.java:212-289 | The new state is `Register` of the old state on success. On the failures this model covers, the state is unchanged. The invariant is kept. |
| HttpService.BasicTomcat7HttpService.UnregisterWrapper | src/main/java/com/peergreen/webcontainer/tomcat7/internal/httpservice/BasicTomcat7HttpService.java:351-366 | The wrapper's context loses the mapping and the child. Nothing else changes. |
| HttpService.BasicTomcat7HttpService.Unregister | src/main/java/com/peergreen/webcontainer/tomcat7/internal/httpservice/BasicTomcat7HttpService.java:296-329 | The new state is `Unregister` of the old state on success; on failure the state is unchanged. The invariant is kept. |
| HttpService.BasicTomcat7HttpService.UnregisterAll | src/main/java/com/peergreen/webcontainer/tomcat7/internal/httpservice/BasicTomcat7HttpService.java:335-345 | The loop leaves exactly `UnregisterAll` of the old state, and the invariant is kept. |
| ResourceServlet.RequestedName | src/main/java/com/peergreen/webcontainer/tomcat7/internal/httpservice/WrappingResourceInServlet.java:104-109 | Null path info is the empty name. A leading `/` is dropped, only that one. Others are kept as they are. |
| ResourceServlet.ResourcePath | src/main/java/com/peergreen/webcontainer/tomcat7/internal/httpservice/WrappingResourceInServlet.java:111 | The looked-up path is the servlet's name, one `/`, then the requested name. |
| ResourceServlet.OnlyOneSlashStripped | src/main/java/com/peergreen/webcontainer/tomcat7/internal/httpservice/WrappingResourceInServlet.java:104-109 | Any path info starting with `/`, including `//a`, loses that one slash and nothing else. |
| ResourceServlet.ResourcePathExample | src/main/java/com/peergreen/webcontainer/tomcat7/internal/httpservice/WrappingResourceInServlet.java:111 | The servlet named `/files` looks up `/files/img/a.png` for path info `/img/a.png`. |
| ResourceServlet.Serve | src/main/java/com/peergreen/webcontainer/tomcat7/internal/httpservice/WrappingResourceInServlet.java:113-148 | 404 exactly when the context has no resource. Otherwise the connection's encoding, type and length are reported. The body is the resource's bytes unless the length is negative, when it is empty. |
| ResourceServlet.InputStream.Read | src/main/java/com/peergreen/webcontainer/tomcat7/internal/httpservice/WrappingResourceInServlet.java:143 | -1 only at end of stream. Otherwise between 1 and len bytes, taken in order from the read position and placed at the offset. |
| ResourceServlet.CopyStream | src/main/java/com/peergreen/webcontainer/tomcat7/internal/httpservice/WrappingResourceInServlet.java:139-147 | The copy loop writes every byte of the stream to the output, in order and unchanged, in chunks of 1 to 4096 bytes, and stops at end of stream. |
| ResourceServlet.WrappingResourceInServlet.DoGet | src/main/java/com/peergreen/webcontainer/tomcat7/internal/httpservice/WrappingResourceInServlet.java:103-149 | The response ends as `Serve` says. A 404 touches nothing else. The body is written through the bounded chunks. |
| ResourceServlet.WrappingResourceInServlet.DoPost | src/main/java/com/peergreen/webcontainer/tomcat7/internal/httpservice/WrappingResourceInServlet.java:195-198 | Same contract as `DoGet`. |
| StandardContext.PeergreenStandardContext.constructor | impl/src/main/java/com/peergreen/webcontainer/tomcat7/internal/core/PeergreenStandardContext.java:39-41 | A new context delegates class loading to its parent first (`delegate` is true), and has no loader and no parent host yet. |
| StandardContext.PeergreenStandardContext.SetLoader | impl/src/main/java/com/peergreen/webcontainer/tomcat7/internal/core/PeergreenStandardContext.java:49-55 | A WebappLoader gets `PeergreenWebAppClassLoader` as its loader class, and any loader is then stored. Nothing else changes. |
| StandardContext.UriHost | impl/src/main/java/com/peergreen/webcontainer/tomcat7/internal/core/PeergreenStandardContext.java:67-70 | The proxy name when set, else the host's name. |
| StandardContext.UriPort | impl/src/main/java/com/peergreen/webcontainer/tomcat7/internal/core/PeergreenStandardContext.java:71-74 | The proxy port when non-zero, else the connector's port. |
| StandardContext.BuildUri | impl/src/main/java/com/peergreen/webcontainer/tomcat7/internal/core/PeergreenStandardContext.java:67-76 | One loop iteration builds `scheme://host:port` followed by the context path. |
| StandardContext.ConnectorUriParts | impl/src/main/java/com/peergreen/webcontainer/tomcat7/internal/core/PeergreenStandardContext.java:67-76 | A connector's URI starts with the scheme, `://`, the URI host and `:`. It ends with the context path. The text between them reads back as the port in use. |
| StandardContext.HostUris | impl/src/main/java/com/peergreen/webcontainer/tomcat7/internal/core/PeergreenStandardContext.java:63-83 | One URI per connector, in connector order. |
| StandardContext.CheckUris | impl/src/main/java/com/peergreen/webcontainer/tomcat7/internal/core/PeergreenStandardContext.java:77-81 | The URIs come back when `java.net.URI` accepts all of them. Otherwise the first one refused is reported. |
| StandardContext.FirstRefusedUri | impl/src/main/java/com/peergreen/webcontainer/tomcat7/internal/core/PeergreenStandardContext.java:77-81 | The first refused URI is the one reported. |
| StandardContext.ListUris | impl/src/main/java/com/peergreen/webcontainer/tomcat7/internal/core/PeergreenStandardContext.java:63-83 | The connector loop gives exactly `CheckUris` of `HostUris`. |
| StandardContext.PeergreenStandardContext.GetContextURIs | impl/src/main/java/com/peergreen/webcontainer/tomcat7/internal/core/PeergreenStandardContext.java:59-84 | Fails with IllegalStateException without a parent host. Otherwise one URI per connector, in order, or the first refused URI. |
| StandardContext.PlainConnectorUri | impl/src/main/java/com/peergreen/webcontainer/tomcat7/internal/core/PeergreenStandardContext.java:67-76 | A connector without proxy settings gives `http://h:80/c`. |
| StandardContext.ProxiedConnectorUri | impl/src/main/java/com/peergreen/webcontainer/tomcat7/internal/core/PeergreenStandardContext.java:67-76 | A proxy name and a proxy port replace the host's name and the connector's port. |
| HostSelection.HostNamed | src/main/java/com/peergreen/webcontainer/tomcat7/internal/PeergreenTomcat7Service.java:265-267 | `findChild` as a Host: present exactly when that child exists and is a Host. |
| HostSelection.MatchingHosts | src/main/java/com/peergreen/webcontainer/tomcat7/internal/PeergreenTomcat7Service.java:274-285 | The named scan fails exactly when some service's container is not an engine. Otherwise it finds none exactly when no engine has such a host, and its first match is the host of the first service that has one. |
| HostSelection.SelectHost | src/main/java/com/peergreen/webcontainer/tomcat7/internal/PeergreenTomcat7Service.java:241-295 | No service exactly when the result is "no service". With a null or empty name: a first service without an engine gives NotAnEngine; a missing default host name, or a default name that is no Host child, gives NoDefaultHost; otherwise that child is returned. With a name: a found host is an engine's host of that name, and when every service is an engine and one has such a host, a host is found. |
| HostSelection.GetHost | src/main/java/com/peergreen/webcontainer/tomcat7/internal/PeergreenTomcat7Service.java:241-295 | The loop returns exactly `SelectHost`. |
| HostSelection.GetDefaultHost | src/main/java/com/peergreen/webcontainer/tomcat7/internal/PeergreenTomcat7Service.java:231-233 | Same as `getHost(null)`. |
| HostSelection.NamedLookupNeedsEveryEngine | src/main/java/com/peergreen/webcontainer/tomcat7/internal/PeergreenTomcat7Service.java:275-279 | A non-engine service anywhere makes a named lookup fail, even after an earlier match. |
| HostSelection.NamedLookupFindsFirst | src/main/java/com/peergreen/webcontainer/tomcat7/internal/PeergreenTomcat7Service.java:288-294 | When every service is an engine and one has a host of that name, the named lookup succeeds, with the host of the first such service in service order. |
| HostSelection.NoMatchOnlyWhenNoHost | src/main/java/com/peergreen/webcontainer/tomcat7/internal/PeergreenTomcat7Service.java:288-291 | "No matching host" exactly when every service is an engine without that host. |
| HostSelection.EmptyNameIsDefault | src/main/java/com/peergreen/webcontainer/tomcat7/internal/PeergreenTomcat7Service.java:251 | The empty name behaves as null. |
| ContextConfig.AddToTypes | src/main/java/com/peergreen/webcontainer/tomcat7/internal/core/PeergreenContextConfig.java:62-68 | Each declared type ends with `sci` added to its set. A missing set is created. Other types and existing members are kept. |
| ContextConfig.PeergreenContextConfig.RecordType | src/main/java/com/peergreen/webcontainer/tomcat7/internal/core/PeergreenContextConfig.java:56-68 | One loop iteration raises the flag for the type's kind and adds `sci` to the type's set. |
| ContextConfig.PeergreenContextConfig.AddServletContainerInitializer | src/main/java/com/peergreen/webcontainer/tomcat7/internal/core/PeergreenContextConfig.java:48-73 | `initializerClassMap[sci]` becomes empty. The type table becomes `AddToTypes` of the declared types. Each flag becomes true when some declared type is of its kind, and never goes back to false. |
| ContextConfig.AddToTypesIdempotent | src/main/java/com/peergreen/webcontainer/tomcat7/internal/core/PeergreenContextConfig.java:62-68 | Adding the same initializer again leaves the type table as it is. |
| ContextConfig.AddToTypesKeepsMembers | src/main/java/com/peergreen/webcontainer/tomcat7/internal/core/PeergreenContextConfig.java:62-68 | Existing members of a type's set are kept. |
| ContextConfig.NoDeclaredTypesNoChange | src/main/java/com/peergreen/webcontainer/tomcat7/internal/core/PeergreenContextConfig.java:51-55 | Without the annotation, or with a null value, neither the type table nor the flags change. |
| Realm.AccountStoreRealm.constructor | impl/src/main/java/com/peergreen/webcontainer/tomcat7/internal/realm/AccountStoreRealm.java:50-53 | A new realm has no authenticator, no store, no filters, and a null store name. |
| Realm.AccountStoreRealm.SetStoreName | impl/src/main/java/com/peergreen/webcontainer/tomcat7/internal/realm/AccountStoreRealm.java:100-102 | The store name, possibly null, is stored. Nothing else changes. |
| Realm.AccountStoreRealm.GetPassword | impl/src/main/java/com/peergreen/webcontainer/tomcat7/internal/realm/AccountStoreRealm.java:63-65 | Always null. |
| Realm.AccountStoreRealm.GetPrincipal | impl/src/main/java/com/peergreen/webcontainer/tomcat7/internal/realm/AccountStoreRealm.java:68-82 | Null without a store. A principal with that name, no password and the roles of the only matching account, exactly when one account has that login. |
| Realm.AccountStoreRealm.Authenticate | impl/src/main/java/com/peergreen/webcontainer/tomcat7/internal/realm/AccountStoreRealm.java:85-93 | Null without an authenticator, or when it yields no subject. Otherwise `getPrincipal`. |
| Realm.AccountStoreRealm.StartInternal | impl/src/main/java/com/peergreen/webcontainer/tomcat7/internal/realm/AccountStoreRealm.java:105-125 | Builds both filters from the store name. A null name is printed as `null`. It succeeds exactly when both parse. |
| Realm.AccountStoreRealm.AddingAuthenticator | impl/src/main/java/com/peergreen/webcontainer/tomcat7/internal/realm/AccountStoreRealm.java:141-144 | Binds and returns the service. Nothing else changes. |
| Realm.AccountStoreRealm.RemovedAuthenticator | impl/src/main/java/com/peergreen/webcontainer/tomcat7/internal/realm/AccountStoreRealm.java:152-154 | Clears the service. Nothing else changes. |
| Realm.AccountStoreRealm.AddingStore | impl/src/main/java/com/peergreen/webcontainer/tomcat7/internal/realm/AccountStoreRealm.java:160-163 | Binds and returns the store. Nothing else changes. |
| Realm.AccountStoreRealm.RemovedStore | impl/src/main/java/com/peergreen/webcontainer/tomcat7/internal/realm/AccountStoreRealm.java:170-172 | Clears the store. Nothing else changes. |
| Realm.FilterRoundTrip | impl/src/main/java/com/peergreen/webcontainer/tomcat7/internal/realm/AccountStoreRealm.java:111-122 | A filter `(&(objectclass=C)(K=V))` reads back as C, K and V when C has no `)` and K has no `=`. |
| Realm.SharedLoginHasNoPrincipal | impl/src/main/java/com/peergreen/webcontainer/tomcat7/internal/realm/AccountStoreRealm.java:76-81 | Two accounts with one login give no principal. |
| Realm.EqualAccountsStillTwo | impl/src/main/java/com/peergreen/webcontainer/tomcat7/internal/realm/AccountStoreRealm.java:70-81 | Two account objects with the same login and the same roles are still two accounts. That login gets no principal. |
| Realm.SingleAccountPrincipal | impl/src/main/java/com/peergreen/webcontainer/tomcat7/internal/realm/AccountStoreRealm.java:76-78 | A login held by a single account gives that account's roles. |
| Realm.AuthenticatedHasUniqueAccount | impl/src/main/java/com/peergreen/webcontainer/tomcat7/internal/realm/AccountStoreRealm.java:85-93 | A successful authentication implies a bound authenticator, a bound store, and exactly one matching account. |
| Strings.DecimalRoundTrip | impl/src/main/java/com/peergreen/webcontainer/tomcat7/internal/core/PeergreenStandardContext.java:76 | The decimal text of the port reads back as the port, negative values included. |

## Left out

- Locking and concurrency. The write lock around the `wrappers` list is not modelled. Every operation is one sequential step, which the lock does not give the check-then-add of `registerServlet` in the source either.
- Endpoint registration through the bundle's artifact, the temporary document base, the context config and instance manager listeners, and `allocate`/`deallocate` of the servlet are calls into unseen Tomcat or OSGi code. They are taken to succeed.
- RegistryProperties.RegisterOutcome: a ServletException from servlet init fails `registerServlet` (BasicTomcat7HttpService.java:285). The model does not cover that path. In the source it leaves the wrapper listed (:262) and added as a child (:281) but unmapped (:289 never runs), and keeps any context just created (:167). So that alias cannot be registered again until it is unregistered.
- RegistryProperties.RegisterOutcome: a URI that `java.net.URI` refuses while registering endpoints (:222-240) fails with IllegalArgumentException (:237). So does a failing `getContextURIs` (:225). The model does not cover those paths either. When the context was new, it stays in the host.
- HttpService.BasicTomcat7HttpService.RegisterServlet: does not promise the partial state of those two failures. Its "state unchanged" clause covers only the modelled failures (bad alias, foreign context, servlet path in use).
- The caller bundle: `unregister` and `unregisterAll` ignore their `callerBundle` argument (:296, :335), so any bundle may unregister any alias. `registerServlet` uses it only to find endpoints. The model has no caller parameter.
- `getName` returns a fixed realm name and is not modelled.
- asyncSupported: the source reads `WebServlet` from the `Servlet` interface itself, not from the servlet's class. So the flag is never set, and the model has no such flag.
- The Tomcat container model: contexts are records with children and mappings. Lifecycle, pipelines and real `StandardWrapper` objects are not modelled, and a context's identity is its path. A wrapper is identified by (context path, name); the invariant makes that unique.
- HttpService.BasicTomcat7HttpService.InstallWrapper: the parent class loader is set when the wrapper is built, not after it is listed; no observer sits between the two steps.
- `HttpContext.handleSecurity`, `HttpContext.getResource`, `java.net.URI`'s syntax check, `BundleContext.createFilter`'s syntax check, the authenticator's verdict and `BundleContext.getService` are foreign code. They are parameters.
- The value of `AccountStore.STORE_NAME` is not part of this model. It is a parameter of `StartInternal`.
- Realm.AccountStoreRealm.StartInternal: the service trackers it opens, and `stopInternal`, which closes them, are left out. The tracker callbacks are modelled as the realm's methods. `ServiceTracker.open()` (AccountStoreRealm.java:127, :129) may call `addingService` for services that already match, during `startInternal` itself. The model runs those callbacks as separate, later steps, so `StartInternal` keeps the service and the store unchanged.
- A context's parent host is given to the model already paired with its engine's service connectors (`HostView`). The `(Engine) getParent().getParent()` cast of `getContextURIs` (PeergreenStandardContext.java:64), its `(Host)` cast (:67), and the NullPointerException or ClassCastException it raises when the host has no engine parent, are not modelled.
- Stream closing by try-with-resources, `setDefaultUseCaches`, and I/O exceptions from the streams are not modelled.
- Realm.AccountStoreRealm.GetPrincipal: accounts are compared by an identity number, standing for Java object identity. The store's accounts are a set of those.
- Roles are a set: the principal's role list copies a set whose order Java leaves unspecified.
- Strings are sequences of characters, with no Unicode normalisation.
