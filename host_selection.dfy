/**
 * PeergreenTomcat7Service.getHost and getDefaultHost: choosing a Tomcat host among the services
 * of the server. No name (or the empty name) picks the default host of the first service's
 * engine; a name picks the first host of that name, scanning the engines of all services.
 */
module HostSelection {
  import opened Wrappers

  /** A Tomcat host, known by its name and identity. */
  datatype Host = Host(name: string, id: nat)

  /** A child of an engine: a Host, or a container of some other kind. */
  datatype EngineChild = HostChild(host: Host) | OtherChild

  /** The container of a service: an Engine (its default host name may be null) or something else. */
  datatype Container =
    | Engine(defaultHost: Option<string>, children: map<string, EngineChild>)
    | OtherContainer

  datatype Service = Service(container: Container)

  /** The four IllegalArgumentException messages of getHost. */
  datatype HostError = NoService | NotAnEngine | NoDefaultHost | NoMatchingHost(hostName: string)

  /** engine.findChild(name) when that child is a Host. */
  function HostNamed(engine: Container, name: string): (r: Option<Host>)
    requires engine.Engine?
    ensures r.Some? <==> name in engine.children && engine.children[name].HostChild?
    ensures r.Some? ==> r.value == engine.children[name].host
  {
    if name in engine.children && engine.children[name].HostChild? then Some(engine.children[name].host) else None
  }

  /** The hosts named `name`, one per service whose engine has one, in service order. */
  function MatchingHosts(services: seq<Service>, name: string): (r: Result<seq<Host>, HostError>)
    decreases |services|
    ensures r.Failure? <==> exists i :: 0 <= i < |services| && services[i].container.OtherContainer?
    ensures r.Failure? ==> r.error == NotAnEngine
    ensures r.Success? ==> |r.value| <= |services|
    ensures r.Success? ==>
      (|r.value| == 0 <==> forall i :: 0 <= i < |services| ==> HostNamed(services[i].container, name).None?)
    ensures r.Success? && |r.value| > 0 ==>
      exists k :: 0 <= k < |services| && HostNamed(services[k].container, name) == Some(r.value[0]) &&
        forall i :: 0 <= i < k ==> HostNamed(services[i].container, name).None?
  {
    if services == [] then Success([])
    else
      var front := services[..|services| - 1];
      var last := services[|services| - 1];
      match MatchingHosts(front, name)
      case Failure(e) => Failure(e)
      case Success(hosts) =>
        if last.container.OtherContainer? then Failure(NotAnEngine)
        else
          match HostNamed(last.container, name)
          case None => Success(hosts)
          case Some(h) => Success(hosts + [h])
  }

  /** getHost(hostName), with a null name as None. */
  function SelectHost(services: seq<Service>, hostName: Option<string>): (r: Result<Host, HostError>)
    ensures |services| == 0 <==> r == Failure(NoService)
    ensures r.Success? && (hostName.None? || hostName.value == "") ==>
      && services[0].container.Engine? && services[0].container.defaultHost.Some?
      && HostNamed(services[0].container, services[0].container.defaultHost.value) == Some(r.value)
    ensures r.Success? && hostName.Some? && hostName.value != "" ==>
      exists i :: 0 <= i < |services| && services[i].container.Engine? &&
        HostNamed(services[i].container, hostName.value) == Some(r.value)
    // The default branch: the default host is found when the first engine has it, and each
    // way of missing it has its own error.
    ensures (hostName.None? || hostName.value == "") && |services| > 0 ==>
      var e := services[0].container;
      && (e.OtherContainer? ==> r == Failure(NotAnEngine))
      && (e.Engine? && (e.defaultHost.None? || HostNamed(e, e.defaultHost.value).None?) ==> r == Failure(NoDefaultHost))
      && (e.Engine? && e.defaultHost.Some? && HostNamed(e, e.defaultHost.value).Some? ==>
            r == Success(HostNamed(e, e.defaultHost.value).value))
    // The named branch: a host of that name on an all-engine list is found.
    ensures (&& hostName.Some? && hostName.value != ""
             && (forall i :: 0 <= i < |services| ==> services[i].container.Engine?)
             && (exists k :: 0 <= k < |services| && HostNamed(services[k].container, hostName.value).Some?))
      ==> r.Success?
  {
    if |services| < 1 then Failure(NoService)
    else if hostName.None? || hostName.value == "" then
      match services[0].container
      case OtherContainer => Failure(NotAnEngine)
      case Engine(defaultHost, _) =>
        if defaultHost.None? then Failure(NoDefaultHost)
        else match HostNamed(services[0].container, defaultHost.value)
          case Some(h) => Success(h)
          case None => Failure(NoDefaultHost)
    else
      match MatchingHosts(services, hostName.value)
      case Failure(e) => Failure(e)
      case Success(hosts) =>
        if |hosts| == 0 then Failure(NoMatchingHost(hostName.value)) else Success(hosts[0])
  }

  /** getHost. */
  method GetHost(services: seq<Service>, hostName: Option<string>) returns (r: Result<Host, HostError>)
    ensures r == SelectHost(services, hostName)
  {
    if |services| < 1 {
      return Failure(NoService);
    }
    if hostName.None? || hostName.value == "" {
      var service := services[0];
      var cont := service.container;
      if !cont.Engine? {
        return Failure(NotAnEngine);
      }
      var defaultHost := cont.defaultHost;
      if defaultHost.None? {
        return Failure(NoDefaultHost);
      }
      if defaultHost.value in cont.children && cont.children[defaultHost.value].HostChild? {
        return Success(cont.children[defaultHost.value].host);
      }
      return Failure(NoDefaultHost);
    }
    var name := hostName.value;
    var hosts: seq<Host> := [];
    for s := 0 to |services|
      invariant MatchingHosts(services[..s], name) == Success(hosts)
    {
      assert services[..s + 1][..s] == services[..s];
      var cont := services[s].container;
      if !cont.Engine? {
        assert services[s] == services[..s + 1][s];
        return Failure(NotAnEngine);
      }
      if name in cont.children && cont.children[name].HostChild? {
        hosts := hosts + [cont.children[name].host];
      }
    }
    assert services[..|services|] == services;
    if |hosts| == 0 {
      return Failure(NoMatchingHost(name));
    }
    return Success(hosts[0]);
  }

  /** getDefaultHost: getHost(null). */
  method GetDefaultHost(services: seq<Service>) returns (r: Result<Host, HostError>)
    ensures r == SelectHost(services, None)
  {
    r := GetHost(services, None);
  }

  /** A named lookup fails as soon as any service has no engine, whatever matched before it. */
  lemma NamedLookupNeedsEveryEngine(services: seq<Service>, name: string, i: int)
    requires name != "" && 0 <= i < |services| && services[i].container.OtherContainer?
    ensures SelectHost(services, Some(name)) == Failure(NotAnEngine)
  {
  }

  /**
   * When every service is an engine and one of them has a host of that name, the named lookup
   * succeeds with the first such host in service order.
   */
  lemma NamedLookupFindsFirst(services: seq<Service>, name: string, j: int)
    requires name != "" && 0 <= j < |services|
    requires forall i :: 0 <= i < |services| ==> services[i].container.Engine?
    requires HostNamed(services[j].container, name).Some?
    ensures SelectHost(services, Some(name)).Success?
    ensures exists k :: (0 <= k < |services| &&
      HostNamed(services[k].container, name) == Some(SelectHost(services, Some(name)).value) &&
      forall i :: 0 <= i < k ==> HostNamed(services[i].container, name).None?)
  {
  }

  /** A named lookup fails with NoMatchingHost exactly when every service is an engine without that host. */
  lemma NoMatchOnlyWhenNoHost(services: seq<Service>, name: string)
    requires name != "" && |services| >= 1
    ensures SelectHost(services, Some(name)) == Failure(NoMatchingHost(name)) <==>
      forall i :: 0 <= i < |services| ==>
        services[i].container.Engine? && HostNamed(services[i].container, name).None?
  {
  }

  /** The empty name is the same as no name. */
  lemma EmptyNameIsDefault(services: seq<Service>)
    ensures SelectHost(services, Some("")) == SelectHost(services, None)
  {
  }
}
