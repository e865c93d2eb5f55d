/**
 * PeergreenStandardContext (the version under impl/): a StandardContext that delegates class
 * loading to its parent first, forces Peergreen's web-application class loader on every
 * WebappLoader it is given, and lists the URIs it is reachable at, one per connector of the
 * service its host belongs to.
 */
module StandardContext {
  import opened Wrappers
  import opened Strings

  /** The class name setLoader installs on a WebappLoader. */
  const PEERGREEN_LOADER_CLASS: string := "com.peergreen.webcontainer.tomcat7.internal.core.PeergreenWebAppClassLoader"

  /** A Tomcat connector, as far as URIs go. A null proxy name is None; a proxy port of 0 means none. */
  datatype Connector = Connector(scheme: string, proxyName: Option<string>, port: int, proxyPort: int)

  /** The parent host: its name and the connectors of the service of its engine. */
  datatype HostView = HostView(name: string, connectors: seq<Connector>)

  /** IllegalStateException (no parent host) and IllegalArgumentException (URISyntaxException). */
  datatype UriError = NoParentHost | UnableToBuildUri(uri: string)

  /** A WebappLoader: an object whose loader class can be changed. */
  class WebappLoader {
    var loaderClass: string

    constructor (loaderClass: string)
      ensures this.loaderClass == loaderClass
    {
      this.loaderClass := loaderClass;
    }
  }

  /** A loader handed to setLoader: a WebappLoader, or a loader of some other class. */
  datatype Loader = Webapp(webapp: WebappLoader) | OtherLoader(id: nat)

  /** The host part of a connector's URIs. */
  function UriHost(hostName: string, c: Connector): (r: string)
    ensures c.proxyName.None? ==> r == hostName
    ensures c.proxyName.Some? ==> r == c.proxyName.value
  {
    if c.proxyName.Some? then c.proxyName.value else hostName
  }

  /** The port of a connector's URIs. */
  function UriPort(c: Connector): (r: int)
    ensures c.proxyPort == 0 ==> r == c.port
    ensures c.proxyPort != 0 ==> r == c.proxyPort
  {
    if c.proxyPort != 0 then c.proxyPort else c.port
  }

  /** scheme://host:port followed by the context path. */
  function ConnectorUri(hostName: string, path: string, c: Connector): string {
    c.scheme + "://" + UriHost(hostName, c) + ":" + DecimalString(UriPort(c)) + path
  }

  /**
   * A connector's URI starts with its scheme and host, ends with the context path, and the
   * port between them reads back as the port in use.
   */
  lemma ConnectorUriParts(hostName: string, path: string, c: Connector)
    ensures var r := ConnectorUri(hostName, path, c);
      var head := c.scheme + "://" + UriHost(hostName, c) + ":";
      && StartsWith(r, head)
      && EndsWith(r, path)
      && |head| <= |r| - |path| && ParseDecimal(r[|head|..|r| - |path|]) == UriPort(c)
  {
    var head := c.scheme + "://" + UriHost(hostName, c) + ":";
    var port := DecimalString(UriPort(c));
    DecimalRoundTrip(UriPort(c));
    assert ConnectorUri(hostName, path, c) == head + port + path;
    assert (head + port + path)[..|head|] == head;
    assert (head + port + path)[|head + port|..] == path;
    assert (head + port + path)[|head|..|head + port + path| - |path|] == port;
  }

  /** The URIs of a context at `path` on `host`, one per connector, in connector order. */
  function HostUris(host: HostView, path: string): (r: seq<string>)
    ensures |r| == |host.connectors|
    ensures forall i :: 0 <= i < |r| ==> r[i] == ConnectorUri(host.name, path, host.connectors[i])
  {
    seq(|host.connectors|, i requires 0 <= i < |host.connectors| => ConnectorUri(host.name, path, host.connectors[i]))
  }

  /** The body of the loop of getContextURIs: the proxy name and port, when set, win. */
  method BuildUri(hostName: string, path: string, connector: Connector) returns (uri: string)
    ensures uri == ConnectorUri(hostName, path, connector)
  {
    var name := hostName;
    if connector.proxyName.Some? {
      name := connector.proxyName.value;
    }
    var port := connector.port;
    if connector.proxyPort != 0 {
      port := connector.proxyPort;
    }
    uri := connector.scheme + "://" + name + ":" + DecimalString(port) + path;
  }

  class PeergreenStandardContext {
    var delegate: bool
    var loader: Option<Loader>
    var parent: Option<HostView>
    var path: string

    /** A new context delegates to its parent class loader first and has no loader nor host yet. */
    constructor (path: string)
      ensures delegate && loader.None? && parent.None? && this.path == path
    {
      delegate := true;
      loader := None;
      parent := None;
      this.path := path;
    }

    /** setLoader: a WebappLoader gets Peergreen's class loader; any loader is then stored. */
    method SetLoader(l: Loader)
      modifies this, if l.Webapp? then {l.webapp} else {}
      ensures loader == Some(l)
      ensures l.Webapp? ==> l.webapp.loaderClass == PEERGREEN_LOADER_CLASS
      ensures delegate == old(delegate) && parent == old(parent) && path == old(path)
    {
      if l.Webapp? {
        l.webapp.loaderClass := PEERGREEN_LOADER_CLASS;
      }
      loader := Some(l);
    }

    /**
     * getContextURIs: one URI per connector, in connector order. `isUri` tells which strings
     * java.net.URI accepts; the first one it refuses ends the call with an error.
     */
    method GetContextURIs(isUri: string -> bool) returns (r: Result<seq<string>, UriError>)
      ensures parent.None? ==> r == Failure(NoParentHost)
      ensures parent.Some? ==> r == CheckUris(HostUris(parent.value, path), isUri)
    {
      if parent.None? {
        return Failure(NoParentHost);
      }
      r := ListUris(parent.value, path, isUri);
    }
  }

  /** The loop of getContextURIs over the connectors of `host`. */
  method ListUris(host: HostView, path: string, isUri: string -> bool) returns (r: Result<seq<string>, UriError>)
    ensures r == CheckUris(HostUris(host, path), isUri)
  {
    var connectors := host.connectors;
    ghost var all := HostUris(host, path);
    var uris: seq<string> := [];
    for n := 0 to |connectors|
      invariant uris == all[..n]
      invariant forall i :: 0 <= i < n ==> isUri(all[i])
    {
      var uri := BuildUri(host.name, path, connectors[n]);
      if !isUri(uri) {
        FirstRefusedUri(all, isUri, n);
        return Failure(UnableToBuildUri(uri));
      }
      assert all[..n + 1] == all[..n] + [all[n]];
      uris := uris + [uri];
    }
    assert uris == all;
    return Success(uris);
  }

  /** The URIs are handed back when all of them are accepted; otherwise the first refused one is reported. */
  function CheckUris(uris: seq<string>, isUri: string -> bool): (r: Result<seq<string>, UriError>)
    decreases |uris|
    ensures r.Success? <==> forall i :: 0 <= i < |uris| ==> isUri(uris[i])
    ensures r.Success? ==> r.value == uris
    ensures r.Failure? ==> exists k :: 0 <= k < |uris| && !isUri(uris[k]) && r.error == UnableToBuildUri(uris[k]) &&
                                       forall i :: 0 <= i < k ==> isUri(uris[i])
  {
    if uris == [] then Success([])
    else if !isUri(uris[0]) then Failure(UnableToBuildUri(uris[0]))
    else
      match CheckUris(uris[1..], isUri)
      case Failure(e) =>
        assert forall i :: 1 <= i < |uris| ==> uris[i] == uris[1..][i - 1];
        Failure(e)
      case Success(_) =>
        assert forall i :: 1 <= i < |uris| ==> uris[i] == uris[1..][i - 1];
        Success(uris)
  }

  /** The first URI refused is the one reported. */
  lemma FirstRefusedUri(uris: seq<string>, isUri: string -> bool, n: int)
    requires 0 <= n < |uris| && !isUri(uris[n])
    requires forall i :: 0 <= i < n ==> isUri(uris[i])
    ensures CheckUris(uris, isUri) == Failure(UnableToBuildUri(uris[n]))
  {
    var r := CheckUris(uris, isUri);
    var k :| 0 <= k < |uris| && !isUri(uris[k]) && r.error == UnableToBuildUri(uris[k]) &&
             forall i :: 0 <= i < k ==> isUri(uris[i]);
    assert k == n;
  }

  lemma Decimal80()
    ensures DecimalString(80) == "80"
  {
    assert DigitChar(8) == '8' && DigitChar(0) == '0';
    assert Digits(8) == "8";
    assert Digits(80) == "8" + "0";
  }

  lemma Decimal443()
    ensures DecimalString(443) == "443"
  {
    assert DigitChar(4) == '4' && DigitChar(3) == '3';
    assert Digits(4) == "4";
    assert Digits(44) == "4" + "4";
    assert Digits(443) == "44" + "3";
  }

  /** A plain connector: the host's own name and the connector's port. */
  lemma PlainConnectorUri()
    ensures ConnectorUri("h", "/c", Connector("http", None, 80, 0)) == "http://h:80/c"
  {
    Decimal80();
    assert "http" + "://" + "h" + ":" + "80" + "/c" == "http://h:80/c";
  }

  /** A proxy name and a proxy port replace the host's name and the connector's port. */
  lemma ProxiedConnectorUri()
    ensures ConnectorUri("h", "/c", Connector("https", Some("p"), 8443, 443)) == "https://p:443/c"
  {
    var c := Connector("https", Some("p"), 8443, 443);
    assert UriHost("h", c) == "p" && UriPort(c) == 443;
    Decimal443();
    assert "https" + "://" + "p" + ":" + "443" + "/c" == "https://p:443/c";
  }
}
