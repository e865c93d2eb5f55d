/**
 * The alias parser of BasicTomcat7HttpService.getAliasInfo: an OSGi Http Service alias
 * must begin with '/' and must not end with '/', except the root alias "/". A valid alias
 * is split at its first '/' after position 0 into a context path (the Tomcat context that
 * serves it) and a servlet path (the wrapper inside that context).
 */
module Aliases {
  import opened Wrappers
  import opened Strings

  datatype AliasInfo = AliasInfo(contextPath: string, servletPath: string)

  /** Why an alias is refused; each is an IllegalArgumentException in the source. */
  datatype AliasError = NullAlias | NoLeadingSlash | TrailingSlash

  /** The alias rule of the OSGi Http Service. */
  predicate ValidAlias(alias: string) {
    StartsWith(alias, "/") && (alias == "/" || !EndsWith(alias, "/"))
  }

  /** A context path: a leading '/' and no other '/'. */
  predicate IsContextPath(p: string) {
    |p| > 0 && p[0] == '/' && forall k :: 1 <= k < |p| ==> p[k] != '/'
  }

  /** A servlet path: empty, or a leading '/' and no trailing '/'. */
  predicate IsServletPath(p: string) {
    p == "" || (p[0] == '/' && p[|p| - 1] != '/')
  }

  /** The shape every successful split has. */
  predicate WellFormed(info: AliasInfo) {
    IsContextPath(info.contextPath) && IsServletPath(info.servletPath)
  }

  /** getAliasInfo: `None` is a null alias. */
  function GetAliasInfo(alias: Option<string>): (r: Result<AliasInfo, AliasError>)
    ensures alias.None? ==> r == Failure(NullAlias)
    ensures alias.Some? ==> (r == Failure(NoLeadingSlash) <==> !StartsWith(alias.value, "/"))
    ensures alias.Some? ==> (r.Success? <==> ValidAlias(alias.value))
    ensures alias.Some? && StartsWith(alias.value, "/") && !ValidAlias(alias.value) ==> r == Failure(TrailingSlash)
    ensures r.Success? ==> r.value.contextPath + r.value.servletPath == alias.value
    ensures r.Success? ==> WellFormed(r.value)
  {
    match alias
    case None => Failure(NullAlias)
    case Some(a) =>
      if !StartsWith(a, "/") then Failure(NoLeadingSlash)
      else if a != "/" && EndsWith(a, "/") then Failure(TrailingSlash)
      else
        var slash := IndexOf(a, '/', 1);
        if slash >= 0 then
          assert a[..slash] + a[slash..] == a;
          Success(AliasInfo(a[..slash], a[slash..]))
        else
          Success(AliasInfo(a, ""))
  }

  /** The split is at the FIRST '/' after position 0: the servlet path is empty or starts there. */
  lemma SplitAtFirstSlash(alias: string)
    requires ValidAlias(alias)
    ensures var info := GetAliasInfo(Some(alias)).value;
      && |info.contextPath| >= 1
      && (info.servletPath == [] <==> forall k :: 1 <= k < |alias| ==> alias[k] != '/')
      && (info.servletPath != [] ==>
            alias[|info.contextPath|] == '/' &&
            (forall k :: 1 <= k < |info.contextPath| ==> alias[k] != '/'))
  {
  }

  /** Joining a well-formed split and parsing it again gives the same split back. */
  lemma JoinRoundTrip(info: AliasInfo)
    requires WellFormed(info)
    ensures GetAliasInfo(Some(info.contextPath + info.servletPath)) == Success(info)
  {
    var a := info.contextPath + info.servletPath;
    var c := info.contextPath;
    assert a[..1] == "/";
    if info.servletPath == "" {
      assert a == c;
      if a != "/" {
        assert a[|a| - 1] != '/';
        assert a[|a| - 1..] != "/";
      }
      assert forall k :: 1 <= k < |a| ==> a[k] != '/';
    } else {
      assert a[|a| - 1] == info.servletPath[|info.servletPath| - 1];
      assert a[|a| - 1..] != "/";
      assert a[|c|] == '/';
      assert forall k :: 1 <= k < |c| ==> a[k] == c[k];
      var slash := IndexOf(a, '/', 1);
      assert slash == |c|;
      assert a[..slash] == c;
      assert a[slash..] == info.servletPath;
    }
  }

  /** The root alias "/" is its own context with an empty servlet path. */
  lemma RootAliasExample()
    ensures GetAliasInfo(Some("/")) == Success(AliasInfo("/", ""))
  {
    JoinRoundTrip(AliasInfo("/", ""));
  }

  /** An alias of one segment is a context with an empty servlet path. */
  lemma OneSegmentExample()
    ensures GetAliasInfo(Some("/toto")) == Success(AliasInfo("/toto", ""))
  {
    var c := "/toto";
    assert c[1] == 't' && c[2] == 'o' && c[3] == 't' && c[4] == 'o';
    JoinRoundTrip(AliasInfo(c, ""));
  }

  /** A three-segment alias keeps everything after the first segment as the servlet path. */
  lemma ThreeSegmentExample()
    ensures GetAliasInfo(Some("/my/name/space")) == Success(AliasInfo("/my", "/name/space"))
  {
    var c, p := "/my", "/name/space";
    assert c[1] == 'm' && c[2] == 'y';
    assert p[0] == '/' && p[|p| - 1] == 'e';
    assert c + p == "/my/name/space";
    JoinRoundTrip(AliasInfo(c, p));
  }

  /** An alias not starting with '/' is refused. */
  lemma NoLeadingSlashExample()
    ensures GetAliasInfo(Some("myContext/entry")) == Failure(NoLeadingSlash)
  {
    var a := "myContext/entry";
    assert a[..1][0] == 'm';
  }

  /** An alias ending with '/' is refused. */
  lemma TrailingSlashExample()
    ensures GetAliasInfo(Some("/myContext/entry/")) == Failure(TrailingSlash)
  {
    var a := "/myContext/entry/";
    assert a[..1] == "/";
    assert a[|a| - 1..] == "/";
  }
}
