/**
 * AccountStoreRealm: a Tomcat realm backed by two OSGi services, an authenticator and an account
 * store, both tracked under filters built from the realm's store name. A user is authenticated by
 * the authenticator and then needs exactly one account of that login in the store.
 */
module Realm {
  import opened Wrappers
  import opened Strings

  const AUTHENTICATOR_CLASS: string := "com.peergreen.security.UsernamePasswordAuthenticateService"
  const ACCOUNT_STORE_CLASS: string := "com.peergreen.security.realm.AccountStore"

  /** An AccountInfo object of the store, known by identity, with its login and its roles. */
  datatype Account = Account(id: nat, login: string, roles: set<string>)

  /** An AccountStore service and the accounts it holds. */
  datatype Store = Store(id: nat, accounts: set<Account>)

  /** A UsernamePasswordAuthenticateService, known by identity. */
  datatype AuthService = AuthService(id: nat)

  /** GenericPrincipal(username, null password, roles). */
  datatype Principal = Principal(name: string, password: Option<string>, roles: set<string>)

  /** The accounts the filter of getPrincipal accepts. */
  function AccountsOf(store: Store, username: string): set<Account> {
    set a | a in store.accounts && a.login == username
  }

  /** The element of a singleton set. */
  function TheElement(s: set<Account>): (a: Account)
    requires |s| == 1
    ensures s == {a}
  {
    var a :| a in s;
    assert s == {a} by {
      assert |s - {a}| == 0;
    }
    a
  }

  /** (&(objectclass=<class>)(<key>=<value>)), the syntax of an OSGi LDAP filter. */
  function Filter(objectClass: string, key: string, value: string): string {
    "(&(objectclass=" + objectClass + ")(" + key + "=" + value + "))"
  }

  /** How String.format's `%s` prints a string that may be null. */
  function Printed(s: Option<string>): string {
    if s.None? then "null" else s.value
  }

  datatype FilterParts = FilterParts(objectClass: string, key: string, value: string)

  const FILTER_OPEN: string := "(&(objectclass="

  /** Reads back "(" key "=" value "))". */
  function ParsePair(p: string): Option<(string, string)> {
    if |p| < 1 || p[0] != '(' then None
    else
      var pair := p[1..];
      var j := IndexOf(pair, '=', 0);
      if j < 0 then None
      else
        var tail := pair[j + 1..];
        if !EndsWith(tail, "))") then None else Some((pair[..j], tail[..|tail| - 2]))
  }

  /** Reads back class ")" followed by a pair. */
  function ParseBody(rest: string): Option<FilterParts> {
    var i := IndexOf(rest, ')', 0);
    if i < 0 then None
    else
      match ParsePair(rest[i + 1..])
      case None => None
      case Some((key, value)) => Some(FilterParts(rest[..i], key, value))
  }

  /** Reads back the three parts of a filter of that shape, or None. */
  function ParseFilter(f: string): Option<FilterParts> {
    if !StartsWith(f, FILTER_OPEN) then None else ParseBody(f[|FILTER_OPEN|..])
  }

  /** The first occurrence of `c` in `a + [c] + b`, when `a` has none, is at |a|. */
  lemma IndexOfAfter(a: string, c: char, b: string)
    requires c !in a
    ensures IndexOf(a + [c] + b, c, 0) == |a|
    ensures (a + [c] + b)[..|a|] == a && (a + [c] + b)[|a| + 1..] == b
  {
    var s := a + [c] + b;
    assert s[|a|] == c;
    forall k | 0 <= k < |a|
      ensures s[k] != c
    {
      assert s[k] == a[k] && a[k] in a;
    }
  }

  lemma PairRoundTrip(key: string, value: string)
    requires '=' !in key
    ensures ParsePair("(" + key + "=" + value + "))") == Some((key, value))
  {
    var p := "(" + key + "=" + value + "))";
    var pair := key + ['='] + (value + "))");
    assert p[1..] == pair;
    IndexOfAfter(key, '=', value + "))");
    var tail := value + "))";
    assert EndsWith(tail, "))");
    assert tail[..|tail| - 2] == value;
  }

  lemma BodyRoundTrip(objectClass: string, key: string, value: string)
    requires ')' !in objectClass
    requires '=' !in key
    ensures ParseBody(objectClass + ")" + ("(" + key + "=" + value + "))")) == Some(FilterParts(objectClass, key, value))
  {
    IndexOfAfter(objectClass, ')', "(" + key + "=" + value + "))");
    PairRoundTrip(key, value);
  }

  /** An object class without ')' and a key without '=' are read back from the filter built of them. */
  lemma FilterRoundTrip(objectClass: string, key: string, value: string)
    requires ')' !in objectClass
    requires '=' !in key
    ensures ParseFilter(Filter(objectClass, key, value)) == Some(FilterParts(objectClass, key, value))
  {
    var body := objectClass + ")" + ("(" + key + "=" + value + "))");
    assert Filter(objectClass, key, value) == FILTER_OPEN + body;
    assert (FILTER_OPEN + body)[|FILTER_OPEN|..] == body;
    BodyRoundTrip(objectClass, key, value);
  }

  class AccountStoreRealm {
    var service: Option<AuthService>
    var store: Option<Store>
    var storeName: Option<string>
    var authenticatorFilter: Option<string>
    var storeFilter: Option<string>

    constructor ()
      ensures service.None? && store.None? && storeName.None?
      ensures authenticatorFilter.None? && storeFilter.None?
    {
      service := None;
      store := None;
      storeName := None;
      authenticatorFilter := None;
      storeFilter := None;
    }

    /** getPassword: passwords are never revealed. */
    function GetPassword(username: string): (r: Option<string>)
      ensures r.None?
    {
      None
    }

    /** getPrincipal: a principal only for a login held by exactly one account of the bound store. */
    function GetPrincipal(username: string): (r: Option<Principal>)
      reads this
      ensures store.None? ==> r.None?
      ensures r.Some? <==> store.Some? && |AccountsOf(store.value, username)| == 1
      ensures r.Some? ==> (r.value.name == username && r.value.password.None? &&
        exists a :: a in store.value.accounts && a.login == username && r.value.roles == a.roles &&
          forall b :: b in store.value.accounts && b.login == username ==> b == a)
    {
      if store.None? then None
      else
        var accounts := AccountsOf(store.value, username);
        if |accounts| == 1 then
          var info := TheElement(accounts);
          assert info in accounts;
          assert forall b :: b in store.value.accounts && b.login == username ==> b in accounts;
          Some(Principal(username, None, info.roles))
        else None
    }

    /**
     * authenticate: the bound authenticator must accept the credentials (`accepts` tells whether it
     * returns a subject), and then the principal is getPrincipal's.
     */
    function Authenticate(username: string, credentials: string, accepts: (AuthService, string, string) -> bool): (r: Option<Principal>)
      reads this
      ensures service.None? ==> r.None?
      ensures service.Some? && !accepts(service.value, username, credentials) ==> r.None?
      ensures service.Some? && accepts(service.value, username, credentials) ==> r == GetPrincipal(username)
    {
      if service.Some? && accepts(service.value, username, credentials) then GetPrincipal(username) else None
    }

    /** setStoreName: `None` for null. */
    method SetStoreName(name: Option<string>)
      modifies this
      ensures storeName == name
      ensures service == old(service) && store == old(store)
      ensures authenticatorFilter == old(authenticatorFilter) && storeFilter == old(storeFilter)
    {
      storeName := name;
    }

    /**
     * startInternal: builds the authenticator and store filters under the store-name property
     * `storeNameKey`; `isFilter` tells which strings the framework's createFilter accepts.
     */
    method StartInternal(storeNameKey: string, isFilter: string -> bool) returns (r: Outcome<string>)
      modifies this
      ensures var a := Filter(AUTHENTICATOR_CLASS, storeNameKey, Printed(storeName));
              var s := Filter(ACCOUNT_STORE_CLASS, storeNameKey, Printed(storeName));
        && (r.Pass? <==> isFilter(a) && isFilter(s))
        && (r.Pass? ==> authenticatorFilter == Some(a) && storeFilter == Some(s))
        && (r.Fail? ==> authenticatorFilter == old(authenticatorFilter) && storeFilter == old(storeFilter))
      ensures service == old(service) && store == old(store) && storeName == old(storeName)
    {
      var a := Filter(AUTHENTICATOR_CLASS, storeNameKey, Printed(storeName));
      if !isFilter(a) {
        return Fail(a);
      }
      var s := Filter(ACCOUNT_STORE_CLASS, storeNameKey, Printed(storeName));
      if !isFilter(s) {
        return Fail(s);
      }
      authenticatorFilter := Some(a);
      storeFilter := Some(s);
      r := Pass;
    }

    /** AuthenticatorTracker.addingService: `got` is what the bundle context hands out (None for null). */
    method AddingAuthenticator(got: Option<AuthService>) returns (r: Option<AuthService>)
      modifies this
      ensures service == got && r == got
      ensures store == old(store) && storeName == old(storeName)
      ensures authenticatorFilter == old(authenticatorFilter) && storeFilter == old(storeFilter)
    {
      service := got;
      r := service;
    }

    /** AuthenticatorTracker.removedService. */
    method RemovedAuthenticator()
      modifies this
      ensures service.None?
      ensures store == old(store) && storeName == old(storeName)
      ensures authenticatorFilter == old(authenticatorFilter) && storeFilter == old(storeFilter)
    {
      service := None;
    }

    /** AccountStoreTracker.addingService. */
    method AddingStore(got: Option<Store>) returns (r: Option<Store>)
      modifies this
      ensures store == got && r == got
      ensures service == old(service) && storeName == old(storeName)
      ensures authenticatorFilter == old(authenticatorFilter) && storeFilter == old(storeFilter)
    {
      store := got;
      r := store;
    }

    /** AccountStoreTracker.removedService. */
    method RemovedStore()
      modifies this
      ensures store.None?
      ensures service == old(service) && storeName == old(storeName)
      ensures authenticatorFilter == old(authenticatorFilter) && storeFilter == old(storeFilter)
    {
      store := None;
    }
  }

  /** Two accounts with the same login make that login unusable. */
  lemma SharedLoginHasNoPrincipal(realm: AccountStoreRealm, username: string, a: Account, b: Account)
    requires realm.store.Some? && a in realm.store.value.accounts && b in realm.store.value.accounts
    requires a != b && a.login == username && b.login == username
    ensures realm.GetPrincipal(username).None?
  {
    var matching := AccountsOf(realm.store.value, username);
    assert {a, b} <= matching;
    assert |{a, b}| == 2;
    CardinalityOfSubset({a, b}, matching);
  }

  /** Two AccountInfo objects alike in login and roles are still two accounts, and no principal is given. */
  lemma EqualAccountsStillTwo(realm: AccountStoreRealm, username: string, roles: set<string>)
    requires realm.store.Some?
    requires Account(0, username, roles) in realm.store.value.accounts
    requires Account(1, username, roles) in realm.store.value.accounts
    ensures realm.GetPrincipal(username).None?
  {
    SharedLoginHasNoPrincipal(realm, username, Account(0, username, roles), Account(1, username, roles));
  }

  /** A login held by one account yields a principal with exactly that account's roles. */
  lemma SingleAccountPrincipal(realm: AccountStoreRealm, username: string, a: Account)
    requires realm.store.Some? && a in realm.store.value.accounts && a.login == username
    requires forall b :: b in realm.store.value.accounts && b.login == username ==> b == a
    ensures realm.GetPrincipal(username) == Some(Principal(username, None, a.roles))
  {
    assert AccountsOf(realm.store.value, username) == {a};
  }

  /** An authenticated user always has a principal that getPrincipal alone would also give. */
  lemma AuthenticatedHasUniqueAccount(realm: AccountStoreRealm, username: string, credentials: string,
                                      accepts: (AuthService, string, string) -> bool)
    requires realm.Authenticate(username, credentials, accepts).Some?
    ensures realm.service.Some? && realm.store.Some?
    ensures |AccountsOf(realm.store.value, username)| == 1
  {
  }
}
