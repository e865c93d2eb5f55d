/**
 * HttpContextSecurityValve: the valve installed in front of every registered servlet. It asks
 * the OSGi HttpContext it was built with whether the request may proceed, and only then passes
 * the same request and response to the next valve of the wrapper's pipeline.
 */
module SecurityValve {

  /** An OSGi HttpContext, known only by identity; its handleSecurity is a parameter. */
  datatype HttpContextRef = HttpContextRef(id: nat)
  datatype Request = Request(id: nat)
  datatype Response = Response(id: nat)

  /** The valve; its bound HttpContext is immutable, as the source's field is set once. */
  datatype Valve = HttpContextSecurityValve(httpContext: HttpContextRef)

  /** What one request causes, in order. */
  datatype Step =
    | CheckedSecurity(httpContext: HttpContextRef, request: Request, response: Response)
    | InvokedNext(request: Request, response: Response)

  /** The callback HttpContext.handleSecurity(request, response). */
  type SecurityCheck = (HttpContextRef, Request, Response) -> bool

  /** invoke(request, response). */
  function Invoke(v: Valve, handleSecurity: SecurityCheck, request: Request, response: Response): (trace: seq<Step>)
    ensures |trace| > 0 && trace[0] == CheckedSecurity(v.httpContext, request, response)
    ensures forall k :: 0 < k < |trace| ==> trace[k] == InvokedNext(request, response)
    ensures |trace| == if handleSecurity(v.httpContext, request, response) then 2 else 1
  {
    if !handleSecurity(v.httpContext, request, response) then
      [CheckedSecurity(v.httpContext, request, response)]
    else
      [CheckedSecurity(v.httpContext, request, response), InvokedNext(request, response)]
  }

  /** The steps of a series of requests passing through one valve. */
  function InvokeAll(v: Valve, handleSecurity: SecurityCheck, exchanges: seq<(Request, Response)>): seq<Step>
    decreases |exchanges|
  {
    if exchanges == [] then []
    else Invoke(v, handleSecurity, exchanges[0].0, exchanges[0].1) + InvokeAll(v, handleSecurity, exchanges[1..])
  }

  /** How many requests of a series the HttpContext lets through. */
  function Admitted(v: Valve, handleSecurity: SecurityCheck, exchanges: seq<(Request, Response)>): nat
    decreases |exchanges|
  {
    if exchanges == [] then 0
    else (if handleSecurity(v.httpContext, exchanges[0].0, exchanges[0].1) then 1 else 0)
         + Admitted(v, handleSecurity, exchanges[1..])
  }

  function CountChecks(trace: seq<Step>): nat {
    if trace == [] then 0 else (if trace[0].CheckedSecurity? then 1 else 0) + CountChecks(trace[1..])
  }

  function CountNext(trace: seq<Step>): nat {
    if trace == [] then 0 else (if trace[0].InvokedNext? then 1 else 0) + CountNext(trace[1..])
  }

  lemma {:induction false} CountsOfConcat(a: seq<Step>, b: seq<Step>)
    ensures CountChecks(a + b) == CountChecks(a) + CountChecks(b)
    ensures CountNext(a + b) == CountNext(a) + CountNext(b)
    decreases |a|
  {
    if a == [] {
      assert a + b == b;
    } else {
      assert (a + b)[1..] == a[1..] + b;
      CountsOfConcat(a[1..], b);
    }
  }

  /**
   * Over any series of requests, handleSecurity is consulted exactly once per request and the
   * next valve runs exactly once per admitted request.
   */
  lemma {:induction false} InvokeAllCounts(v: Valve, handleSecurity: SecurityCheck, exchanges: seq<(Request, Response)>)
    ensures CountChecks(InvokeAll(v, handleSecurity, exchanges)) == |exchanges|
    ensures CountNext(InvokeAll(v, handleSecurity, exchanges)) == Admitted(v, handleSecurity, exchanges)
    decreases |exchanges|
  {
    if exchanges != [] {
      var t := Invoke(v, handleSecurity, exchanges[0].0, exchanges[0].1);
      InvokeAllCounts(v, handleSecurity, exchanges[1..]);
      CountsOfConcat(t, InvokeAll(v, handleSecurity, exchanges[1..]));
      assert CountChecks(t) == 1 && CountNext(t) == |t| - 1 by {
        if |t| == 2 { assert t[1..][1..] == []; }
      }
    }
  }

  /** A valve whose HttpContext refuses every request never lets any request reach the servlet. */
  lemma {:induction false} RefusingContextBlocksAll(v: Valve, handleSecurity: SecurityCheck, exchanges: seq<(Request, Response)>)
    requires forall req: Request, resp: Response :: !handleSecurity(v.httpContext, req, resp)
    ensures forall k :: 0 <= k < |InvokeAll(v, handleSecurity, exchanges)| ==>
              InvokeAll(v, handleSecurity, exchanges)[k].CheckedSecurity?
    decreases |exchanges|
  {
    if exchanges != [] {
      RefusingContextBlocksAll(v, handleSecurity, exchanges[1..]);
    }
  }
}
