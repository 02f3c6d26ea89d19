/**
 * `useSafeFetch`: a fetch wrapper that aborts the previous request's
 * `AbortController` before each call, gives each request a fresh controller's
 * signal, and aborts the last controller on unmount.
 *
 * Controllers are numbered in creation order; the model counts the `abort()`
 * calls each one receives. `fetch` itself is left out: a call yields the
 * request it hands to `fetch`.
 */
module UseSafeFetch {
  import opened Common

  /** A field of a `RequestInit`: an opaque value, or the signal of controller number `controller`. */
  datatype InitValue = Opaque(text: string) | SignalOf(controller: nat)

  type RequestInit = map<string, InitValue>

  datatype Request = Request(url: string, init: RequestInit)

  /** `{ ...restOptions, signal }` where `{ signal: _, ...restOptions } = options`. */
  function WithSignal(options: RequestInit, controller: nat): (init: RequestInit)
    ensures "signal" in init && init["signal"] == SignalOf(controller)
    ensures forall k :: k != "signal" ==> (k in init <==> k in options)
    ensures forall k :: k in options && k != "signal" ==> init[k] == options[k]
  {
    (options - {"signal"})["signal" := SignalOf(controller)]
  }

  /** The abort count of every controller created so far, and the one `abortControllerRef.current` holds. */
  datatype Controllers = Controllers(aborts: seq<nat>, current: Option<nat>)

  ghost predicate WellFormed(c: Controllers)
  {
    c.current.Some? ==> c.current.value < |c.aborts|
  }

  /** `abortControllerRef.current?.abort()`. */
  function AbortCurrent(c: Controllers): (r: Controllers)
    requires WellFormed(c)
    ensures WellFormed(r)
  {
    match c.current
    case None => c
    case Some(i) => c.(aborts := c.aborts[i := c.aborts[i] + 1])
  }

  /** One call: abort the stored controller, then create and store a new one. */
  function AfterCall(c: Controllers): (r: Controllers)
    requires WellFormed(c)
  {
    Controllers(AbortCurrent(c).aborts + [0], Some(|c.aborts|))
  }

  /** The bookkeeping after `n` calls from mount. */
  function AfterCalls(n: nat): (r: Controllers)
    ensures WellFormed(r)
  {
    if n == 0 then Controllers([], None) else AfterCall(AfterCalls(n - 1))
  }

  /** After `n` calls there are `n` controllers, the ref holds the last, which is live, and every earlier one was aborted once. */
  lemma {:induction false} AfterCallsShape(n: nat)
    ensures |AfterCalls(n).aborts| == n
    ensures AfterCalls(n).current == if n == 0 then None else Some(n - 1)
    ensures forall i :: 0 <= i < n - 1 ==> AfterCalls(n).aborts[i] == 1
    ensures n > 0 ==> AfterCalls(n).aborts[n - 1] == 0
  {
    if n > 0 {
      AfterCallsShape(n - 1);
    }
  }

  /** After n >= 1 calls and an unmount, every controller has been aborted exactly once. */
  lemma EveryControllerAbortedOnce(n: nat)
    requires n >= 1
    ensures |AbortCurrent(AfterCalls(n)).aborts| == n
    ensures forall i :: 0 <= i < n ==> AbortCurrent(AfterCalls(n)).aborts[i] == 1
  {
    AfterCallsShape(n);
  }

  /** One `useSafeFetch()` instance. */
  class SafeFetch {
    /** `abortControllerRef.current`. */
    var current: Option<nat>
    /** The `abort()` calls each controller has received, in creation order. */
    var aborts: seq<nat>

    function State(): (c: Controllers)
      reads this
    {
      Controllers(aborts, current)
    }

    ghost predicate Valid()
      reads this
    {
      WellFormed(State())
    }

    /** The first render: the ref holds `null`. */
    constructor ()
      ensures Valid() && State() == AfterCalls(0)
    {
      current := None;
      aborts := [];
    }

    /** A call of the returned function: the request handed to `fetch` carries the new controller's signal. */
    method Fetch(url: string, options: RequestInit := map[]) returns (request: Request)
      requires Valid()
      modifies this
      ensures Valid()
      ensures State() == AfterCall(old(State()))
      ensures request == Request(url, WithSignal(options, |old(aborts)|))
    {
      if current.Some? {
        aborts := aborts[current.value := aborts[current.value] + 1];
      }
      var controller := |aborts|;
      aborts := aborts + [0];
      current := Some(controller);
      var restOptions := options - {"signal"};
      request := Request(url, restOptions["signal" := SignalOf(controller)]);
    }

    /** The effect's cleanup: abort the stored controller, if there is one. */
    method Unmount()
      requires Valid()
      modifies this`aborts
      ensures Valid()
      ensures State() == AbortCurrent(old(State()))
    {
      if current.Some? {
        aborts := aborts[current.value := aborts[current.value] + 1];
      }
    }
  }

  /** Two calls abort exactly the first controller; unmounting then aborts the second. */
  method TwoCallsThenUnmount(first: string, second: string) returns (afterSecond: seq<nat>, afterUnmount: seq<nat>)
    ensures afterSecond == [1, 0]
    ensures afterUnmount == [1, 1]
  {
    var hook := new SafeFetch();
    var _ := hook.Fetch(first);
    var _ := hook.Fetch(second);
    afterSecond := hook.aborts;
    hook.Unmount();
    afterUnmount := hook.aborts;
  }

  /** Unmounting without a call aborts nothing. */
  method UnmountWithoutCall() returns (aborts: seq<nat>)
    ensures aborts == []
  {
    var hook := new SafeFetch();
    hook.Unmount();
    aborts := hook.aborts;
  }

  /** A caller's `signal` is replaced by the controller's; `method` and `headers` pass through. */
  method OptionsPassThrough(url: string) returns (request: Request)
    ensures request.url == url
    ensures request.init == map["method" := Opaque("POST"), "headers" := Opaque("Content-Type: application/json"),
                                "signal" := SignalOf(0)]
  {
    var hook := new SafeFetch();
    var options := map["method" := Opaque("POST"), "headers" := Opaque("Content-Type: application/json"),
                       "signal" := Opaque("caller signal")];
    request := hook.Fetch(url, options);
  }
}
