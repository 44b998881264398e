/**
  The configuration and the outcome of one curl transfer (class `Request` of
  namespace CurlX). Foreign calls are parameters: URL validation
  (`filter_var` with FILTER_VALIDATE_URL), query serialisation
  (`http_build_query`), the handle `curl_init` returns, the clock read by
  `microtime`, and the curl error code, HTTP status and body of a finished
  transfer.
 */
module CurlX {
  import opened Wrappers
  import opened PhpArray

  // libcurl option numbers, as PHP's curl extension defines the CURLOPT_* constants
  const CURLOPT_NOSIGNAL: int := 99
  const CURLOPT_POST: int := 47
  const CURLOPT_TIMEOUT_MS: int := 155
  const CURLOPT_POSTFIELDS: int := 10015
  const CURLOPT_HTTPHEADER: int := 10023
  const CURLOPT_RETURNTRANSFER: int := 19913

  /** The PHP values this class stores in its option array. */
  datatype Value =
    | Bool(b: bool)
    | Int(i: int)
    | Num(r: real)
    | Str(s: string)
    | Strings(a: PArray<string>)

  /** A PHP callable: an invokable object (a closure), a function name, or an [object, method] pair. */
  datatype Listener = Invokable(obj: nat) | Function(name: string) | Method(obj: nat, name: string)

  /** What a listener can observe of the completion when it is called with the request. */
  datatype Completion = Completion(success: Option<bool>, response: Option<string>, result: Option<Value>, endTime: Option<real>)

  /** One `call_user_func($listener, $this)`. */
  datatype Call = Call(listener: Listener, seen: Completion)

  /** A curl easy handle: the resource `curl_init` returned, with the URL and options applied to it. */
  datatype Handle = Handle(serial: nat, url: Option<string>, options: PArray<Value>)

  datatype Fault = UnsupportedOperandTypes

  /** One header line: a string key `k` with value `v` gives "k: v"; an integer key passes the value through. */
  function Line(e: Entry<string>): string {
    match e.key
    case StrKey(k) => k + ": " + e.val
    case IntKey(_) => e.val
  }

  /** What `normalize` builds: a list with one header line per input entry, in input order. */
  function Lines(hs: seq<Entry<string>>): (r: PArray<string>)
    ensures IsList(r) && |r| == |hs|
    ensures forall i :: 0 <= i < |hs| ==> r[i].val == Line(hs[i])
  {
    var r := seq(|hs|, i requires 0 <= i < |hs| => Entry(IntKey(i), Line(hs[i])));
    ListIsArray(r);
    r
  }

  /**
    The listener registration as written: `$this->listeners += $function`.
    PHP's `+` on an array and a closure or a string is a fatal error; an
    [object, method] pair is an array, whose two elements land at keys 0 and 1
    when those keys are still free.
   */
  function AddListenerAsWritten(ls: PArray<Listener>, f: Listener): Result<PArray<Listener>, Fault> {
    match f
    case Method(obj, name) => Success(Union(ls, [Entry(IntKey(0), Invokable(obj)), Entry(IntKey(1), Function(name))]))
    case _ => Failure(UnsupportedOperandTypes)
  }

  /**
    As written, registering a closure or a function name fails, and once two
    listener slots exist a registered pair adds nothing; the pair itself is
    never stored as one callable.
   */
  lemma AddListenerAsWrittenLosesListeners(ls: PArray<Listener>, f: Listener)
    requires IsList(ls)
    ensures AddListenerAsWritten(ls, f).Success? <==> f.Method?
    ensures f.Method? && |ls| >= 2 ==> AddListenerAsWritten(ls, f) == Success(ls)
    ensures f.Method? && ls == [] ==>
      AddListenerAsWritten(ls, f) == Success([Entry(IntKey(0), Invokable(f.obj)), Entry(IntKey(1), Function(f.name))])
  {
    if f.Method? {
      var pair := [Entry(IntKey(0), Invokable(f.obj)), Entry(IntKey(1), Function(f.name))];
      ListUnion(ls, pair);
      if ls == [] {
        assert ls + pair[|ls|..] == pair;
      }
    }
  }

  /**
    The option array keeps the two defaults the constructor sets, and a
    recorded timeout is positive and equals the CURLOPT_TIMEOUT_MS option.
   */
  ghost predicate Configured(options: PArray<Value>, timeout: Option<real>) {
    && Get(options, IntKey(CURLOPT_RETURNTRANSFER)) == Some(Bool(true))
    && Get(options, IntKey(CURLOPT_NOSIGNAL)) == Some(Int(1))
    && (timeout.Some? ==> timeout.value > 0.0 && Get(options, IntKey(CURLOPT_TIMEOUT_MS)) == Some(Num(timeout.value)))
  }

  /** Assigning any option other than the defaults and the timeout keeps the configuration. */
  lemma SetKeepsConfigured(options: PArray<Value>, timeout: Option<real>, k: Key, v: Value)
    requires Configured(options, timeout)
    requires k !in {IntKey(CURLOPT_RETURNTRANSFER), IntKey(CURLOPT_NOSIGNAL), IntKey(CURLOPT_TIMEOUT_MS)}
    ensures Configured(Set(options, k, v), timeout)
  {
    GetSet(options, k, v, IntKey(CURLOPT_RETURNTRANSFER));
    GetSet(options, k, v, IntKey(CURLOPT_NOSIGNAL));
    GetSet(options, k, v, IntKey(CURLOPT_TIMEOUT_MS));
  }

  /** Adding options by union can never change the defaults or a recorded timeout. */
  lemma UnionKeepsConfigured(options: PArray<Value>, timeout: Option<real>, opts: PArray<Value>)
    requires Configured(options, timeout)
    ensures Configured(Union(options, opts), timeout)
  {
    UnionSpec(options, opts);
    GetSpec(options, IntKey(CURLOPT_RETURNTRANSFER));
    GetSpec(options, IntKey(CURLOPT_NOSIGNAL));
    GetSpec(options, IntKey(CURLOPT_TIMEOUT_MS));
  }

  /**
    Merging normalised headers into a header list by union keeps the list
    whole and adds only the lines at indexes past its length.
   */
  lemma HeaderUnion(headers: PArray<string>, hs: PArray<string>)
    requires IsList(headers)
    ensures IsList(Union(headers, Lines(hs)))
    ensures Union(headers, Lines(hs)) == if |hs| <= |headers| then headers else headers + Lines(hs)[|headers|..]
    ensures |Union(headers, Lines(hs))| == if |hs| <= |headers| then |headers| else |hs|
    ensures forall i :: |headers| <= i < |Union(headers, Lines(hs))| ==>
      Union(headers, Lines(hs))[i] == Entry(IntKey(i), Line(hs[i]))
  {
    var lines := Lines(hs);
    ListUnion(headers, lines);
    forall i | |headers| <= i < |Union(headers, lines)|
      ensures Union(headers, lines)[i] == Entry(IntKey(i), Line(hs[i]))
    {
      assert Union(headers, lines)[i] == lines[i];
    }
  }

  class Request {
    var url: Option<string>
    var post: PArray<string>
    var startTime: Option<real>
    var endTime: Option<real>
    var result: Option<Value>
    var listeners: seq<Listener>
    var timeout: Option<real>
    var curlHandle: Option<Handle>
    var headers: PArray<string>
    var options: PArray<Value>
    var success: Option<bool>
    var response: Option<string>

    /**
      The headers stay a list; the two defaults set by the constructor never
      change; a recorded timeout is positive and is the CURLOPT_TIMEOUT_MS option.
     */
    ghost predicate Valid()
      reads this
    {
      IsList(headers) && Configured(options, timeout)
    }

    /** What listeners observe of the completion. */
    function Observed(): Completion
      reads this
    {
      Completion(success, response, result, endTime)
    }

    constructor (u: Option<string>, validUrl: string -> bool)
      ensures Valid()
      ensures url == if u.Some? && validUrl(u.value) then u else None
      ensures options == [Entry(IntKey(CURLOPT_RETURNTRANSFER), Bool(true)), Entry(IntKey(CURLOPT_NOSIGNAL), Int(1))]
      ensures post == [] && headers == [] && listeners == []
      ensures timeout == None && curlHandle == None
      ensures startTime == None && endTime == None
      ensures result == None && success == None && response == None
    {
      url, post, startTime, endTime, result := None, [], None, None, None;
      listeners, timeout, curlHandle, headers, options := [], None, None, [], [];
      success, response := None, None;
      new;
      if u.Some? {
        SetUrl(u.value, validUrl);
      }
      options := Set(options, IntKey(CURLOPT_RETURNTRANSFER), Bool(true));
      options := Set(options, IntKey(CURLOPT_NOSIGNAL), Int(1));
    }

    /** `normalize`: one header line per entry, keyed 0, 1, ... in input order. */
    static method Normalize(a: PArray<string>) returns (normalized: PArray<string>)
      ensures normalized == Lines(a)
    {
      normalized := [];
      var i := 0;
      while i < |a|
        invariant 0 <= i <= |a|
        invariant normalized == Lines(a[..i])
      {
        var line := Line(a[i]);
        assert Lines(a[..i + 1]) == Lines(a[..i]) + [Entry(IntKey(i), line)];
        normalized := normalized + [Entry(IntKey(|normalized|), line)];
        i := i + 1;
      }
      assert a[..i] == a;
    }

    /** `setUrl`: the URL is replaced only when validation accepts it. */
    method SetUrl(u: string, validUrl: string -> bool)
      modifies this`url
      ensures url == if validUrl(u) then Some(u) else old(url)
    {
      if validUrl(u) {
        url := Some(u);
      }
    }

    /**
      `setPostData`: union into the post data (a key given again keeps its
      first value); CURLOPT_POST becomes 1 on every call; CURLOPT_POSTFIELDS
      is the serialisation of all post data whenever there is any.
     */
    method SetPostData(postValues: PArray<string>, buildQuery: PArray<string> -> string)
      requires Valid()
      modifies this`post, this`options
      ensures Valid()
      ensures post == Union(old(post), postValues)
      ensures options == if post != [] then Set(Set(old(options), IntKey(CURLOPT_POST), Int(1)), IntKey(CURLOPT_POSTFIELDS), Str(buildQuery(post)))
                         else Set(old(options), IntKey(CURLOPT_POST), Int(1))
      ensures forall k :: Get(post, k) == if HasKey(old(post), k) then Get(old(post), k) else Get(postValues, k)
      ensures Get(options, IntKey(CURLOPT_POST)) == Some(Int(1))
      ensures Get(options, IntKey(CURLOPT_POSTFIELDS)) ==
        if post != [] then Some(Str(buildQuery(post))) else Get(old(options), IntKey(CURLOPT_POSTFIELDS))
      ensures forall k :: k != IntKey(CURLOPT_POST) && k != IntKey(CURLOPT_POSTFIELDS) ==> Get(options, k) == Get(old(options), k)
    {
      UnionSpec(post, postValues);
      post := Union(post, postValues);
      ghost var before := options;
      SetKeepsConfigured(options, timeout, IntKey(CURLOPT_POST), Int(1));
      options := Set(options, IntKey(CURLOPT_POST), Int(1));
      ghost var withPost := options;
      if post != [] {
        SetKeepsConfigured(options, timeout, IntKey(CURLOPT_POSTFIELDS), Str(buildQuery(post)));
        options := Set(options, IntKey(CURLOPT_POSTFIELDS), Str(buildQuery(post)));
      }
      forall k
        ensures Get(options, k) ==
          if k == IntKey(CURLOPT_POSTFIELDS) && post != [] then Some(Str(buildQuery(post)))
          else if k == IntKey(CURLOPT_POST) then Some(Int(1))
          else Get(before, k)
      {
        GetSet(before, IntKey(CURLOPT_POST), Int(1), k);
        if post != [] {
          GetSet(withPost, IntKey(CURLOPT_POSTFIELDS), Str(buildQuery(post)), k);
        }
      }
    }

    /**
      `setHeaders`: union of the header list with the normalised input, so the
      old list stays a prefix and only lines at indexes past its length are
      added; CURLOPT_HTTPHEADER is then the whole header list.
     */
    method SetHeaders(hs: PArray<string>)
      requires Valid()
      modifies this`headers, this`options
      ensures Valid()
      ensures headers == Union(old(headers), Lines(hs))
      ensures headers == if |hs| <= |old(headers)| then old(headers) else old(headers) + Lines(hs)[|old(headers)|..]
      ensures forall i :: |old(headers)| <= i < |headers| ==> headers[i] == Entry(IntKey(i), Line(hs[i]))
      ensures options == Set(old(options), IntKey(CURLOPT_HTTPHEADER), Strings(headers))
      ensures Get(options, IntKey(CURLOPT_HTTPHEADER)) == Some(Strings(headers))
      ensures forall k :: k != IntKey(CURLOPT_HTTPHEADER) ==> Get(options, k) == Get(old(options), k)
    {
      var normalized := Normalize(hs);
      var merged := Union(headers, normalized);
      HeaderUnion(headers, hs);
      SetKeepsConfigured(options, timeout, IntKey(CURLOPT_HTTPHEADER), Strings(merged));
      GetSetAll(options, IntKey(CURLOPT_HTTPHEADER), Strings(merged));
      headers := merged;
      options := Set(options, IntKey(CURLOPT_HTTPHEADER), Strings(merged));
    }

    /**
      `setOptions`: add-if-absent. Present keys keep their value, absent keys
      are appended with the supplied value.
     */
    method SetOptions(opts: PArray<Value>)
      requires Valid()
      modifies this`options
      ensures Valid()
      ensures options == Union(old(options), opts)
      ensures old(options) == options[..|old(options)|]
      ensures forall k :: Get(options, k) == if HasKey(old(options), k) then Get(old(options), k) else Get(opts, k)
    {
      UnionSpec(options, opts);
      UnionKeepsConfigured(options, timeout, opts);
      options := Union(options, opts);
    }

    /** `setTimeout`: a positive timeout is recorded and becomes CURLOPT_TIMEOUT_MS; any other is ignored. */
    method SetTimeout(t: real)
      requires Valid()
      modifies this`timeout, this`options
      ensures Valid()
      ensures t > 0.0 ==> timeout == Some(t) && options == Set(old(options), IntKey(CURLOPT_TIMEOUT_MS), Num(t))
      ensures t <= 0.0 ==> timeout == old(timeout) && options == old(options)
    {
      if t > 0.0 {
        GetSet(options, IntKey(CURLOPT_TIMEOUT_MS), Num(t), IntKey(CURLOPT_RETURNTRANSFER));
        GetSet(options, IntKey(CURLOPT_TIMEOUT_MS), Num(t), IntKey(CURLOPT_NOSIGNAL));
        GetSet(options, IntKey(CURLOPT_TIMEOUT_MS), Num(t), IntKey(CURLOPT_TIMEOUT_MS));
        timeout := Some(t);
        options := Set(options, IntKey(CURLOPT_TIMEOUT_MS), Num(timeout.value));
      }
    }

    /**
      `getHandle`: the first call creates the handle from the URL and options
      current then; every later call returns that same handle.
     */
    method GetHandle(serial: nat) returns (h: Handle)
      modifies this`curlHandle
      ensures curlHandle == Some(h)
      ensures old(curlHandle).Some? ==> h == old(curlHandle).value
      ensures old(curlHandle).None? ==> h == Handle(serial, url, options)
    {
      if curlHandle.None? {
        curlHandle := Some(Handle(serial, url, options));
      }
      h := curlHandle.value;
    }

    /** `startTimer`, with the clock reading as a parameter. */
    method StartTimer(now: real)
      modifies this`startTime
      ensures startTime == Some(now)
    {
      startTime := Some(now);
    }

    /** `stopTimer`, with the clock reading as a parameter. */
    method StopTimer(now: real)
      modifies this`endTime
      ensures endTime == Some(now)
    {
      endTime := Some(now);
    }

    /** `addListener`, appending the callable (see AddListenerAsWritten for the code as written). */
    method AddListener(f: Listener)
      modifies this`listeners
      ensures listeners == old(listeners) + [f]
    {
      listeners := listeners + [f];
    }

    /** `notify`: every listener is called exactly once, in order, and sees the current completion. */
    method Notify() returns (calls: seq<Call>)
      ensures |calls| == |listeners|
      ensures forall i :: 0 <= i < |listeners| ==> calls[i] == Call(listeners[i], Observed())
    {
      calls := [];
      for i := 0 to |listeners|
        invariant |calls| == i
        invariant forall j :: 0 <= j < i ==> calls[j] == Call(listeners[j], Observed())
      {
        calls := calls + [Call(listeners[i], Observed())];
      }
    }

    /**
      `callBack`: stop the timer, store the result, classify (success iff the
      curl error code is 0 and the HTTP status is exactly 200; only success
      stores the body), then notify every listener, which sees all of it.
     */
    method CallBack(res: Value, errno: int, httpCode: int, body: string, now: real) returns (calls: seq<Call>)
      modifies this`endTime, this`result, this`success, this`response
      ensures endTime == Some(now) && result == Some(res)
      ensures success == Some(errno == 0 && httpCode == 200)
      ensures response == if errno == 0 && httpCode == 200 then Some(body) else old(response)
      ensures |calls| == |listeners|
      ensures forall i :: 0 <= i < |listeners| ==>
        calls[i] == Call(listeners[i], Completion(success, response, Some(res), Some(now)))
    {
      StopTimer(now);
      result := Some(res);
      if errno != 0 || httpCode != 200 {
        success := Some(false);
      } else {
        success := Some(true);
        response := Some(body);
      }
      calls := Notify();
    }
  }
}
