/**
  Client-side consequences of the Request contracts: sequences of calls on a
  fresh request, and what a caller can read back afterwards.
 */
module Scenarios {
  import opened Wrappers
  import opened PhpArray
  import opened CurlX

  /** A key set twice through setOptions keeps its first value; the two defaults keep theirs. */
  method OptionsFirstWriteWins(k: Key, first: Value, second: Value, validUrl: string -> bool) returns (got: Option<Value>)
    ensures got == if k == IntKey(CURLOPT_RETURNTRANSFER) then Some(Bool(true))
                   else if k == IntKey(CURLOPT_NOSIGNAL) then Some(Int(1))
                   else Some(first)
  {
    var r := new Request(None, validUrl);
    GetSpec(r.options, k);
    r.SetOptions([Entry(k, first)]);
    r.SetOptions([Entry(k, second)]);
    got := Get(r.options, k);
  }

  /** Post data given again under the same key keeps the first value; new keys are appended. */
  method PostFirstWriteWins(a: string, b: string, x: string, y: string, z: string,
                            validUrl: string -> bool, buildQuery: PArray<string> -> string)
    returns (post: PArray<string>, fields: Option<Value>)
    requires a != b
    ensures post == [Entry(StrKey(a), x), Entry(StrKey(b), z)]
    ensures fields == Some(Str(buildQuery(post)))
  {
    var r := new Request(None, validUrl);
    UnionWithEmpty([Entry(StrKey(a), x)]);
    RepeatedKeyUnion(StrKey(a), StrKey(b), x, y, z);
    r.SetPostData([Entry(StrKey(a), x)], buildQuery);
    assert r.post == [Entry(StrKey(a), x)];
    r.SetPostData([Entry(StrKey(a), y), Entry(StrKey(b), z)], buildQuery);
    assert r.post == [Entry(StrKey(a), x), Entry(StrKey(b), z)];
    post := r.post;
    fields := Get(r.options, IntKey(CURLOPT_POSTFIELDS));
  }

  /**
    The options `getOptions` returns, and `curl_setopt_array` applies, in
    their order: a second setPostData updates CURLOPT_POST and
    CURLOPT_POSTFIELDS where they already are, after the two defaults.
   */
  method PostOptionsInPlace(a: string, x: string, y: string, validUrl: string -> bool, buildQuery: PArray<string> -> string)
    returns (keys: seq<Key>)
    ensures keys == [IntKey(CURLOPT_RETURNTRANSFER), IntKey(CURLOPT_NOSIGNAL), IntKey(CURLOPT_POST), IntKey(CURLOPT_POSTFIELDS)]
  {
    var r := new Request(None, validUrl);
    ghost var o0 := r.options;
    assert Keys(o0) == [IntKey(CURLOPT_RETURNTRANSFER), IntKey(CURLOPT_NOSIGNAL)];
    UnionWithEmpty([Entry(StrKey(a), x)]);
    r.SetPostData([Entry(StrKey(a), x)], buildQuery);
    assert r.post == [Entry(StrKey(a), x)];
    PostDataKeys(o0, buildQuery(r.post));
    ghost var o1 := r.options;
    ghost var p1 := r.post;
    UnionSpec(p1, [Entry(StrKey(a), y)]);
    r.SetPostData([Entry(StrKey(a), y)], buildQuery);
    assert r.post != [];
    PostDataKeys(o1, buildQuery(r.post));
    keys := Keys(r.options);
  }

  /**
    With post data present, setPostData's two assignments leave CURLOPT_POST
    and CURLOPT_POSTFIELDS once each, after the two defaults.
   */
  lemma PostDataKeys(o: PArray<Value>, q: string)
    requires || Keys(o) == [IntKey(CURLOPT_RETURNTRANSFER), IntKey(CURLOPT_NOSIGNAL)]
             || Keys(o) == [IntKey(CURLOPT_RETURNTRANSFER), IntKey(CURLOPT_NOSIGNAL), IntKey(CURLOPT_POST), IntKey(CURLOPT_POSTFIELDS)]
    ensures Keys(Set(Set(o, IntKey(CURLOPT_POST), Int(1)), IntKey(CURLOPT_POSTFIELDS), Str(q)))
            == [IntKey(CURLOPT_RETURNTRANSFER), IntKey(CURLOPT_NOSIGNAL), IntKey(CURLOPT_POST), IntKey(CURLOPT_POSTFIELDS)]
  {
    SetKeys(o, IntKey(CURLOPT_POST), Int(1));
    SetKeys(Set(o, IntKey(CURLOPT_POST), Int(1)), IntKey(CURLOPT_POSTFIELDS), Str(q));
  }

  /** `[a => x] + [a => y, b => z]` is `[a => x, b => z]`. */
  lemma RepeatedKeyUnion<V>(a: Key, b: Key, x: V, y: V, z: V)
    requires a != b
    ensures Union([Entry(a, x)], [Entry(a, y), Entry(b, z)]) == [Entry(a, x), Entry(b, z)]
  {
    var left: PArray<V> := [Entry(a, x)];
    var right: PArray<V> := [Entry(a, y), Entry(b, z)];
    assert HasKey(left, a) by { assert left[0].key == a; }
    assert right[..1] == [Entry(a, y)] && right[..1][..0] == [];
    assert Missing(left, right[..1]) == [];
    assert Missing(left, right) == [Entry(b, z)];
  }

  /**
    Two calls of setHeaders with one header each keep only the first header:
    the second call's line sits at index 0, which the list already has.
    CURLOPT_HTTPHEADER is added once, after the two defaults.
   */
  method SecondSingleHeaderIsDropped(first: Entry<string>, second: Entry<string>, validUrl: string -> bool)
    returns (headers: PArray<string>, option: Option<Value>, keys: seq<Key>)
    ensures headers == [Entry(IntKey(0), Line(first))]
    ensures option == Some(Strings(headers))
    ensures keys == [IntKey(CURLOPT_RETURNTRANSFER), IntKey(CURLOPT_NOSIGNAL), IntKey(CURLOPT_HTTPHEADER)]
  {
    var r := new Request(None, validUrl);
    ghost var o0 := r.options;
    r.SetHeaders([first]);
    ghost var v1 := Strings(r.headers);
    r.SetHeaders([second]);
    HeaderOptionKeys(o0, v1, Strings(r.headers));
    headers := r.headers;
    option := Get(r.options, IntKey(CURLOPT_HTTPHEADER));
    keys := Keys(r.options);
  }

  /** Assigning CURLOPT_HTTPHEADER twice adds it once, after the two defaults. */
  lemma HeaderOptionKeys(o: PArray<Value>, v1: Value, v2: Value)
    requires o == [Entry(IntKey(CURLOPT_RETURNTRANSFER), Bool(true)), Entry(IntKey(CURLOPT_NOSIGNAL), Int(1))]
    ensures Keys(Set(Set(o, IntKey(CURLOPT_HTTPHEADER), v1), IntKey(CURLOPT_HTTPHEADER), v2))
            == [IntKey(CURLOPT_RETURNTRANSFER), IntKey(CURLOPT_NOSIGNAL), IntKey(CURLOPT_HTTPHEADER)]
  {
    assert Keys(o) == [IntKey(CURLOPT_RETURNTRANSFER), IntKey(CURLOPT_NOSIGNAL)];
    SetKeys(o, IntKey(CURLOPT_HTTPHEADER), v1);
    SetKeys(Set(o, IntKey(CURLOPT_HTTPHEADER), v1), IntKey(CURLOPT_HTTPHEADER), v2);
  }

  /**
    The handle is created from the configuration current at the first call;
    options added afterwards do not reach it.
   */
  method HandleIgnoresLaterOptions(u: string, validUrl: string -> bool, later: PArray<Value>, s1: nat, s2: nat)
    returns (h1: Handle, h2: Handle)
    ensures h1 == h2 && h1.serial == s1
    ensures h1.url == if validUrl(u) then Some(u) else None
    ensures h1.options == [Entry(IntKey(CURLOPT_RETURNTRANSFER), Bool(true)), Entry(IntKey(CURLOPT_NOSIGNAL), Int(1))]
  {
    var r := new Request(Some(u), validUrl);
    h1 := r.GetHandle(s1);
    r.SetOptions(later);
    h2 := r.GetHandle(s2);
  }

  /**
    Completion with listeners registered in order: each is called once, in
    registration order, and sees the timer stopped and the outcome set; a
    redirect or any other status than 200 is a failure without a response.
   */
  method CompleteOnce(first: Listener, second: Listener, res: Value, errno: int, httpCode: int, body: string,
                      start: real, stop: real, validUrl: string -> bool)
    returns (calls: seq<Call>)
    ensures |calls| == 2 && calls[0].listener == first && calls[1].listener == second
    ensures forall c :: c in calls ==>
      c.seen == Completion(Some(errno == 0 && httpCode == 200),
                           if errno == 0 && httpCode == 200 then Some(body) else None,
                           Some(res), Some(stop))
  {
    var r := new Request(None, validUrl);
    r.AddListener(first);
    r.AddListener(second);
    r.StartTimer(start);
    calls := r.CallBack(res, errno, httpCode, body, stop);
  }
}
